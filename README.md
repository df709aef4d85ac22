# Directional window kittens for kitty, modelled in Dafny

This project models the four kitty "kittens" of smart-splits.nvim. Each kitten
handles a keybinding in one of two ways. It either performs a kitty layout
operation on the target window, or it forwards a key chord to the program
running in that window:

- `relative_resize.py` resizes the active window in a direction. It chooses
  `wider`/`narrower`/`taller`/`shorter` from which neighbours the target
  window has.
- `pass_keys.py` moves focus to a neighbouring window. When the window runs
  (n)vim, it instead writes the chords of a `>`-separated key mapping to the
  window's child, one encoded key event per chord, in order.
- `neighboring_window.py` moves focus to a neighbouring window. When the
  foreground command is exactly `tmux`, it instead writes one encoded chord.
- `split_window.py` splits the window: `hsplit` for up/down, `vsplit`
  otherwise, then a move back for up/left. On tmux it is meant to write a chord.

The kitty runtime is abstracted as follows:

- The `boss` is a `Host.Boss` object. It holds the window map and a `log` of
  the host operations performed, in order. Those operations are resize,
  focus, launch, move and write.
- A window is a `Host.Window` value. It holds the foreground processes, the
  foreground command line, the neighbour presence on each side, and the
  window's key encoder.
- The library calls `parse_shortcut`, `re.search(..., re.I)` and `int()` are
  the fields of a `Host.Runtime` value. Their internals are not modelled.

Each `handle_result` appears twice:

- a pure function `Handle`, which gives the outcome (returned, or the Python
  exception raised) and the host operations made;
- a method `HandleResult` on the `Boss`, which performs the operations. Its
  postcondition ties `boss.log` to `old(boss.log) + Handle(...).actions`.

The properties are lemmas about `Handle` and the decision functions.

Points of the code worth knowing:

- For every direction the resize chain looks at the right (bottom) neighbour
  first. For `right` (`down`) such a neighbour gives `wider` (`taller`), and a
  left (top) neighbour alone gives `narrower` (`shorter`); for `left` (`up`)
  it is the other way round. `RelativeResize.Table` states this
  geometrically: the moved edge is the right (bottom) edge when there is a
  neighbour beyond it, otherwise the left (top) edge.
- `pass_keys.py` never checks for tmux; it only checks the vim pattern.
  `neighboring_window.py` and `split_window.py` only check for `tmux`, by
  exact equality with the first token of the foreground command line.
- `neighboring_window.py` has no missing-window guard. A missing window raises
  AttributeError, and an empty foreground command line raises IndexError. The
  model represents both as raised outcomes, not as preconditions.
- A missing argument raises IndexError. A non-integer resize amount raises
  ValueError. In every case this happens before any host operation.

## Model

| member | source | states |
|---|---|---|
| `Strings.Split` | kitty/pass_keys.py:42 | `key_mapping.split(">")`: one more piece than there are `>`, no piece contains `>`, and joining the pieces with `>` gives back the key mapping |
| `Strings.SplitJoin` | kitty/pass_keys.py:42 | splitting inverts joining: any non-empty list of `>`-free pieces is exactly what splitting their join yields, so the split is unique |
| `KeyEncoding.DecodeMods` | kitty/pass_keys.py:17-22 | the six flags given to `KeyEvent` are exactly the low six bits of `mods` (their weighted sum is `mods % 64`) |
| `KeyEncoding.DecodeModsBits` | kitty/neighboring_window.py:14-19 | shift, alt, ctrl, super, hyper, meta are bits 0 to 5 of `mods` (masks 1, 2, 4, 8, 16, 32) |
| `KeyEncoding.DecodeModsValue` | kitty/pass_keys.py:17-22 | decoding the mask built from any six flags gives back those flags, so no two flag sets share a mask |
| `KeyEncoding.CtrlShiftFlags` | kitty/pass_keys.py:17-22 | mask 5 ("ctrl+shift+x") sets exactly ctrl and shift |
| `KeyEncoding.KeyEventOf` | kitty/pass_keys.py:13-23 | the event carries the parsed mask and key unchanged, and its flags spell the mask's low six bits |
| `KeyEncoding.EncodeKeyMapping` | kitty/pass_keys.py:12-25 | the window encodes one event carrying the parsed mask and key, whose shift, alt, ctrl, super, hyper and meta flags are bits 0 to 5 of the mask; kitty/neighboring_window.py:9-22 repeats the same helper |
| `RelativeResize.Resolve` | kitty/relative_resize.py:20-58 | a primitive is chosen iff the direction is one of the four literals and there is a neighbour on its axis; the primitive acts on that axis |
| `RelativeResize.ResolveIsTable` | kitty/relative_resize.py:20-58 | for each direction the if/elif chain equals the geometric table: move the right/bottom edge if there is a neighbour beyond it, else the left/top edge; grow iff that edge moves away from the window |
| `RelativeResize.ResolveOtherDirection` | kitty/relative_resize.py:20-58 | a direction other than the four literals resizes nothing |
| `RelativeResize.ResolveLeft` | kitty/relative_resize.py:21-28 | left: a right neighbour gives narrower, else a left neighbour gives wider, else nothing |
| `RelativeResize.ResolveRight` | kitty/relative_resize.py:31-38 | right: a right neighbour gives wider, else a left neighbour gives narrower, else nothing |
| `RelativeResize.ResolveUp` | kitty/relative_resize.py:41-48 | up: a bottom neighbour gives shorter, else a top neighbour gives taller, else nothing |
| `RelativeResize.ResolveDown` | kitty/relative_resize.py:51-58 | down: a bottom neighbour gives taller, else a top neighbour gives shorter, else nothing |
| `RelativeResize.ResolveSymmetric` | kitty/relative_resize.py:21-58 | right resizes iff left does, with the opposite primitive; the same holds for down and up |
| `RelativeResize.ResolveIgnoresOtherAxis` | kitty/relative_resize.py:15-58 | neighbours on the other axis never change the choice |
| `RelativeResize.ResizeActions` | kitty/relative_resize.py:7-58 | at most one resize call, always with `amount` unchanged; none when the target window is missing |
| `RelativeResize.Handle` | kitty/relative_resize.py:61-64 | IndexError iff `args[2]` is missing; ValueError iff it is present but not an integer; a call that returns makes only resizes, each by the parsed amount (pinned down further by `HandleResolves` and `HandleFailsCleanly`) |
| `RelativeResize.HandleResolves` | kitty/relative_resize.py:61-64 | with `args[1]` and an integer `args[2]`, the call returns and makes exactly the resize `Resolve` picks, with the parsed amount |
| `RelativeResize.HandleFailsCleanly` | kitty/relative_resize.py:61-64 | an exception is raised iff `args[2]` is missing or is not an integer, and then nothing is resized |
| `RelativeResize.ResizeLeftBetweenNeighbors` | kitty/relative_resize.py:21-22 | resize left by 3 between two neighbours is exactly one `narrower` by 3, the primitive named "narrower" |
| `RelativeResize.ResizeUpAlone` | kitty/relative_resize.py:41-58 | resize up with no top or bottom neighbour makes no call |
| `RelativeResize.RelativeResizeWindow` | kitty/relative_resize.py:7-58 | the boss log grows by exactly `ResizeActions` |
| `RelativeResize.HandleResult` | kitty/relative_resize.py:61-64 | returns `Handle`'s outcome and the boss log grows by exactly its actions |
| `PassKeys.AnyMatches` | kitty/pass_keys.py:9 | true iff some process's first command-line token (or '' for an empty command line) matches the pattern |
| `PassKeys.IsWindowVim` | kitty/pass_keys.py:7-9 | true iff some foreground process's command name matches `vim_id`; false with no foreground processes |
| `PassKeys.VimId` | kitty/pass_keys.py:37 | the pattern is `args[4]` when a fifth argument is given, otherwise "n?vim" |
| `PassKeys.Writes` | kitty/pass_keys.py:42-44 | one write per chord, the k-th being the encoding of the k-th chord to the target window |
| `PassKeys.Handle` | kitty/pass_keys.py:33-46 | an exception is raised iff there are fewer than four arguments, and it is IndexError with no host call; a missing window makes no call; every call made is a write to the target or `neighboring_window(args[2])` (cases pinned down by the `Handle*` lemmas below) |
| `PassKeys.HandleShortArgs` | kitty/pass_keys.py:35-36 | fewer than four arguments raise IndexError before any host call, even for a missing window |
| `PassKeys.HandleMissingWindow` | kitty/pass_keys.py:39-40 | a missing window: no write and no focus change |
| `PassKeys.HandleVim` | kitty/pass_keys.py:37-44 | in a window matching `vim_id` (`args[4]`, else "n?vim"): count of `>` plus one writes, the k-th the encoding of the k-th chord, all writes, no focus change |
| `PassKeys.HandleNotVim` | kitty/pass_keys.py:45-46 | otherwise exactly one `neighboring_window(args[2])` and no write |
| `PassKeys.HandleExclusive` | kitty/pass_keys.py:41-46 | a call either only writes or makes exactly one focus change |
| `PassKeys.LeaderThenKey` | kitty/pass_keys.py:42-44 | "leader>key" in a vim window writes the leader's encoding, then the key's, and nothing else |
| `PassKeys.HandleDefaultVimId` | kitty/pass_keys.py:37 | with exactly four arguments the handler behaves as if "n?vim" were given as the fifth |
| `PassKeys.WriteChords` | kitty/pass_keys.py:42-44 | the loop writes each chord's encoding to the child in order: the boss log grows by exactly `Writes` of the chords |
| `PassKeys.HandleResult` | kitty/pass_keys.py:33-46 | the vim branch writes the chords through `WriteChords`; returns `Handle`'s outcome and the boss log grows by exactly its actions |
| `NeighboringWindow.Handle` | kitty/neighboring_window.py:26-35 | AttributeError iff the target window is missing; every call made is a write to the target whose first token is exactly "tmux", or `neighboring_window(args[1])` for any other first token (cases pinned down by the `Handle*` lemmas below) |
| `NeighboringWindow.HandleTmux` | kitty/neighboring_window.py:29-33 | first token exactly "tmux": exactly one write, the encoding of `args[2]`, and no focus change |
| `NeighboringWindow.HandleOther` | kitty/neighboring_window.py:34-35 | any other first token: exactly one `neighboring_window(args[1])` and no write |
| `NeighboringWindow.HandleUnguarded` | kitty/neighboring_window.py:27-29 | a missing window raises AttributeError and an empty command line raises IndexError, before any host call |
| `NeighboringWindow.HandleExactlyOne` | kitty/neighboring_window.py:26-35 | a call that returns makes exactly one host call, a write or a focus change; one that raises makes none |
| `NeighboringWindow.HandleReadsFirstTokenOnly` | kitty/neighboring_window.py:29-30 | the rest of the command line and the foreground process list do not affect the result |
| `NeighboringWindow.HandleResult` | kitty/neighboring_window.py:26-35 | returns `Handle`'s outcome and the boss log grows by exactly its actions |
| `SplitWindow.Location` | kitty/split_window.py:9-12 | `--location=hsplit` exactly for up and down, `--location=vsplit` for every other direction |
| `SplitWindow.SplitActions` | kitty/split_window.py:8-15 | one launch with `--cwd=current` and `--location=hsplit` for up/down, `vsplit` otherwise; for up/left, then exactly one `move_window(direction)` |
| `SplitWindow.SplitActionsByDirection` | kitty/split_window.py:8-15 | the exact calls for each of up, down, left, right |
| `SplitWindow.SplitActionsOtherDirection` | kitty/split_window.py:9-15 | any other direction string gives a vertical split and no move |
| `SplitWindow.HandleAsWritten` | kitty/split_window.py:18-32 | as written, the handler never writes to the child, a call that raises makes no host call, and a missing window does nothing |
| `SplitWindow.AsWrittenTmuxRaises` | kitty/split_window.py:27-30 | as written, a tmux window raises NameError and nothing is written, launched or moved |
| `SplitWindow.HandleTmux` | kitty/split_window.py:27-30 | as intended, a tmux window gets exactly one write, the encoding of `args[2]`, the same as neighboring_window makes; no launch or move |
| `SplitWindow.HandleAgreesOutsideTmux` | kitty/split_window.py:19-32 | the corrected handler differs from the code as written only where the latter raises NameError |
| `SplitWindow.Handle` | kitty/split_window.py:18-32 | as intended: the only exception is IndexError, with no host call; a write goes only to a tmux target and is then the only call; launches and moves happen only for other commands |
| `SplitWindow.HandleMissingWindow` | kitty/split_window.py:20-23 | a missing window: no action at all |
| `SplitWindow.HandleOther` | kitty/split_window.py:25-32 | any other command: the split towards `args[1]`, and no write |
| `SplitWindow.Split` | kitty/split_window.py:8-15 | the boss log grows by exactly `SplitActions(direction)` |
| `SplitWindow.HandleResult` | kitty/split_window.py:18-32 | returns the corrected `Handle`'s outcome and the boss log grows by exactly its actions |

## Findings

| source | as written | input that shows it | evidently intended | confidence | as-written member | corrected member |
|---|---|---|---|---|---|---|
| kitty/split_window.py:29 | the tmux branch calls `encode_key_mapping`, which kitty/split_window.py neither defines nor imports, so it raises NameError and never writes | a target window whose foreground command line starts with `tmux`, with at least three arguments | write the encoding of `args[2]` to the child, as kitty/neighboring_window.py:31-33 does | high (not executed) | `SplitWindow.AsWrittenTmuxRaises` | `SplitWindow.HandleTmux` |

`SplitWindow.HandleResult` uses the corrected branch. `SplitWindow.HandleAsWritten`
keeps the code's behaviour.

## Left out

- `parse_shortcut`, `KeyEvent.as_window_system_event` and `window.encoded_key` are kitty library code. They appear as uninterpreted functions (`Runtime.parseShortcut`, `Window.encodedKey`), so the encoded bytes themselves are not modelled.
- `re.search(vim_id, name, re.I)` is the uninterpreted `Runtime.search`. Regex syntax, case folding, and the `re.error` an invalid `vim_id` would raise are not modelled.
- `int(args[2])` is the uninterpreted `Runtime.parseInt`. `None` stands for ValueError.
- How kitty resizes, focuses, launches, moves and writes is not modelled. The model records each call in the boss's log, in order.
- `neighbors_for_window` is the `Window.neighbors` presence flags. kitty's layout computation is not modelled. The model does not capture that the resize acts on the tab's active window while the neighbours are those of the target window.
- `boss.active_tab.active_window` is read into `current_window_id` at kitty/relative_resize.py:13 but never used, so it is left out.
- Exceptions raised inside kitty's own calls are not modelled. One example is `foreground_cmdline` failing for a dead child.
- The `main` stubs and the `@result_handler(no_ui=True)` decorators are kitty plumbing.
