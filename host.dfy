/**
 * The part of the kitty runtime that the kittens see: the window map of the
 * `boss`, the windows themselves (foreground processes, layout neighbours, key
 * encoder), the library calls they make, and the host operations they invoke.
 * The host operations are recorded, in order, in the `log` of a `Boss`.
 */
module Host {

  datatype Option<+T> = None | Some(value: T)

  type WindowId = int
  type Bytes = seq<bv8>

  /** The four step operations of `Tab.resize_window`. */
  datatype Primitive = Wider | Narrower | Taller | Shorter
  {
    /** The string the kitten passes to `resize_window`. */
    function Name(): string {
      match this
      case Wider => "wider"
      case Narrower => "narrower"
      case Taller => "taller"
      case Shorter => "shorter"
    }

    /** The primitive with the inverse effect: wider and narrower, taller and shorter. */
    function Opposite(): Primitive {
      match this
      case Wider => Narrower
      case Narrower => Wider
      case Taller => Shorter
      case Shorter => Taller
    }
  }

  /**
   * Presence of at least one neighbour on each side of a window, i.e. the
   * truthiness of the lists the layout's `neighbors_for_window` returns under
   * 'left', 'right', 'top' and 'bottom'.
   */
  datatype Neighbors = Neighbors(left: bool, right: bool, top: bool, bottom: bool)

  /** A foreground process of a window's child, with its command line. */
  datatype Process = Process(cmdline: seq<string>)

  /** What `parse_shortcut` returns: the modifier bitmask and the key name. */
  datatype Shortcut = Shortcut(mods: nat, key: string)

  /** The six modifier flags a `KeyEvent` carries besides its bitmask. */
  datatype Modifiers = Modifiers(shift: bool, alt: bool, ctrl: bool, super: bool, hyper: bool, meta: bool)

  /** The fields the kittens give to `KeyEvent`. */
  datatype KeyEvent = KeyEvent(mods: nat, key: string, flags: Modifiers)

  /**
   * A kitty window as the kittens read it.
   * `encodedKey` stands for `window.encoded_key(event.as_window_system_event())`.
   * `neighbors` is what the active tab's layout reports for this window.
   */
  datatype Window = Window(
    foregroundProcesses: seq<Process>,
    foregroundCmdline: seq<string>,
    neighbors: Neighbors,
    encodedKey: KeyEvent -> Bytes)

  /**
   * Library calls whose internals are not modelled:
   * `parseShortcut` is kitty's `parse_shortcut`,
   * `search(pattern, text)` is `re.search(pattern, text, re.I) is not None`,
   * `parseInt(s)` is `int(s)`, `None` when that raises ValueError.
   */
  datatype Runtime = Runtime(
    parseShortcut: string -> Shortcut,
    search: (string, string) -> bool,
    parseInt: string -> Option<int>)

  /** The Python exceptions the kittens can raise. */
  datatype PyError = IndexError | ValueError | AttributeError | NameError

  /** How a `handle_result` call ends: it returns, or an exception escapes it. */
  datatype Outcome = Returned | Raised(error: PyError)

  /** One host operation invoked by a kitten. */
  datatype Action =
    | Resize(primitive: Primitive, amount: int)   // boss.active_tab.resize_window
    | Focus(direction: string)                    // boss.active_tab.neighboring_window
    | Launch(launchArgs: seq<string>)             // boss.launch
    | Move(direction: string)                     // boss.active_tab.move_window
    | Write(target: WindowId, data: Bytes)        // window.write_to_child

  /** The outcome of one `handle_result` call with the host operations it made, in order. */
  datatype Run = Run(outcome: Outcome, actions: seq<Action>)

  /** The command name both tmux-aware kittens compare against, exactly. */
  const Tmux: string := "tmux"

  /** The command name of a command line: its first token, or '' when it is empty. */
  function FirstToken(cmdline: seq<string>): string {
    if |cmdline| > 0 then cmdline[0] else ""
  }

  /**
   * kitty's `boss`: the map from window ids to windows, and the host
   * operations, each of which appends what it did to `log`.
   */
  class Boss {
    const windowIdMap: map<WindowId, Window>
    var log: seq<Action>

    constructor (windowIdMap: map<WindowId, Window>)
      ensures this.windowIdMap == windowIdMap && log == []
    {
      this.windowIdMap := windowIdMap;
      log := [];
    }

    method ResizeWindow(primitive: Primitive, amount: int)
      modifies this
      ensures log == old(log) + [Resize(primitive, amount)]
    {
      log := log + [Resize(primitive, amount)];
    }

    method NeighboringWindow(direction: string)
      modifies this
      ensures log == old(log) + [Focus(direction)]
    {
      log := log + [Focus(direction)];
    }

    method Launch(launchArgs: seq<string>)
      modifies this
      ensures log == old(log) + [Action.Launch(launchArgs)]
    {
      log := log + [Action.Launch(launchArgs)];
    }

    method MoveWindow(direction: string)
      modifies this
      ensures log == old(log) + [Move(direction)]
    {
      log := log + [Move(direction)];
    }

    method WriteToChild(target: WindowId, data: Bytes)
      modifies this
      ensures log == old(log) + [Write(target, data)]
    {
      log := log + [Write(target, data)];
    }
  }
}
