/**
 * kitty/pass_keys.py: move focus to a neighbouring window, unless the target
 * window runs (n)vim, in which case the chord sequence is sent to the child
 * instead, one encoded key event per `>`-separated chord, in order.
 */
module PassKeys {
  import opened Host
  import opened Strings
  import opened KeyEncoding

  /** The pattern used when no fifth argument is given. */
  const DefaultVimId: string := "n?vim"

  /** `vim_id`: `args[4]` when there are more than four arguments, else the default. */
  function VimId(args: seq<string>): (r: string)
    ensures |args| <= 4 ==> r == DefaultVimId
    ensures |args| > 4 ==> r == args[4]
  {
    if |args| > 4 then args[4] else DefaultVimId
  }

  /** `any(...)` over the processes, from the first: some command name matches `vimId`. */
  function AnyMatches(rt: Runtime, processes: seq<Process>, vimId: string): (r: bool)
    ensures r <==> exists i :: 0 <= i < |processes| && rt.search(vimId, FirstToken(processes[i].cmdline))
    decreases |processes|
  {
    if |processes| == 0 then false
    else
      var found := rt.search(vimId, FirstToken(processes[0].cmdline));
      var rest := AnyMatches(rt, processes[1..], vimId);
      assert forall i :: 1 <= i < |processes| ==> processes[i] == processes[1..][i - 1];
      found || rest
  }

  /**
   * `is_window_vim`: some foreground process's command name (the first
   * token of its command line, '' for an empty one) matches `vimId`; false
   * when there are no foreground processes.
   */
  function IsWindowVim(rt: Runtime, window: Window, vimId: string): (r: bool)
    ensures r <==> exists i :: 0 <= i < |window.foregroundProcesses| && rt.search(vimId, FirstToken(window.foregroundProcesses[i].cmdline))
    ensures window.foregroundProcesses == [] ==> !r
  {
    AnyMatches(rt, window.foregroundProcesses, vimId)
  }

  /**
   * The writes of the chords `pieces`, in order, to the child of window
   * `target`: one write per chord, the `k`-th being the encoding of the
   * `k`-th chord.
   */
  function Writes(rt: Runtime, target: WindowId, window: Window, pieces: seq<string>): (r: seq<Action>)
    ensures |r| == |pieces|
    ensures forall k :: 0 <= k < |pieces| ==> r[k] == Write(target, EncodeKeyMapping(rt, window, pieces[k]))
    decreases |pieces|
  {
    if |pieces| == 0 then []
    else
      var init := pieces[..|pieces| - 1];
      var last := Write(target, EncodeKeyMapping(rt, window, pieces[|pieces| - 1]));
      assert forall k :: 0 <= k < |init| ==> init[k] == pieces[k];
      Writes(rt, target, window, init) + [last]
  }

  /**
   * `handle_result`. `args[2]` (direction) and `args[3]` (key mapping) are
   * read first, so fewer than four arguments raise IndexError. A missing
   * window then does nothing; a vim window receives the writes of the
   * chords of `args[3]` split on '>'; any other window moves focus towards
   * `args[2]`.
   */
  function Handle(rt: Runtime, windows: map<WindowId, Window>, args: seq<string>, targetWindowId: WindowId): (r: Run)
    ensures r.outcome.Raised? <==> |args| < 4
    ensures r.outcome.Raised? ==> r.outcome.error == IndexError && r.actions == []
    ensures targetWindowId !in windows ==> r.actions == []
    ensures forall a :: a in r.actions ==> (a.Write? && a.target == targetWindowId) || a == Focus(args[2])
  {
    if |args| <= 3 then Run(Raised(IndexError), [])
    else if targetWindowId !in windows then Run(Returned, [])
    else
      var window := windows[targetWindowId];
      if IsWindowVim(rt, window, VimId(args)) then
        Run(Returned, Writes(rt, targetWindowId, window, Split(args[3], '>')))
      else
        Run(Returned, [Focus(args[2])])
  }

  /** Too few arguments raise IndexError before any host call. */
  lemma HandleShortArgs(rt: Runtime, windows: map<WindowId, Window>, args: seq<string>, targetWindowId: WindowId)
    requires |args| < 4
    ensures Handle(rt, windows, args, targetWindowId) == Run(Raised(IndexError), [])
  {
  }

  /** A missing window: no write and no focus change. */
  lemma HandleMissingWindow(rt: Runtime, windows: map<WindowId, Window>, args: seq<string>, targetWindowId: WindowId)
    requires |args| >= 4 && targetWindowId !in windows
    ensures Handle(rt, windows, args, targetWindowId) == Run(Returned, [])
  {
  }

  /**
   * In a vim window: as many writes as `>`-separated chords (one more than
   * the number of '>'), each the encoding of its chord, in left-to-right
   * order, and no focus change.
   */
  lemma HandleVim(rt: Runtime, windows: map<WindowId, Window>, args: seq<string>, targetWindowId: WindowId)
    requires |args| >= 4 && targetWindowId in windows
    requires IsWindowVim(rt, windows[targetWindowId], VimId(args))
    ensures Handle(rt, windows, args, targetWindowId).outcome == Returned
    ensures |Handle(rt, windows, args, targetWindowId).actions| == multiset(args[3])['>'] + 1
    ensures forall k :: 0 <= k < |Split(args[3], '>')| ==>
      Handle(rt, windows, args, targetWindowId).actions[k] ==
      Write(targetWindowId, EncodeKeyMapping(rt, windows[targetWindowId], Split(args[3], '>')[k]))
    ensures forall a :: a in Handle(rt, windows, args, targetWindowId).actions ==> a.Write?
  {
  }

  /** In any other window: exactly one focus change towards `args[2]` and no write. */
  lemma HandleNotVim(rt: Runtime, windows: map<WindowId, Window>, args: seq<string>, targetWindowId: WindowId)
    requires |args| >= 4 && targetWindowId in windows
    requires !IsWindowVim(rt, windows[targetWindowId], VimId(args))
    ensures Handle(rt, windows, args, targetWindowId) == Run(Returned, [Focus(args[2])])
  {
  }

  /**
   * The branches exclude each other: a call never both writes and changes
   * focus, and changes focus at most once.
   */
  lemma HandleExclusive(rt: Runtime, windows: map<WindowId, Window>, args: seq<string>, targetWindowId: WindowId)
    ensures var actions := Handle(rt, windows, args, targetWindowId).actions;
      (forall a :: a in actions ==> a.Write?) || actions == [Focus(args[2])]
  {
    if |args| >= 4 && targetWindowId in windows && IsWindowVim(rt, windows[targetWindowId], VimId(args)) {
      HandleVim(rt, windows, args, targetWindowId);
    }
  }

  /**
   * A leader chord followed by a key, such as "ctrl+b>n", in a vim window:
   * two writes, the leader's encoding first, and nothing else.
   */
  lemma LeaderThenKey(rt: Runtime, windows: map<WindowId, Window>, args: seq<string>, targetWindowId: WindowId,
                      leader: string, key: string)
    requires |args| >= 4 && args[3] == leader + ">" + key
    requires '>' !in leader && '>' !in key
    requires targetWindowId in windows
    requires IsWindowVim(rt, windows[targetWindowId], VimId(args))
    ensures Handle(rt, windows, args, targetWindowId).actions ==
      [Write(targetWindowId, EncodeKeyMapping(rt, windows[targetWindowId], leader)),
       Write(targetWindowId, EncodeKeyMapping(rt, windows[targetWindowId], key))]
  {
    var chords := [leader, key];
    assert chords[1..] == [key];
    assert Join(chords, '>') == args[3];
    SplitJoin(chords, '>');
  }

  /** The loop of `handle_result` over the chords: each one's encoding is written to the child, in order. */
  method WriteChords(rt: Runtime, boss: Boss, target: WindowId, window: Window, keymaps: seq<string>)
    modifies boss
    ensures boss.log == old(boss.log) + Writes(rt, target, window, keymaps)
  {
    var i := 0;
    while i < |keymaps|
      invariant 0 <= i <= |keymaps|
      invariant boss.log == old(boss.log) + Writes(rt, target, window, keymaps[..i])
    {
      var encoded := EncodeKeyMapping(rt, window, keymaps[i]);
      boss.WriteToChild(target, encoded);
      assert keymaps[..i + 1][..i] == keymaps[..i];
      i := i + 1;
    }
    assert keymaps[..i] == keymaps;
  }

  /** Four arguments behave exactly as if "n?vim" had been given as the fifth. */
  lemma HandleDefaultVimId(rt: Runtime, windows: map<WindowId, Window>, args: seq<string>, targetWindowId: WindowId)
    requires |args| == 4
    ensures Handle(rt, windows, args, targetWindowId) == Handle(rt, windows, args + [DefaultVimId], targetWindowId)
  {
    assert (args + [DefaultVimId])[2] == args[2];
    assert (args + [DefaultVimId])[3] == args[3];
  }

  /** `handle_result`. */
  method HandleResult(rt: Runtime, boss: Boss, args: seq<string>, targetWindowId: WindowId) returns (outcome: Outcome)
    modifies boss
    ensures outcome == Handle(rt, boss.windowIdMap, args, targetWindowId).outcome
    ensures boss.log == old(boss.log) + Handle(rt, boss.windowIdMap, args, targetWindowId).actions
  {
    if |args| <= 3 {
      return Raised(IndexError);
    }
    var direction := args[2];
    var keyMapping := args[3];
    var vimId := if |args| > 4 then args[4] else DefaultVimId;
    if targetWindowId !in boss.windowIdMap {
      return Returned;
    }
    var window := boss.windowIdMap[targetWindowId];
    if IsWindowVim(rt, window, vimId) {
      WriteChords(rt, boss, targetWindowId, window, Split(keyMapping, '>'));
    } else {
      boss.NeighboringWindow(direction);
    }
    return Returned;
  }
}
