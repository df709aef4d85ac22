/**
 * kitty/split_window.py: split the target window towards a direction, unless
 * its foreground command is tmux, in which case a chord is meant for tmux.
 * kitty always places the new window after the current one, so for up and
 * left the new window is moved back across the split.
 */
module SplitWindow {
  import opened Host
  import opened KeyEncoding
  import NeighboringWindow

  /** The `--location` argument of the launch: a horizontal split for up/down, vertical otherwise. */
  function Location(direction: string): (r: string)
    ensures r == "--location=hsplit" || r == "--location=vsplit"
    ensures r == "--location=hsplit" <==> direction == "up" || direction == "down"
  {
    if direction == "up" || direction == "down" then "--location=hsplit" else "--location=vsplit"
  }

  /** The host calls of `split_window(boss, direction)`, in order. */
  function SplitActions(direction: string): (actions: seq<Action>)
    ensures |actions| >= 1 && actions[0] == Launch(["--cwd=current", Location(direction)])
    ensures |actions| == (if direction == "up" || direction == "left" then 2 else 1)
    ensures |actions| == 2 ==> actions[1] == Move(direction)
  {
    [Launch(["--cwd=current", Location(direction)])]
      + (if direction == "up" || direction == "left" then [Move(direction)] else [])
  }

  /**
   * Each direction literal: one launch in the current working directory,
   * split along the right axis, and a move back for up and left only.
   */
  lemma SplitActionsByDirection()
    ensures SplitActions("up") == [Launch(["--cwd=current", "--location=hsplit"]), Move("up")]
    ensures SplitActions("down") == [Launch(["--cwd=current", "--location=hsplit"])]
    ensures SplitActions("left") == [Launch(["--cwd=current", "--location=vsplit"]), Move("left")]
    ensures SplitActions("right") == [Launch(["--cwd=current", "--location=vsplit"])]
  {
  }

  /** Any other direction string splits vertically and moves nothing. */
  lemma SplitActionsOtherDirection(direction: string)
    requires direction != "up" && direction != "down" && direction != "left" && direction != "right"
    ensures SplitActions(direction) == [Launch(["--cwd=current", "--location=vsplit"])]
  {
  }

  /**
   * `handle_result` as written. A missing window does nothing;
   * `args[1]` and the first foreground token are read next (IndexError
   * when absent). On tmux, `args[2]` is read and then `encode_key_mapping`,
   * which this file neither defines nor imports, raises NameError before
   * anything is written. Otherwise the window is split towards `args[1]`.
   */
  function HandleAsWritten(rt: Runtime, windows: map<WindowId, Window>, args: seq<string>, targetWindowId: WindowId): (r: Run)
    ensures forall a :: a in r.actions ==> !a.Write?
    ensures r.outcome.Raised? ==> r.actions == []
    ensures targetWindowId !in windows ==> r == Run(Returned, [])
  {
    if targetWindowId !in windows then Run(Returned, [])
    else if |args| <= 1 then Run(Raised(IndexError), [])
    else
      var window := windows[targetWindowId];
      if |window.foregroundCmdline| == 0 then Run(Raised(IndexError), [])
      else if window.foregroundCmdline[0] == Tmux then
        if |args| <= 2 then Run(Raised(IndexError), []) else Run(Raised(NameError), [])
      else Run(Returned, SplitActions(args[1]))
  }

  /** As written, the tmux branch never reaches `write_to_child`: it raises NameError and does nothing. */
  lemma AsWrittenTmuxRaises(rt: Runtime, windows: map<WindowId, Window>, args: seq<string>, targetWindowId: WindowId)
    requires targetWindowId in windows && |args| >= 3
    requires |windows[targetWindowId].foregroundCmdline| > 0
    requires windows[targetWindowId].foregroundCmdline[0] == "tmux"
    ensures HandleAsWritten(rt, windows, args, targetWindowId) == Run(Raised(NameError), [])
  {
  }

  /**
   * `handle_result` as evidently intended: the tmux branch writes the
   * encoding of `args[2]` to the child, as kitty/neighboring_window.py does.
   */
  function Handle(rt: Runtime, windows: map<WindowId, Window>, args: seq<string>, targetWindowId: WindowId): (r: Run)
    ensures r.outcome.Raised? ==> r.outcome.error == IndexError && r.actions == []
    ensures r.actions != [] ==> targetWindowId in windows && forall a :: a in r.actions ==>
      (a.Write? && a.target == targetWindowId && FirstToken(windows[targetWindowId].foregroundCmdline) == Tmux && |r.actions| == 1) ||
      ((a.Launch? || a.Move?) && FirstToken(windows[targetWindowId].foregroundCmdline) != Tmux)
  {
    if targetWindowId !in windows then Run(Returned, [])
    else if |args| <= 1 then Run(Raised(IndexError), [])
    else
      var window := windows[targetWindowId];
      if |window.foregroundCmdline| == 0 then Run(Raised(IndexError), [])
      else if window.foregroundCmdline[0] == Tmux then
        if |args| <= 2 then Run(Raised(IndexError), [])
        else Run(Returned, [Write(targetWindowId, EncodeKeyMapping(rt, window, args[2]))])
      else Run(Returned, SplitActions(args[1]))
  }

  /**
   * Intended tmux branch: one write, the encoding of `args[2]`, no launch
   * and no move; the same single write neighboring_window makes for the
   * same request.
   */
  lemma HandleTmux(rt: Runtime, windows: map<WindowId, Window>, args: seq<string>, targetWindowId: WindowId)
    requires targetWindowId in windows && |args| >= 3
    requires |windows[targetWindowId].foregroundCmdline| > 0
    requires windows[targetWindowId].foregroundCmdline[0] == "tmux"
    ensures Handle(rt, windows, args, targetWindowId) ==
      Run(Returned, [Write(targetWindowId, EncodeKeyMapping(rt, windows[targetWindowId], args[2]))])
    ensures Handle(rt, windows, args, targetWindowId) == NeighboringWindow.Handle(rt, windows, args, targetWindowId)
  {
  }

  /** The correction changes the tmux branch only; everywhere else the two agree. */
  lemma HandleAgreesOutsideTmux(rt: Runtime, windows: map<WindowId, Window>, args: seq<string>, targetWindowId: WindowId)
    requires HandleAsWritten(rt, windows, args, targetWindowId).outcome != Raised(NameError)
    ensures Handle(rt, windows, args, targetWindowId) == HandleAsWritten(rt, windows, args, targetWindowId)
  {
  }

  /** A missing window: no action at all. */
  lemma HandleMissingWindow(rt: Runtime, windows: map<WindowId, Window>, args: seq<string>, targetWindowId: WindowId)
    requires targetWindowId !in windows
    ensures Handle(rt, windows, args, targetWindowId) == Run(Returned, [])
  {
  }

  /** Any other command: the split towards `args[1]`, and no write. */
  lemma HandleOther(rt: Runtime, windows: map<WindowId, Window>, args: seq<string>, targetWindowId: WindowId)
    requires targetWindowId in windows && |args| >= 2
    requires |windows[targetWindowId].foregroundCmdline| > 0
    requires windows[targetWindowId].foregroundCmdline[0] != "tmux"
    ensures Handle(rt, windows, args, targetWindowId) == Run(Returned, SplitActions(args[1]))
    ensures forall a :: a in Handle(rt, windows, args, targetWindowId).actions ==> !a.Write?
  {
  }

  /** `split_window`. */
  method Split(boss: Boss, direction: string)
    modifies boss
    ensures boss.log == old(boss.log) + SplitActions(direction)
  {
    if direction == "up" || direction == "down" {
      boss.Launch(["--cwd=current", "--location=hsplit"]);
    } else {
      boss.Launch(["--cwd=current", "--location=vsplit"]);
    }
    if direction == "up" || direction == "left" {
      boss.MoveWindow(direction);
    }
  }

  /** `handle_result`, with the tmux branch as intended. */
  method HandleResult(rt: Runtime, boss: Boss, args: seq<string>, targetWindowId: WindowId) returns (outcome: Outcome)
    modifies boss
    ensures outcome == Handle(rt, boss.windowIdMap, args, targetWindowId).outcome
    ensures boss.log == old(boss.log) + Handle(rt, boss.windowIdMap, args, targetWindowId).actions
  {
    if targetWindowId !in boss.windowIdMap {
      return Returned;
    }
    var window := boss.windowIdMap[targetWindowId];
    if |args| <= 1 {
      return Raised(IndexError);
    }
    var direction := args[1];
    if |window.foregroundCmdline| == 0 {
      return Raised(IndexError);
    }
    var cmd := window.foregroundCmdline[0];
    if cmd == Tmux {
      if |args| <= 2 {
        return Raised(IndexError);
      }
      var keymap := args[2];
      var encoded := EncodeKeyMapping(rt, window, keymap);
      boss.WriteToChild(targetWindowId, encoded);
    } else {
      Split(boss, direction);
    }
    return Returned;
  }
}
