/**
 * kitty/neighboring_window.py: move focus to a neighbouring window, unless
 * the target window's foreground command is tmux, in which case one chord
 * is sent to tmux instead.
 */
module NeighboringWindow {
  import opened Host
  import opened KeyEncoding

  /**
   * `handle_result`. There is no guard for a missing window: `window.child`
   * on None raises AttributeError, and an empty foreground command line
   * raises IndexError. The first token is compared with "tmux" by exact
   * equality: if equal, the encoding of `args[2]` is written to the child;
   * otherwise focus moves towards `args[1]`.
   */
  function Handle(rt: Runtime, windows: map<WindowId, Window>, args: seq<string>, targetWindowId: WindowId): (r: Run)
    ensures r.outcome == Raised(AttributeError) <==> targetWindowId !in windows
    ensures r.actions != [] ==> targetWindowId in windows && forall a :: a in r.actions ==>
      (a.Write? && a.target == targetWindowId && FirstToken(windows[targetWindowId].foregroundCmdline) == Tmux) ||
      (a.Focus? && |args| > 1 && a.direction == args[1] && FirstToken(windows[targetWindowId].foregroundCmdline) != Tmux)
  {
    if targetWindowId !in windows then Run(Raised(AttributeError), [])
    else
      var window := windows[targetWindowId];
      if |window.foregroundCmdline| == 0 then Run(Raised(IndexError), [])
      else if window.foregroundCmdline[0] == Tmux then
        if |args| <= 2 then Run(Raised(IndexError), [])
        else Run(Returned, [Write(targetWindowId, EncodeKeyMapping(rt, window, args[2]))])
      else if |args| <= 1 then Run(Raised(IndexError), [])
      else Run(Returned, [Focus(args[1])])
  }

  /** A tmux window gets exactly one write, the encoding of `args[2]`, and no focus change. */
  lemma HandleTmux(rt: Runtime, windows: map<WindowId, Window>, args: seq<string>, targetWindowId: WindowId)
    requires targetWindowId in windows && |args| >= 3
    requires |windows[targetWindowId].foregroundCmdline| > 0
    requires windows[targetWindowId].foregroundCmdline[0] == "tmux"
    ensures Handle(rt, windows, args, targetWindowId) ==
      Run(Returned, [Write(targetWindowId, EncodeKeyMapping(rt, windows[targetWindowId], args[2]))])
  {
  }

  /** Any other command (including "tmux-3.4" or "TMUX") gets exactly one focus change towards `args[1]` and no write. */
  lemma HandleOther(rt: Runtime, windows: map<WindowId, Window>, args: seq<string>, targetWindowId: WindowId)
    requires targetWindowId in windows && |args| >= 2
    requires |windows[targetWindowId].foregroundCmdline| > 0
    requires windows[targetWindowId].foregroundCmdline[0] != "tmux"
    ensures Handle(rt, windows, args, targetWindowId) == Run(Returned, [Focus(args[1])])
  {
  }

  /** A missing window or an empty command line raises before any host call. */
  lemma HandleUnguarded(rt: Runtime, windows: map<WindowId, Window>, args: seq<string>, targetWindowId: WindowId)
    ensures targetWindowId !in windows ==> Handle(rt, windows, args, targetWindowId) == Run(Raised(AttributeError), [])
    ensures targetWindowId in windows && windows[targetWindowId].foregroundCmdline == [] ==>
      Handle(rt, windows, args, targetWindowId) == Run(Raised(IndexError), [])
  {
  }

  /** A call that returns makes exactly one host call, a write or a focus change; one that raises makes none. */
  lemma HandleExactlyOne(rt: Runtime, windows: map<WindowId, Window>, args: seq<string>, targetWindowId: WindowId)
    ensures var run := Handle(rt, windows, args, targetWindowId);
      (run.outcome == Returned ==> |run.actions| == 1 && (run.actions[0].Write? || run.actions[0].Focus?)) &&
      (run.outcome.Raised? ==> run.actions == [])
  {
  }

  /**
   * Only the first token of the foreground command line is looked at: the
   * rest of it, and the foreground process list, make no difference.
   */
  lemma HandleReadsFirstTokenOnly(rt: Runtime, windows: map<WindowId, Window>, args: seq<string>, targetWindowId: WindowId,
                                  rest: seq<string>, processes: seq<Process>)
    requires targetWindowId in windows && |windows[targetWindowId].foregroundCmdline| > 0
    ensures var w := windows[targetWindowId];
      Handle(rt, windows[targetWindowId := w.(foregroundCmdline := [w.foregroundCmdline[0]] + rest, foregroundProcesses := processes)],
             args, targetWindowId)
      == Handle(rt, windows, args, targetWindowId)
  {
  }

  /** `handle_result`. */
  method HandleResult(rt: Runtime, boss: Boss, args: seq<string>, targetWindowId: WindowId) returns (outcome: Outcome)
    modifies boss
    ensures outcome == Handle(rt, boss.windowIdMap, args, targetWindowId).outcome
    ensures boss.log == old(boss.log) + Handle(rt, boss.windowIdMap, args, targetWindowId).actions
  {
    if targetWindowId !in boss.windowIdMap {
      return Raised(AttributeError);
    }
    var window := boss.windowIdMap[targetWindowId];
    if |window.foregroundCmdline| == 0 {
      return Raised(IndexError);
    }
    var cmd := window.foregroundCmdline[0];
    if cmd == Tmux {
      if |args| <= 2 {
        return Raised(IndexError);
      }
      var keymap := args[2];
      var encoded := EncodeKeyMapping(rt, window, keymap);
      boss.WriteToChild(targetWindowId, encoded);
    } else {
      if |args| <= 1 {
        return Raised(IndexError);
      }
      boss.NeighboringWindow(args[1]);
    }
    return Returned;
  }
}
