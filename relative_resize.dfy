/**
 * kitty/relative_resize.py: resize the active window "towards" a direction.
 * kitty's resize primitives grow or shrink a window's own edge, so the
 * kitten picks the primitive from which neighbours the target window has
 * on the axis of the requested direction.
 */
module RelativeResize {
  import opened Host

  /** The four direction literals the kitten compares against. */
  datatype Direction = Left | Right | Up | Down
  {
    function Name(): string {
      match this
      case Left => "left"
      case Right => "right"
      case Up => "up"
      case Down => "down"
    }
  }

  predicate IsDirectionName(direction: string) {
    direction == "left" || direction == "right" || direction == "up" || direction == "down"
  }

  /** Primitives acting on width serve left/right; those acting on height serve up/down. */
  predicate OnAxis(p: Primitive, direction: string) {
    if direction == "left" || direction == "right" then p == Wider || p == Narrower
    else p == Taller || p == Shorter
  }

  /**
   * The if/elif chain of `relative_resize_window`: the primitive to pass to
   * `resize_window`, or `None` when no branch fires. A primitive is chosen
   * only for one of the four literals, only when some neighbour exists on
   * that direction's axis, and it always acts on that axis.
   */
  function Resolve(direction: string, n: Neighbors): (r: Option<Primitive>)
    ensures r.Some? <==>
      ((direction == "left" || direction == "right") && (n.left || n.right)) ||
      ((direction == "up" || direction == "down") && (n.top || n.bottom))
    ensures r.Some? ==> OnAxis(r.value, direction)
  {
    if direction == "left" && (n.left && n.right) then Some(Narrower)
    else if direction == "left" && n.left then Some(Wider)
    else if direction == "left" && n.right then Some(Narrower)
    else if direction == "right" && (n.left && n.right) then Some(Wider)
    else if direction == "right" && n.left then Some(Narrower)
    else if direction == "right" && n.right then Some(Wider)
    else if direction == "up" && (n.top && n.bottom) then Some(Shorter)
    else if direction == "up" && n.top then Some(Taller)
    else if direction == "up" && n.bottom then Some(Shorter)
    else if direction == "down" && (n.top && n.bottom) then Some(Taller)
    else if direction == "down" && n.top then Some(Shorter)
    else if direction == "down" && n.bottom then Some(Taller)
    else None
  }

  /**
   * A geometric reading of the chain, as a reference. Read this way, the
   * chain behaves as if the window's right (bottom) edge moves when there
   * is a neighbour beyond it, and otherwise its left (top) edge, in the
   * requested direction: the window grows when that edge moves away from
   * it (the right/bottom edge moving right/down, the left/top edge moving
   * left/up) and shrinks otherwise. With no neighbour on the axis there is
   * no edge to move.
   */
  function Table(d: Direction, n: Neighbors): Option<Primitive> {
    var horizontal := d == Left || d == Right;
    var lowNeighbor := if horizontal then n.left else n.top;
    var highNeighbor := if horizontal then n.right else n.bottom;
    var towardsHigh := d == Right || d == Down;
    if !lowNeighbor && !highNeighbor then None
    else
      var grows := highNeighbor == towardsHigh;
      Some(if horizontal then (if grows then Wider else Narrower)
           else (if grows then Taller else Shorter))
  }

  /** The chain computes the geometric table for each of the four directions. */
  lemma ResolveIsTable(d: Direction, n: Neighbors)
    ensures Resolve(d.Name(), n) == Table(d, n)
  {
  }

  /** Any other direction string resizes nothing. */
  lemma ResolveOtherDirection(direction: string, n: Neighbors)
    requires !IsDirectionName(direction)
    ensures Resolve(direction, n) == None
  {
  }

  /** Left: a right neighbour gives narrower, otherwise a left neighbour gives wider. */
  lemma ResolveLeft(n: Neighbors)
    ensures Resolve("left", n) ==
      if n.right then Some(Narrower) else if n.left then Some(Wider) else None
  {
  }

  /** Right: a right neighbour gives wider, otherwise a left neighbour gives narrower. */
  lemma ResolveRight(n: Neighbors)
    ensures Resolve("right", n) ==
      if n.right then Some(Wider) else if n.left then Some(Narrower) else None
  {
  }

  /** Up: a bottom neighbour gives shorter, otherwise a top neighbour gives taller. */
  lemma ResolveUp(n: Neighbors)
    ensures Resolve("up", n) ==
      if n.bottom then Some(Shorter) else if n.top then Some(Taller) else None
  {
  }

  /** Down: a bottom neighbour gives taller, otherwise a top neighbour gives shorter. */
  lemma ResolveDown(n: Neighbors)
    ensures Resolve("down", n) ==
      if n.bottom then Some(Taller) else if n.top then Some(Shorter) else None
  {
  }

  /** Right undoes left and down undoes up: the opposite direction picks the opposite primitive. */
  lemma ResolveSymmetric(n: Neighbors)
    ensures Resolve("left", n).Some? <==> Resolve("right", n).Some?
    ensures Resolve("left", n).Some? ==> Resolve("right", n).value == Resolve("left", n).value.Opposite()
    ensures Resolve("up", n).Some? <==> Resolve("down", n).Some?
    ensures Resolve("up", n).Some? ==> Resolve("down", n).value == Resolve("up", n).value.Opposite()
  {
  }

  /** Neighbours on the other axis never influence the choice. */
  lemma ResolveIgnoresOtherAxis(direction: string, n: Neighbors, m: Neighbors)
    requires (direction == "left" || direction == "right") ==> n.left == m.left && n.right == m.right
    requires (direction == "up" || direction == "down") ==> n.top == m.top && n.bottom == m.bottom
    ensures Resolve(direction, n) == Resolve(direction, m)
  {
  }

  /**
   * `relative_resize_window` with the target window looked up: the host
   * operations it makes. At most one resize, with `amount` unchanged, and
   * none when the window is missing.
   */
  function ResizeActions(windows: map<WindowId, Window>, direction: string, amount: int, targetWindowId: WindowId): (actions: seq<Action>)
    ensures |actions| <= 1
    ensures targetWindowId !in windows ==> actions == []
    ensures forall i :: 0 <= i < |actions| ==> actions[i].Resize? && actions[i].amount == amount
  {
    if targetWindowId !in windows then []
    else match Resolve(direction, windows[targetWindowId].neighbors)
      case None => []
      case Some(p) => [Resize(p, amount)]
  }

  /**
   * `handle_result`: direction is `args[1]`, amount is `int(args[2])`.
   * Missing arguments raise IndexError, a non-integer amount ValueError,
   * both before anything is resized.
   */
  function Handle(rt: Runtime, windows: map<WindowId, Window>, args: seq<string>, targetWindowId: WindowId): (r: Run)
    ensures r.outcome == Raised(IndexError) <==> |args| <= 2
    ensures r.outcome == Raised(ValueError) <==> |args| > 2 && rt.parseInt(args[2]).None?
    ensures r.outcome == Returned ==>
      |args| > 2 && rt.parseInt(args[2]).Some? &&
      forall a :: a in r.actions ==> a.Resize? && a.amount == rt.parseInt(args[2]).value
  {
    if |args| <= 2 then Run(Raised(IndexError), [])
    else match rt.parseInt(args[2])
      case None => Run(Raised(ValueError), [])
      case Some(amount) => Run(Returned, ResizeActions(windows, args[1], amount, targetWindowId))
  }

  /** A well-formed request resizes exactly as `Resolve` says, with the parsed amount. */
  lemma HandleResolves(rt: Runtime, windows: map<WindowId, Window>, args: seq<string>, targetWindowId: WindowId)
    requires |args| >= 3 && rt.parseInt(args[2]).Some?
    requires targetWindowId in windows
    ensures Handle(rt, windows, args, targetWindowId).outcome == Returned
    ensures Handle(rt, windows, args, targetWindowId).actions ==
      match Resolve(args[1], windows[targetWindowId].neighbors)
      case None => []
      case Some(p) => [Resize(p, rt.parseInt(args[2]).value)]
  {
  }

  /** A failed request makes no host call. */
  lemma HandleFailsCleanly(rt: Runtime, windows: map<WindowId, Window>, args: seq<string>, targetWindowId: WindowId)
    ensures Handle(rt, windows, args, targetWindowId).outcome.Raised? ==> Handle(rt, windows, args, targetWindowId).actions == []
    ensures Handle(rt, windows, args, targetWindowId).outcome.Raised? <==> |args| <= 2 || rt.parseInt(args[2]).None?
  {
  }

  /** Resize left by 3 with neighbours on both sides: exactly one narrower by 3. */
  lemma ResizeLeftBetweenNeighbors(w: Window)
    requires w.neighbors.left && w.neighbors.right
    ensures ResizeActions(map[1 := w], "left", 3, 1) == [Resize(Narrower, 3)]
    ensures ResizeActions(map[1 := w], "left", 3, 1)[0].primitive.Name() == "narrower"
  {
  }

  /** Resize up with no top or bottom neighbour: no resize. */
  lemma ResizeUpAlone(w: Window)
    requires !w.neighbors.top && !w.neighbors.bottom
    ensures ResizeActions(map[1 := w], "up", 3, 1) == []
  {
  }

  /** `relative_resize_window`. */
  method RelativeResizeWindow(boss: Boss, direction: string, amount: int, targetWindowId: WindowId)
    modifies boss
    ensures boss.log == old(boss.log) + ResizeActions(boss.windowIdMap, direction, amount, targetWindowId)
  {
    if targetWindowId !in boss.windowIdMap {
      return;
    }
    var window := boss.windowIdMap[targetWindowId];
    var primitive := Resolve(direction, window.neighbors);
    if primitive.Some? {
      boss.ResizeWindow(primitive.value, amount);
    }
  }

  /** `handle_result`. */
  method HandleResult(rt: Runtime, boss: Boss, args: seq<string>, targetWindowId: WindowId) returns (outcome: Outcome)
    modifies boss
    ensures outcome == Handle(rt, boss.windowIdMap, args, targetWindowId).outcome
    ensures boss.log == old(boss.log) + Handle(rt, boss.windowIdMap, args, targetWindowId).actions
  {
    if |args| <= 2 {
      return Raised(IndexError);
    }
    var direction := args[1];
    var amount := rt.parseInt(args[2]);
    if amount.None? {
      return Raised(ValueError);
    }
    RelativeResizeWindow(boss, direction, amount.value, targetWindowId);
    return Returned;
  }
}
