/**
 The combined coordinate space of the local screen and one remote screen, and
 the projection of a point onto a union of monitors
 (crates/tailkvm-win32/src/screen_space.rs). Ratios are exact: the original's
 `f64` quotients are real numbers here.
 */
module ScreenSpace {
  import opened Basics
  import opened Rounding

  datatype Rect = Rect(left: int, top: int, right: int, bottom: int) {
    function Width(): int {
      Max(right - left, 1)
    }

    function Height(): int {
      Max(bottom - top, 1)
    }

    predicate NonDegenerate() {
      left < right && top < bottom
    }

    /** Large enough for an entry point inset by two pixels. */
    predicate Roomy() {
      left + 3 <= right && top + 3 <= bottom
    }

    predicate Contains(x: int, y: int) {
      left <= x < right && top <= y < bottom
    }
  }

  datatype Region = Local | Remote

  datatype Edge = Left | Right | Top | Bottom {
    function Opposite(): Edge {
      match this
      case Left => Right
      case Right => Left
      case Top => Bottom
      case Bottom => Top
    }
  }

  datatype CursorState = CursorState(region: Region, x: int, y: int)

  // ----- the two-screen space -----

  datatype CombinedSpace = CombinedSpace(local: Rect, remote: Rect, edge: Edge, inset: int) {

    predicate Valid() {
      local.Roomy() && remote.Roomy() && inset == 2
    }

    function RectOf(region: Region): Rect {
      if region.Local? then local else remote
    }

    function ClampInto(r: Rect, x: int, y: int): (int, int)
      requires r.NonDegenerate()
    {
      (Clamp(x, r.left, r.right - 1), Clamp(y, r.top, r.bottom - 1))
    }

    function CrossesLocalToRemote(nx: int, ny: int): bool {
      match edge
      case Right => nx >= local.right
      case Left => nx < local.left
      case Top => ny < local.top
      case Bottom => ny >= local.bottom
    }

    function CrossesRemoteToLocal(nx: int, ny: int): bool {
      match edge
      case Right => nx < remote.left
      case Left => nx >= remote.right
      case Top => ny >= remote.bottom
      case Bottom => ny < remote.top
    }

    function EnterRemote(localY: int, localX: int): (int, int) {
      match edge
      case Right =>
        (remote.left + inset, MapRatio(localY, local.top, local.Height(), remote.top, remote.Height()))
      case Left =>
        (remote.right - 1 - inset, MapRatio(localY, local.top, local.Height(), remote.top, remote.Height()))
      case Top =>
        (MapRatio(localX, local.left, local.Width(), remote.left, remote.Width()), remote.bottom - 1 - inset)
      case Bottom =>
        (MapRatio(localX, local.left, local.Width(), remote.left, remote.Width()), remote.top + inset)
    }

    function EnterLocal(remoteY: int, remoteX: int): (int, int) {
      match edge
      case Right =>
        (local.right - 1 - inset, MapRatio(remoteY, remote.top, remote.Height(), local.top, local.Height()))
      case Left =>
        (local.left + inset, MapRatio(remoteY, remote.top, remote.Height(), local.top, local.Height()))
      case Top =>
        (MapRatio(remoteX, remote.left, remote.Width(), local.left, local.Width()), local.top + inset)
      case Bottom =>
        (MapRatio(remoteX, remote.left, remote.Width(), local.left, local.Width()), local.bottom - 1 - inset)
    }

    function EnterRemoteAt(localX: int, localY: int): CursorState {
      var (x, y) := EnterRemote(localY, localX);
      CursorState(Remote, x, y)
    }

    function EnterLocalAt(remoteX: int, remoteY: int): CursorState {
      var (x, y) := EnterLocal(remoteY, remoteX);
      CursorState(Local, x, y)
    }

    /** The new state, and whether the cursor switched screens. */
    function ApplyDelta(state: CursorState, dx: int, dy: int): (CursorState, bool)
      requires local.NonDegenerate() && remote.NonDegenerate()
    {
      var nx, ny := state.x + dx, state.y + dy;
      match state.region
      case Local =>
        if CrossesLocalToRemote(nx, ny) then
          var (rx, ry) := EnterRemote(ny, nx);
          (CursorState(Remote, rx, ry), true)
        else
          var (cx, cy) := ClampInto(local, nx, ny);
          (CursorState(Local, cx, cy), false)
      case Remote =>
        if CrossesRemoteToLocal(nx, ny) then
          var (lx, ly) := EnterLocal(ny, nx);
          (CursorState(Local, lx, ly), true)
        else
          var (cx, cy) := ClampInto(remote, nx, ny);
          (CursorState(Remote, cx, cy), false)
    }

    /** The coordinate along the shared edge, and the size of a rect along it. */
    function Along(x: int, y: int): int {
      if edge.Left? || edge.Right? then y else x
    }

    function LengthAlong(r: Rect): int {
      if edge.Left? || edge.Right? then r.Height() else r.Width()
    }

    function StartAlong(r: Rect): int {
      if edge.Left? || edge.Right? then r.top else r.left
    }

    /** How far a step moves back towards the local screen. */
    function Backwards(dx: int, dy: int): int {
      match edge
      case Right => -dx
      case Left => dx
      case Top => dy
      case Bottom => -dy
    }
  }

  function NewCombinedSpace(local: Rect, remote: Rect, edge: Edge): CombinedSpace {
    CombinedSpace(local, remote, edge, 2)
  }

  /** Wherever it goes, the cursor ends up on a pixel of the screen it is in. */
  lemma ApplyDeltaStaysInside(sp: CombinedSpace, st: CursorState, dx: int, dy: int)
    requires sp.Valid()
    ensures var (next, switched) := sp.ApplyDelta(st, dx, dy);
            && sp.RectOf(next.region).Contains(next.x, next.y)
            && (switched <==> next.region != st.region)
  {
    var nx, ny := st.x + dx, st.y + dy;
    EntryInside(sp, nx, ny);
  }

  /** How many pixels a position is inside this edge of the rect; negative beyond it. */
  function Depth(r: Rect, e: Edge, x: int, y: int): int {
    match e
    case Right => r.right - 1 - x
    case Left => x - r.left
    case Top => y - r.top
    case Bottom => r.bottom - 1 - y
  }

  /** No pixel of the rect is nearer to the target. */
  ghost predicate NearestPixel(r: Rect, p: Point, target: Point) {
    r.Contains(p.0, p.1) && forall q: Point | r.Contains(q.0, q.1) :: SquaredDistance(target, p) <= SquaredDistance(target, q)
  }

  lemma ClampIsNearestPixel(r: Rect, x: int, y: int)
    requires r.NonDegenerate()
    ensures NearestPixel(r, ClampToRect(x, y, r), (x, y))
    ensures r.Contains(x, y) ==> ClampToRect(x, y, r) == (x, y)
  {
    forall q: Point | r.Contains(q.0, q.1) ensures SquaredDistance((x, y), ClampToRect(x, y, r)) <= SquaredDistance((x, y), q) {
      ClampToRectIsNearest(x, y, r, q);
    }
  }

  /**
   Where a step goes. It leaves the screen exactly if its target is beyond the
   shared edge; it then arrives inset from the opposite edge of the other screen,
   at the mapped coordinate along it. Otherwise it ends on the pixel of its screen
   nearest to the target, which is the target itself if that is on the screen.
   */
  lemma StepGoes(sp: CombinedSpace, st: CursorState, dx: int, dy: int)
    requires sp.Valid()
    ensures var (next, switched) := sp.ApplyDelta(st, dx, dy);
            var x, y := st.x + dx, st.y + dy;
            var exit := if st.region.Local? then sp.edge else sp.edge.Opposite();
            var from, to := if st.region.Local? then sp.local else sp.remote, if st.region.Local? then sp.remote else sp.local;
            && (switched <==> Depth(from, exit, x, y) < 0)
            && (switched ==>
                  && next.region != st.region && Depth(to, exit.Opposite(), next.x, next.y) == sp.inset
                  && sp.Along(next.x, next.y)
                     == MapRatio(sp.Along(x, y), sp.StartAlong(from), sp.LengthAlong(from), sp.StartAlong(to), sp.LengthAlong(to)))
            && (!switched ==> next.region == st.region && NearestPixel(from, (next.x, next.y), (x, y)))
            && (from.Contains(x, y) ==> !switched && next == CursorState(st.region, x, y))
  {
    ClampIsNearestPixel(sp.RectOf(st.region), st.x + dx, st.y + dy);
  }

  lemma {:induction false} EntryInside(sp: CombinedSpace, x: int, y: int)
    requires sp.Valid()
    ensures var r := sp.EnterRemoteAt(x, y); r.region == Remote && sp.remote.Contains(r.x, r.y)
    ensures var l := sp.EnterLocalAt(x, y); l.region == Local && sp.local.Contains(l.x, l.y)
  {
    MapRatioInRange(sp.Along(x, y), sp.StartAlong(sp.local), sp.LengthAlong(sp.local),
                    sp.StartAlong(sp.remote), sp.LengthAlong(sp.remote));
    MapRatioInRange(sp.Along(x, y), sp.StartAlong(sp.remote), sp.LengthAlong(sp.remote),
                    sp.StartAlong(sp.local), sp.LengthAlong(sp.local));
  }

  /**
   The inset is a hysteresis: right after entering either screen a step returns
   to the other one exactly if it moves back by more than the inset.
   */
  lemma RecrossExactly(sp: CombinedSpace, x: int, y: int, dx: int, dy: int)
    requires sp.Valid()
    ensures var entered := sp.EnterRemoteAt(x, y);
            sp.ApplyDelta(entered, dx, dy).1 <==> sp.inset < sp.Backwards(dx, dy)
    ensures var returned := sp.EnterLocalAt(x, y);
            sp.ApplyDelta(returned, dx, dy).1 <==> sp.inset < -sp.Backwards(dx, dy)
  {
  }

  /**
   Crossing to the remote screen and back moves the coordinate along the edge
   by a bounded number of pixels: with H local and h remote pixels along it,
   2h(y - y2) < 3h + 3(H - 1) and 2h(y2 - y) <= h + H - 1.
   */
  lemma {:induction false} CrossingRoundTrip(sp: CombinedSpace, x: int, y: int, rx: int, ry: int)
    requires sp.Valid() && sp.local.Contains(x, y)
    requires var there := sp.EnterRemoteAt(x, y); sp.Along(rx, ry) == sp.Along(there.x, there.y)
    ensures var H, h := sp.LengthAlong(sp.local), sp.LengthAlong(sp.remote);
            var back := sp.EnterLocalAt(rx, ry);
            var p, p2 := sp.Along(x, y), sp.Along(back.x, back.y);
            && 2 * h * (p - p2) < 3 * h + 3 * (H - 1)
            && 2 * h * (p2 - p) <= h + H - 1
  {
    var H, h := sp.LengthAlong(sp.local), sp.LengthAlong(sp.remote);
    var L, R := sp.StartAlong(sp.local), sp.StartAlong(sp.remote);
    var u := sp.Along(x, y) - L;
    MapRatioExact(L + u, L, H, R, h);
    var q := RoundDiv(u * (h - 1), H);
    RoundTripOffset(u, H, h);
    MapRatioExact(R + q, R, h, L, H);
  }

  // ----- projection onto a union of monitors -----

  type Point = (int, int)

  function SquaredDistance(p: Point, q: Point): int {
    (p.0 - q.0) * (p.0 - q.0) + (p.1 - q.1) * (p.1 - q.1)
  }

  predicate OnSome(p: Point, rects: seq<Rect>) {
    exists r :: r in rects && r.Contains(p.0, p.1)
  }

  predicate SomeNonDegenerate(rects: seq<Rect>) {
    exists r :: r in rects && r.NonDegenerate()
  }

  /** The pixel of a rect nearest to (x, y), axis by axis. */
  function ClampToRect(x: int, y: int, r: Rect): Point
    requires r.NonDegenerate()
  {
    (Clamp(x, r.left, r.right - 1), Clamp(y, r.top, r.bottom - 1))
  }

  /** The first nearest candidate among the nondegenerate rects. */
  function Nearest(x: int, y: int, rects: seq<Rect>): Option<Point> {
    if rects == [] then None
    else
      var before := Nearest(x, y, rects[..|rects| - 1]);
      var r := rects[|rects| - 1];
      if !r.NonDegenerate() then before
      else
        var p := ClampToRect(x, y, r);
        if before.None? || SquaredDistance((x, y), p) < SquaredDistance((x, y), before.value)
        then Some(p) else before
  }

  function ClampPoint(x: int, y: int, rects: seq<Rect>): Point {
    var best := Nearest(x, y, rects);
    if best.Some? then best.value else (x, y)
  }

  lemma SquareMonotone(a: int, b: int)
    requires 0 <= a <= b || b <= a <= 0
    ensures a * a <= b * b
  {
    if 0 <= a <= b {
      MulMonotone(a, b, a);
      MulMonotone(a, b, b);
    } else {
      MulMonotone(-a, -b, -a);
      MulMonotone(-a, -b, -b);
      assert (-a) * (-a) == a * a && (-b) * (-b) == b * b;
    }
  }

  /** Clamping per axis is the Euclidean projection onto one rect. */
  lemma ClampToRectIsNearest(x: int, y: int, r: Rect, p: Point)
    requires r.NonDegenerate() && r.Contains(p.0, p.1)
    ensures SquaredDistance((x, y), ClampToRect(x, y, r)) <= SquaredDistance((x, y), p)
  {
    var c := ClampToRect(x, y, r);
    SquareMonotone(x - c.0, x - p.0);
    SquareMonotone(y - c.1, y - p.1);
  }

  lemma {:induction false} NearestProjects(x: int, y: int, rects: seq<Rect>)
    ensures Nearest(x, y, rects).Some? <==> SomeNonDegenerate(rects)
    ensures Nearest(x, y, rects).Some? ==> OnSome(Nearest(x, y, rects).value, rects)
    ensures forall r, p: Point | r in rects && r.NonDegenerate() && r.Contains(p.0, p.1) ::
              Nearest(x, y, rects).Some?
              && SquaredDistance((x, y), Nearest(x, y, rects).value) <= SquaredDistance((x, y), p)
  {
    if rects != [] {
      var front, last := rects[..|rects| - 1], rects[|rects| - 1];
      assert rects == front + [last];
      NearestProjects(x, y, front);
      var best := Nearest(x, y, rects);
      if last.NonDegenerate() {
        var c := ClampToRect(x, y, last);
        assert last in rects && last.Contains(c.0, c.1);
        assert best.Some?;
        forall r, p: Point | r in rects && r.NonDegenerate() && r.Contains(p.0, p.1)
          ensures SquaredDistance((x, y), best.value) <= SquaredDistance((x, y), p)
        {
          if r == last {
            ClampToRectIsNearest(x, y, last, p);
          } else {
            assert r in front;
          }
        }
      }
    }
  }

  function DistanceTo(p: Point, r: Rect): int
    requires r.NonDegenerate()
  {
    SquaredDistance(p, ClampToRect(p.0, p.1, r))
  }

  /** Rect i is the nearest to p, the first of equals. */
  predicate IsNearestRect(p: Point, rects: seq<Rect>, i: nat) {
    && i < |rects| && rects[i].NonDegenerate()
    && forall j | 0 <= j < |rects| && rects[j].NonDegenerate() ::
         if j < i then DistanceTo(p, rects[i]) < DistanceTo(p, rects[j]) else DistanceTo(p, rects[i]) <= DistanceTo(p, rects[j])
  }

  /** Of several equally near rects the first counts. */
  lemma {:induction false} NearestIsFirst(x: int, y: int, rects: seq<Rect>) returns (i: nat)
    requires SomeNonDegenerate(rects)
    ensures IsNearestRect((x, y), rects, i) && Nearest(x, y, rects) == Some(ClampToRect(x, y, rects[i]))
  {
    var n, front := |rects| - 1, rects[..|rects| - 1];
    NearestProjects(x, y, front);
    if SomeNonDegenerate(front) {
      i := NearestIsFirst(x, y, front);
      assert forall j | 0 <= j < n :: front[j] == rects[j];
      if rects[n].NonDegenerate() && DistanceTo((x, y), rects[n]) < DistanceTo((x, y), rects[i]) {
        i := n;
      }
    } else {
      assert forall j | 0 <= j < n :: front[j] == rects[j] && front[j] in front;
      i := n;
    }
  }

  lemma SquaredDistanceZero(p: Point, q: Point)
    ensures 0 <= SquaredDistance(p, q)
    ensures SquaredDistance(p, q) == 0 <==> p == q
  {
    var a, b := p.0 - q.0, p.1 - q.1;
    assert 0 <= a * a && 0 <= b * b;
    if a != 0 { assert a * a > 0; }
    if b != 0 { assert b * b > 0; }
  }

  /**
   The result is the nearest point of the union of the nondegenerate rects, or
   the input if there is none. It is idempotent, leaves points of the union
   alone, and stays in every box that holds all the rects.
   */
  lemma ClampPointIsProjection(x: int, y: int, rects: seq<Rect>)
    ensures var p := ClampPoint(x, y, rects);
            && (SomeNonDegenerate(rects) ==> OnSome(p, rects))
            && (!SomeNonDegenerate(rects) ==> p == (x, y))
            && (forall r, q: Point | r in rects && r.Contains(q.0, q.1) ::
                  SquaredDistance((x, y), p) <= SquaredDistance((x, y), q))
            && (OnSome((x, y), rects) ==> p == (x, y))
            && ClampPoint(p.0, p.1, rects) == p
            && (forall box: Rect | SomeNonDegenerate(rects) && (forall r :: r in rects && r.NonDegenerate() ==> Within(r, box)) ::
                  box.Contains(p.0, p.1))
  {
    var p := ClampPoint(x, y, rects);
    NearestProjects(x, y, rects);
    InsideIsFixed(x, y, rects);
    InsideIsFixed(p.0, p.1, rects);
    NearestProjects(p.0, p.1, rects);
    forall box: Rect | SomeNonDegenerate(rects) && (forall r :: r in rects && r.NonDegenerate() ==> Within(r, box))
      ensures box.Contains(p.0, p.1)
    {
      var r :| r in rects && r.Contains(p.0, p.1);
      assert r.NonDegenerate() && Within(r, box);
    }
  }

  predicate Within(r: Rect, box: Rect) {
    box.left <= r.left && r.right <= box.right && box.top <= r.top && r.bottom <= box.bottom
  }

  /** Point p is q put on these monitors: the nearest point of any, and q itself if it is on one or none is known. */
  ghost predicate OnMonitors(q: Point, p: Point, monitors: seq<Rect>) {
    && (if SomeNonDegenerate(monitors) then OnSome(p, monitors) else p == q)
    && (OnSome(q, monitors) ==> p == q)
    && forall z: Point | OnSome(z, monitors) :: SquaredDistance(q, p) <= SquaredDistance(q, z)
  }

  lemma ClampsOntoMonitors(x: int, y: int, monitors: seq<Rect>)
    ensures OnMonitors((x, y), ClampPoint(x, y, monitors), monitors)
  {
    ClampPointIsProjection(x, y, monitors);
  }

  lemma InsideIsFixed(x: int, y: int, rects: seq<Rect>)
    ensures OnSome((x, y), rects) ==> ClampPoint(x, y, rects) == (x, y)
  {
    if OnSome((x, y), rects) {
      var r :| r in rects && r.Contains(x, y);
      NearestProjects(x, y, rects);
      assert r.NonDegenerate();
      SquaredDistanceZero((x, y), (x, y));
      SquaredDistanceZero((x, y), Nearest(x, y, rects).value);
    }
  }

  /** The loop of the original, with its early return on distance zero. */
  method ClampToRects(x: int, y: int, rects: seq<Rect>) returns (p: Point)
    ensures p == ClampPoint(x, y, rects)
  {
    var best: Option<(int, Point)> := None;
    for i := 0 to |rects|
      invariant best.None? <==> Nearest(x, y, rects[..i]).None?
      invariant best.Some? ==> Nearest(x, y, rects[..i]) == Some(best.value.1)
                               && best.value.0 == SquaredDistance((x, y), best.value.1)
    {
      assert rects[..i + 1][..i] == rects[..i];
      var r := rects[i];
      if r.right <= r.left || r.bottom <= r.top {
        continue;
      }
      var cx, cy := Clamp(x, r.left, r.right - 1), Clamp(y, r.top, r.bottom - 1);
      var dx, dy := x - cx, y - cy;
      var dist := dx * dx + dy * dy;
      if dist == 0 {
        SquaredDistanceZero((x, y), (cx, cy));
        assert r in rects && r.Contains(x, y);
        InsideIsFixed(x, y, rects);
        return (x, y);
      }
      if best.None? || dist < best.value.0 {
        best := Some((dist, (cx, cy)));
      }
    }
    assert rects[..|rects|] == rects;
    p := if best.Some? then best.value.1 else (x, y);
  }
}
