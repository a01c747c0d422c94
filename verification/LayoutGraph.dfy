/**
 The adjacency graph of named screens and the N-screen space built on it
 (crates/tailkvm-win32/src/layout_graph.rs), and the chain of links drawn by the
 layout editor (apps/tailkvm-ui/src/features/layout-editor.ts).
 */
module LayoutGraph {
  import opened Basics
  import opened Rounding
  import opened ScreenSpace

  type Slot = (string, Edge)
  type Links = map<Slot, string>

  datatype Link = Link(from: string, edge: Edge, to: string)

  /** What one call of `link` leaves in the table. */
  function Linked(links: Links, a: string, edge: Edge, b: string): Links {
    links[(a, edge) := b][(b, edge.Opposite()) := a]
  }

  function LinkAll(links: Links, ls: seq<Link>): Links {
    if ls == [] then links
    else
      var front, last := ls[..|ls| - 1], ls[|ls| - 1];
      Linked(LinkAll(links, front), last.from, last.edge, last.to)
  }

  function Neighbor(links: Links, screen: string, edge: Edge): Option<string> {
    if (screen, edge) in links then Some(links[(screen, edge)]) else None
  }

  class Graph {
    var links: Links

    constructor ()
      ensures links == map[]
    {
      links := map[];
    }

    /** Re-linking overwrites the previous neighbour. */
    method Link(a: string, edge: Edge, b: string)
      modifies this
      ensures links == Linked(old(links), a, edge, b)
    {
      links := links[(a, edge) := b];
      links := links[(b, edge.Opposite()) := a];
    }
  }

  method BuildGraph(ls: seq<Link>) returns (g: Graph)
    ensures fresh(g) && g.links == LinkAll(map[], ls)
  {
    g := new Graph();
    for i := 0 to |ls|
      invariant fresh(g) && g.links == LinkAll(map[], ls[..i])
    {
      g.Link(ls[i].from, ls[i].edge, ls[i].to);
      assert ls[..i + 1][..i] == ls[..i];
    }
    assert ls[..|ls|] == ls;
  }

  // ----- the last link wins -----

  /** What a link writes into a slot. */
  function Writes(l: Link, s: string, e: Edge): Option<string> {
    if s == l.to && e == l.edge.Opposite() then Some(l.from)
    else if s == l.from && e == l.edge then Some(l.to)
    else None
  }

  predicate LastWrite(ls: seq<Link>, s: string, e: Edge, i: int) {
    && 0 <= i < |ls| && Writes(ls[i], s, e).Some?
    && forall j | i < j < |ls| :: Writes(ls[j], s, e).None?
  }

  /** A slot holds what the last link that writes it put there. */
  lemma {:induction false} SlotIsLastWrite(ls: seq<Link>, s: string, e: Edge)
    ensures Neighbor(LinkAll(map[], ls), s, e).Some? ==> exists i :: LastWrite(ls, s, e, i)
    ensures forall i :: LastWrite(ls, s, e, i) ==> Neighbor(LinkAll(map[], ls), s, e) == Writes(ls[i], s, e)
  {
    if ls != [] {
      var n, front := |ls| - 1, ls[..|ls| - 1];
      SlotIsLastWrite(front, s, e);
      NeighborAfterLink(LinkAll(map[], front), ls[n].from, ls[n].edge, ls[n].to, s, e);
      LastWriteNext(front, ls[n], s, e);
      assert ls == front + [ls[n]];
      if Writes(ls[n], s, e).Some? {
        assert LastWrite(ls, s, e, n);
      } else if i :| LastWrite(front, s, e, i) {
        assert LastWrite(ls, s, e, i);
      }
    }
  }

  lemma LastWriteNext(front: seq<Link>, l: Link, s: string, e: Edge)
    ensures forall i :: LastWrite(front + [l], s, e, i)
                        <==> if Writes(l, s, e).Some? then i == |front| else LastWrite(front, s, e, i)
  {
    var ls := front + [l];
    assert forall i | 0 <= i < |front| :: ls[i] == front[i];
    assert ls[|front|] == l;
  }

  /** A screen is its own neighbour. */
  ghost predicate SelfLinked(links: Links, s: string) {
    exists e: Edge :: Neighbor(links, s, e) == Some(s)
  }

  /** Exactly if the last link to write one of its slots joins it to itself. */
  lemma SelfLinkedIff(ls: seq<Link>, s: string, e: Edge)
    ensures Neighbor(LinkAll(map[], ls), s, e) == Some(s)
            <==> exists i :: LastWrite(ls, s, e, i) && ls[i].from == ls[i].to
  {
    SlotIsLastWrite(ls, s, e);
  }

  // ----- symmetry -----

  /** Crossing an edge and then its opposite leads back. */
  ghost predicate Symmetric(links: Links) {
    forall s, e | (s, e) in links :: Neighbor(links, links[(s, e)], e.Opposite()) == Some(s)
  }

  /** Neither slot that the link writes holds another screen. */
  predicate FreeFor(links: Links, a: string, edge: Edge, b: string) {
    && Neighbor(links, a, edge) in {None, Some(b)}
    && Neighbor(links, b, edge.Opposite()) in {None, Some(a)}
  }

  /** One more link keeps the graph symmetric exactly if it overwrites nothing. */
  lemma LinkKeepsSymmetryIff(links: Links, a: string, edge: Edge, b: string)
    requires Symmetric(links)
    ensures Symmetric(Linked(links, a, edge, b)) <==> FreeFor(links, a, edge, b)
  {
    var after := Linked(links, a, edge, b);
    assert after[(a, edge)] == b && after[(b, edge.Opposite())] == a;
    if (a, edge) in links && links[(a, edge)] != b {
      var c := links[(a, edge)];
      assert Neighbor(links, c, edge.Opposite()) == Some(a);
      assert (c, edge.Opposite()) in after && after[(c, edge.Opposite())] == a;
      assert !Symmetric(after) by {
        assert Neighbor(after, a, edge.Opposite().Opposite()) == Some(b);
      }
    } else if (b, edge.Opposite()) in links && links[(b, edge.Opposite())] != a {
      var d := links[(b, edge.Opposite())];
      assert Neighbor(links, d, edge.Opposite().Opposite()) == Some(b);
      assert (d, edge) in after && after[(d, edge)] == b;
      assert !Symmetric(after) by {
        assert Neighbor(after, b, edge.Opposite()) == Some(a);
      }
    } else {
      forall s, e | (s, e) in after
        ensures Neighbor(after, after[(s, e)], e.Opposite()) == Some(s)
      {
        if (s, e) != (a, edge) && (s, e) != (b, edge.Opposite()) {
          assert Neighbor(links, links[(s, e)], e.Opposite()) == Some(s);
        }
      }
    }
  }

  /** No link of the list overwrites a slot with another screen. */
  predicate NothingOverwritten(ls: seq<Link>) {
    forall i | 0 <= i < |ls| :: FreeFor(LinkAll(map[], ls[..i]), ls[i].from, ls[i].edge, ls[i].to)
  }

  lemma {:induction false} SymmetricUnlessOverwritten(ls: seq<Link>)
    requires NothingOverwritten(ls)
    ensures Symmetric(LinkAll(map[], ls))
  {
    if ls != [] {
      var front, last := ls[..|ls| - 1], ls[|ls| - 1];
      forall i | 0 <= i < |front|
        ensures FreeFor(LinkAll(map[], front[..i]), front[i].from, front[i].edge, front[i].to)
      {
        assert front[..i] == ls[..i];
      }
      SymmetricUnlessOverwritten(front);
      LinkKeepsSymmetryIff(LinkAll(map[], front), last.from, last.edge, last.to);
    }
  }

  lemma {:induction false} LastWriteFrom(ls: seq<Link>, s: string, e: Edge, i: nat) returns (j: nat)
    requires i < |ls| && Writes(ls[i], s, e).Some?
    ensures i <= j && LastWrite(ls, s, e, j)
    decreases |ls| - i
  {
    j := i;
    if k: nat :| i < k < |ls| && Writes(ls[k], s, e).Some? {
      j := LastWriteFrom(ls, s, e, k);
    }
  }

  /** Link i is the last to write this slot, and its other slot was given to another screen. */
  ghost predicate HalfOverwritten(ls: seq<Link>, s: string, e: Edge, i: nat) {
    && LastWrite(ls, s, e, i)
    && exists j :: LastWrite(ls, Writes(ls[i], s, e).value, e.Opposite(), j)
                   && Writes(ls[j], Writes(ls[i], s, e).value, e.Opposite()) != Some(s)
  }

  /** The graph of any list of links leads back everywhere if and only if no link of it is left like that. */
  lemma SymmetricIffWhole(ls: seq<Link>)
    ensures Symmetric(LinkAll(map[], ls)) <==> forall s, e, i: nat :: !HalfOverwritten(ls, s, e, i)
  {
    var links := LinkAll(map[], ls);
    forall s, e, i: nat | LastWrite(ls, s, e, i)
      ensures Neighbor(links, s, e) == Writes(ls[i], s, e)
      ensures Neighbor(links, Writes(ls[i], s, e).value, e.Opposite()) != Some(s) <==> HalfOverwritten(ls, s, e, i)
    {
      var t := Writes(ls[i], s, e).value;
      assert Writes(ls[i], t, e.Opposite()).Some?;
      var j := LastWriteFrom(ls, t, e.Opposite(), i);
      SlotIsLastWrite(ls, s, e);
      SlotIsLastWrite(ls, t, e.Opposite());
    }
    forall s, e | (s, e) in links ensures exists i: nat :: LastWrite(ls, s, e, i) {
      SlotIsLastWrite(ls, s, e);
    }
  }

  // ----- the N-screen space -----

  datatype ScreenCursor = ScreenCursor(screen: string, x: int, y: int)
  datatype ScreenSwitch = ScreenSwitch(from: string, to: string)

  datatype MultiScreenSpace = MultiScreenSpace(screens: map<string, Rect>, links: Links, inset: int) {

    predicate Valid() {
      inset == 2 && forall s | s in screens :: screens[s].Roomy()
    }

    /** Priority right, left, top, bottom for a corner. */
    function Crossed(rect: Rect, nx: int, ny: int): Option<Edge> {
      if nx >= rect.right then Some(Right)
      else if nx < rect.left then Some(Left)
      else if ny < rect.top then Some(Top)
      else if ny >= rect.bottom then Some(Bottom)
      else None
    }

    function Enter(from: Rect, nb: Rect, edge: Edge, exitX: int, exitY: int): (int, int) {
      match edge
      case Right => (nb.left + inset, MapRatio(exitY, from.top, from.Height(), nb.top, nb.Height()))
      case Left => (nb.right - 1 - inset, MapRatio(exitY, from.top, from.Height(), nb.top, nb.Height()))
      case Top => (MapRatio(exitX, from.left, from.Width(), nb.left, nb.Width()), nb.bottom - 1 - inset)
      case Bottom => (MapRatio(exitX, from.left, from.Width(), nb.left, nb.Width()), nb.top + inset)
    }

    /** The known screen across an edge. */
    function Across(screen: string, edge: Option<Edge>): Option<string> {
      if edge.None? then None
      else
        var n := Neighbor(links, screen, edge.value);
        if n.Some? && n.value in screens then n else None
    }

    function EnterNeighbor(screen: string, edge: Edge, exitX: int, exitY: int): Option<ScreenCursor> {
      var n := Across(screen, Some(edge));
      if screen !in screens || n.None? then None
      else
        var (x, y) := Enter(screens[screen], screens[n.value], edge, exitX, exitY);
        Some(ScreenCursor(n.value, x, y))
    }

    function ApplyDelta(cursor: ScreenCursor, dx: int, dy: int): (ScreenCursor, Option<ScreenSwitch>)
      requires Valid()
    {
      if cursor.screen !in screens then (cursor, None)
      else
        var rect := screens[cursor.screen];
        var nx, ny := cursor.x + dx, cursor.y + dy;
        var edge := Crossed(rect, nx, ny);
        var n := Across(cursor.screen, edge);
        if n.Some? then
          var (x, y) := Enter(rect, screens[n.value], edge.value, nx, ny);
          (ScreenCursor(n.value, x, y), Some(ScreenSwitch(cursor.screen, n.value)))
        else
          (ScreenCursor(cursor.screen, Clamp(nx, rect.left, rect.right - 1), Clamp(ny, rect.top, rect.bottom - 1)), None)
    }

    predicate Inside(c: ScreenCursor) {
      c.screen in screens && screens[c.screen].Contains(c.x, c.y)
    }
  }

  function NewMultiScreenSpace(screens: map<string, Rect>, links: Links): MultiScreenSpace {
    MultiScreenSpace(screens, links, 2)
  }

  lemma EnterInside(sp: MultiScreenSpace, from: Rect, nb: Rect, edge: Edge, x: int, y: int)
    requires sp.inset == 2 && from.Roomy() && nb.Roomy()
    ensures var e := sp.Enter(from, nb, edge, x, y); nb.Contains(e.0, e.1)
  {
    MapRatioInRange(y, from.top, from.Height(), nb.top, nb.Height());
    MapRatioInRange(x, from.left, from.Width(), nb.left, nb.Width());
  }

  /**
   From any position on a known screen a step ends on a pixel of a known screen;
   it reports a switch exactly if it goes through a link, naming both ends.
   */
  lemma MultiDeltaStaysInside(sp: MultiScreenSpace, c: ScreenCursor, dx: int, dy: int)
    requires sp.Valid() && c.screen in sp.screens
    ensures var (next, switch) := sp.ApplyDelta(c, dx, dy);
            && sp.Inside(next)
            && (switch.None? ==> next.screen == c.screen)
            && (switch.Some? ==> switch.value == ScreenSwitch(c.screen, next.screen))
            && (switch.Some? ==> exists e :: Neighbor(sp.links, c.screen, e) == Some(next.screen))
  {
    var rect := sp.screens[c.screen];
    var edge := sp.Crossed(rect, c.x + dx, c.y + dy);
    var n := sp.Across(c.screen, edge);
    if n.Some? {
      EnterInside(sp, rect, sp.screens[n.value], edge.value, c.x + dx, c.y + dy);
    }
  }

  /** The target is beyond this edge, and beyond none that comes before it in the order right, left, top, bottom. */
  predicate LeavesBy(r: Rect, e: Edge, x: int, y: int) {
    && Depth(r, e, x, y) < 0
    && (e.Right? || (Depth(r, Right, x, y) >= 0 && (e.Left? || (Depth(r, Left, x, y) >= 0 && (e.Top? || Depth(r, Top, x, y) >= 0)))))
  }

  /**
   Where a step goes. It leaves the screen exactly if its target is beyond an edge
   behind which there is a known screen, and enters that one at the place for its
   target. Otherwise it ends on the pixel of its screen nearest to the target,
   which is the target itself if that is on the screen.
   */
  lemma MultiStepGoes(sp: MultiScreenSpace, c: ScreenCursor, dx: int, dy: int)
    requires sp.Valid() && c.screen in sp.screens
    ensures var (next, switch) := sp.ApplyDelta(c, dx, dy);
            var x, y, from := c.x + dx, c.y + dy, sp.screens[c.screen];
            && (switch.Some? <==> exists e: Edge :: LeavesBy(from, e, x, y) && sp.Across(c.screen, Some(e)).Some?)
            && (forall e: Edge | LeavesBy(from, e, x, y) && switch.Some? :: sp.EnterNeighbor(c.screen, e, x, y) == Some(next))
            && (switch.None? ==> next.screen == c.screen && NearestPixel(from, (next.x, next.y), (x, y)))
            && (from.Contains(x, y) ==> switch.None? && next == ScreenCursor(c.screen, x, y))
  {
    var x, y, from := c.x + dx, c.y + dy, sp.screens[c.screen];
    ClampIsNearestPixel(from, x, y);
    forall e: Edge ensures LeavesBy(from, e, x, y) <==> sp.Crossed(from, x, y) == Some(e) {}
  }

  /**
   The place where a neighbour is entered: the screen behind the edge, inset from
   its opposite edge, at the mapped coordinate along it. Entering it and coming
   back the same way is entering and leaving the remote screen of the two-screen
   space.
   */
  lemma EntersNeighbour(sp: MultiScreenSpace, screen: string, e: Edge, x: int, y: int)
    requires sp.Valid()
    ensures var entry, n := sp.EnterNeighbor(screen, e, x, y), Neighbor(sp.links, screen, e);
            && (entry.Some? <==> screen in sp.screens && n.Some? && n.value in sp.screens)
            && (entry.Some? ==>
                  var two := NewCombinedSpace(sp.screens[screen], sp.screens[n.value], e);
                  && entry.value.screen == n.value
                  && CursorState(Remote, entry.value.x, entry.value.y) == two.EnterRemoteAt(x, y)
                  && Depth(two.remote, e.Opposite(), entry.value.x, entry.value.y) == 2
                  && two.Along(entry.value.x, entry.value.y)
                     == MapRatio(two.Along(x, y), two.StartAlong(two.local), two.LengthAlong(two.local),
                                 two.StartAlong(two.remote), two.LengthAlong(two.remote))
                  && two.remote.Contains(entry.value.x, entry.value.y))
  {
    var entry := sp.EnterNeighbor(screen, e, x, y);
    if entry.Some? {
      EnterInside(sp, sp.screens[screen], sp.screens[entry.value.screen], e, x, y);
    }
  }

  // ----- refinement of the two-screen space -----

  /** The N-screen space with the single link `local`-edge-`remote`. */
  function TwoScreens(sp: CombinedSpace, local: string, remote: string): MultiScreenSpace {
    NewMultiScreenSpace(map[local := sp.local, remote := sp.remote], Linked(map[], local, sp.edge, remote))
  }

  function Named(st: CursorState, local: string, remote: string): ScreenCursor {
    ScreenCursor(if st.region.Local? then local else remote, st.x, st.y)
  }

  /** The step crosses a horizontal edge while its x has left the source screen. */
  predicate Diagonal(sp: CombinedSpace, st: CursorState, dx: int, dy: int) {
    var r := sp.RectOf(st.region);
    && (sp.edge.Top? || sp.edge.Bottom?)
    && (if st.region.Local? then sp.CrossesLocalToRemote(st.x + dx, st.y + dy)
        else sp.CrossesRemoteToLocal(st.x + dx, st.y + dy))
    && !(r.left <= st.x + dx < r.right)
  }

  predicate SameStep(two: (CursorState, bool), many: (ScreenCursor, Option<ScreenSwitch>), local: string, remote: string) {
    many.0 == Named(two.0, local, remote) && (many.1.Some? <==> two.1)
  }

  lemma StepsAgreeIff(sp: CombinedSpace, local: string, remote: string, st: CursorState, dx: int, dy: int)
    requires sp.Valid() && local != remote
    ensures SameStep(sp.ApplyDelta(st, dx, dy),
                     TwoScreens(sp, local, remote).ApplyDelta(Named(st, local, remote), dx, dy), local, remote)
            <==> !Diagonal(sp, st, dx, dy)
  {
    var many := TwoScreens(sp, local, remote);
    var c := Named(st, local, remote);
    assert many.screens[c.screen] == sp.RectOf(st.region);
    var edge := many.Crossed(sp.RectOf(st.region), st.x + dx, st.y + dy);
    assert many.Across(local, Some(sp.edge)) == Some(remote);
    assert many.Across(remote, Some(sp.edge.Opposite())) == Some(local);
    assert many.Across(c.screen, edge).Some?
      <==> edge == Some(if st.region.Local? then sp.edge else sp.edge.Opposite());
  }

  function CombinedRun(sp: CombinedSpace, st: CursorState, ds: seq<(int, int)>): seq<(CursorState, bool)>
    requires sp.Valid()
    decreases |ds|
  {
    if ds == [] then []
    else
      var next := sp.ApplyDelta(st, ds[0].0, ds[0].1);
      [next] + CombinedRun(sp, next.0, ds[1..])
  }

  function MultiRun(sp: MultiScreenSpace, c: ScreenCursor, ds: seq<(int, int)>): seq<(ScreenCursor, Option<ScreenSwitch>)>
    requires sp.Valid()
    decreases |ds|
  {
    if ds == [] then []
    else
      var next := sp.ApplyDelta(c, ds[0].0, ds[0].1);
      [next] + MultiRun(sp, next.0, ds[1..])
  }

  function Total(ds: seq<(int, int)>): Point {
    if ds == [] then (0, 0) else var rest := Total(ds[1..]); (ds[0].0 + rest.0, ds[0].1 + rest.1)
  }

  /** From (x, y) the deltas never lead off the rect. */
  predicate StaysOn(r: Rect, x: int, y: int, ds: seq<(int, int)>)
    decreases |ds|
  {
    ds == [] || (r.Contains(x + ds[0].0, y + ds[0].1) && StaysOn(r, x + ds[0].0, y + ds[0].1, ds[1..]))
  }

  /** A run that stays on its screen ends at its start plus the sum of the deltas, without a switch. */
  lemma {:induction false} RunAddsUp(sp: CombinedSpace, st: CursorState, ds: seq<(int, int)>)
    requires sp.Valid() && ds != [] && StaysOn(sp.RectOf(st.region), st.x, st.y, ds)
    ensures var run := CombinedRun(sp, st, ds);
            && |run| == |ds| && run[|ds| - 1].0 == CursorState(st.region, st.x + Total(ds).0, st.y + Total(ds).1)
            && forall i | 0 <= i < |ds| :: !run[i].1
    decreases |ds|
  {
    var next := sp.ApplyDelta(st, ds[0].0, ds[0].1);
    StepGoes(sp, st, ds[0].0, ds[0].1);
    if |ds| == 1 {
      assert ds[1..] == [];
    } else {
      RunAddsUp(sp, next.0, ds[1..]);
    }
  }

  lemma {:induction false} MultiRunAddsUp(sp: MultiScreenSpace, c: ScreenCursor, ds: seq<(int, int)>)
    requires sp.Valid() && ds != [] && c.screen in sp.screens && StaysOn(sp.screens[c.screen], c.x, c.y, ds)
    ensures var run := MultiRun(sp, c, ds);
            && |run| == |ds| && run[|ds| - 1].0 == ScreenCursor(c.screen, c.x + Total(ds).0, c.y + Total(ds).1)
            && forall i | 0 <= i < |ds| :: run[i].1.None?
    decreases |ds|
  {
    var next := sp.ApplyDelta(c, ds[0].0, ds[0].1);
    MultiStepGoes(sp, c, ds[0].0, ds[0].1);
    if |ds| == 1 {
      assert ds[1..] == [];
    } else {
      MultiRunAddsUp(sp, next.0, ds[1..]);
    }
  }

  predicate SomeDiagonal(sp: CombinedSpace, st: CursorState, ds: seq<(int, int)>)
    requires sp.Valid()
    decreases |ds|
  {
    ds != []
    && (Diagonal(sp, st, ds[0].0, ds[0].1)
        || SomeDiagonal(sp, sp.ApplyDelta(st, ds[0].0, ds[0].1).0, ds[1..]))
  }

  predicate SameRun(two: seq<(CursorState, bool)>, many: seq<(ScreenCursor, Option<ScreenSwitch>)>, local: string, remote: string) {
    |two| == |many| && forall i :: 0 <= i < |two| ==> SameStep(two[i], many[i], local, remote)
  }

  /**
   The N-screen model refines the two-screen one over every run of deltas,
   exactly if no step of the run crosses a top or bottom edge diagonally.
   */
  lemma {:induction false} RunsAgreeIff(sp: CombinedSpace, local: string, remote: string, st: CursorState, ds: seq<(int, int)>)
    requires sp.Valid() && local != remote
    ensures SameRun(CombinedRun(sp, st, ds),
                    MultiRun(TwoScreens(sp, local, remote), Named(st, local, remote), ds), local, remote)
            <==> !SomeDiagonal(sp, st, ds)
    decreases |ds|
  {
    if ds != [] {
      var many := TwoScreens(sp, local, remote);
      var two1 := sp.ApplyDelta(st, ds[0].0, ds[0].1);
      var many1 := many.ApplyDelta(Named(st, local, remote), ds[0].0, ds[0].1);
      StepsAgreeIff(sp, local, remote, st, ds[0].0, ds[0].1);
      var twos, manys := CombinedRun(sp, st, ds), MultiRun(many, Named(st, local, remote), ds);
      assert twos[0] == two1 && manys[0] == many1;
      if SameStep(two1, many1, local, remote) {
        RunsAgreeIff(sp, local, remote, two1.0, ds[1..]);
        var two', many' := CombinedRun(sp, two1.0, ds[1..]), MultiRun(many, many1.0, ds[1..]);
        assert twos == [two1] + two' && manys == [many1] + many';
        SameRunCons(two1, two', many1, many', local, remote);
      }
    }
  }

  lemma SameRunCons(t: (CursorState, bool), ts: seq<(CursorState, bool)>,
                    m: (ScreenCursor, Option<ScreenSwitch>), ms: seq<(ScreenCursor, Option<ScreenSwitch>)>,
                    local: string, remote: string)
    requires SameStep(t, m, local, remote)
    ensures SameRun([t] + ts, [m] + ms, local, remote) <==> SameRun(ts, ms, local, remote)
  {
    if SameRun([t] + ts, [m] + ms, local, remote) {
      forall i | 0 <= i < |ts| ensures SameStep(ts[i], ms[i], local, remote) {
        assert SameStep(([t] + ts)[i + 1], ([m] + ms)[i + 1], local, remote);
      }
    }
  }

  /** For a left or right edge they agree on every run. */
  lemma {:induction false} SidewaysRunsAgree(sp: CombinedSpace, local: string, remote: string, st: CursorState, ds: seq<(int, int)>)
    requires sp.Valid() && local != remote && (sp.edge.Left? || sp.edge.Right?)
    ensures SameRun(CombinedRun(sp, st, ds),
                    MultiRun(TwoScreens(sp, local, remote), Named(st, local, remote), ds), local, remote)
  {
    NeverDiagonal(sp, st, ds);
    RunsAgreeIff(sp, local, remote, st, ds);
  }

  lemma {:induction false} NeverDiagonal(sp: CombinedSpace, st: CursorState, ds: seq<(int, int)>)
    requires sp.Valid() && (sp.edge.Left? || sp.edge.Right?)
    ensures !SomeDiagonal(sp, st, ds)
    decreases |ds|
  {
    if ds != [] {
      NeverDiagonal(sp, sp.ApplyDelta(st, ds[0].0, ds[0].1).0, ds[1..]);
    }
  }

  // ----- chains of screens -----

  predicate Distinct(names: seq<string>) {
    forall i, j | 0 <= i < j < |names| :: names[i] != names[j]
  }

  /** The links of the layout editor: each card to the next one on its right. */
  function ChainLinks(chain: seq<string>): (ls: seq<Link>)
    ensures |ls| == Max(|chain| - 1, 0)
  {
    if |chain| < 2 then []
    else seq(|chain| - 1, i requires 0 <= i < |chain| - 1 => Link(chain[i], Right, chain[i + 1]))
  }

  lemma ChainLinksFront(chain: seq<string>)
    requires 2 <= |chain|
    ensures var front, n := chain[..|chain| - 1], |chain|;
            LinkAll(map[], ChainLinks(chain)) == Linked(LinkAll(map[], ChainLinks(front)), chain[n - 2], Right, chain[n - 1])
  {
    var ls := ChainLinks(chain);
    assert ls[..|ls| - 1] == ChainLinks(chain[..|chain| - 1]);
  }

  lemma {:induction false} NotInChain(chain: seq<string>, s: string, e: Edge)
    requires s !in chain
    ensures Neighbor(LinkAll(map[], ChainLinks(chain)), s, e) == None
  {
    if |chain| >= 2 {
      ChainLinksFront(chain);
      NotInChain(chain[..|chain| - 1], s, e);
    }
  }

  /** What one more link changes, slot by slot. */
  lemma NeighborAfterLink(links: Links, a: string, edge: Edge, b: string, s: string, e: Edge)
    ensures Neighbor(Linked(links, a, edge, b), s, e)
         == if s == b && e == edge.Opposite() then Some(a)
            else if s == a && e == edge then Some(b)
            else Neighbor(links, s, e)
  {
  }

  function ChainNeighbour(chain: seq<string>, i: nat, e: Edge): Option<string>
    requires i < |chain|
  {
    if e.Right? && i + 1 < |chain| then Some(chain[i + 1])
    else if e.Left? && 0 < i then Some(chain[i - 1])
    else None
  }

  /** In a chain every screen has exactly its two neighbours in the list. */
  lemma {:induction false} ChainNeighbours(chain: seq<string>, i: nat, e: Edge)
    requires Distinct(chain) && i < |chain|
    ensures Neighbor(LinkAll(map[], ChainLinks(chain)), chain[i], e) == ChainNeighbour(chain, i, e)
    decreases |chain|
  {
    if |chain| >= 2 {
      var front, last := chain[..|chain| - 1], |chain| - 1;
      var before := LinkAll(map[], ChainLinks(front));
      assert Neighbor(before, chain[i], e) == if i < last then ChainNeighbour(front, i, e) else None by {
        if i < last {
          ChainNeighbours(front, i, e);
          assert front[i] == chain[i];
        } else {
          NotInChain(front, chain[i], e);
        }
      }
      ChainLinksFront(chain);
      NeighborAfterLink(before, chain[last - 1], Right, chain[last], chain[i], e);
      ChainExtends(chain, i, e);
    }
  }

  lemma ChainExtends(chain: seq<string>, i: nat, e: Edge)
    requires Distinct(chain) && i < |chain| && 2 <= |chain|
    ensures ChainNeighbour(chain, i, e)
         == if chain[i] == chain[|chain| - 1] && e.Left? then Some(chain[|chain| - 2])
            else if chain[i] == chain[|chain| - 2] && e.Right? then Some(chain[|chain| - 1])
            else if i < |chain| - 1 then ChainNeighbour(chain[..|chain| - 1], i, e)
            else None
  {
    var last := |chain| - 1;
    assert i < last - 1 ==> chain[i] != chain[last - 1];
    assert i < last ==> chain[i] != chain[last];
  }

  predicate IsLastCard(chain: seq<string>, s: string, j: int) {
    0 <= j < |chain| && chain[j] == s && forall k | j < k < |chain| :: chain[k] != s
  }

  /** The last card with this name stands right behind another card with it. */
  ghost predicate BehindItself(chain: seq<string>, s: string) {
    exists j :: IsLastCard(chain, s, j) && 0 < j && chain[j - 1] == s
  }

  /** In a chain of any names, a screen is its own neighbour exactly then. */
  lemma {:induction false} ChainSelfLinkedIff(chain: seq<string>, s: string)
    ensures SelfLinked(LinkAll(map[], ChainLinks(chain)), s) <==> BehindItself(chain, s)
  {
    var ls := ChainLinks(chain);
    if BehindItself(chain, s) {
      var j :| IsLastCard(chain, s, j) && 0 < j && chain[j - 1] == s;
      assert LastWrite(ls, s, Left, j - 1);
      SelfLinkedIff(ls, s, Left);
    }
    if e: Edge :| Neighbor(LinkAll(map[], ls), s, e) == Some(s) {
      SelfLinkedIff(ls, s, e);
      var i :| LastWrite(ls, s, e, i) && ls[i].from == ls[i].to;
      LastCard(chain, s, e, i);
    }
  }

  lemma LastCard(chain: seq<string>, s: string, e: Edge, i: int)
    requires var ls := ChainLinks(chain); LastWrite(ls, s, e, i) && ls[i].from == ls[i].to
    ensures BehindItself(chain, s)
  {
    var ls := ChainLinks(chain);
    assert ls[i] == Link(chain[i], Right, chain[i + 1]);
    assert e.Left? || e.Right?;
    assert chain[i] == s && chain[i + 1] == s;
    forall k | i + 1 < k < |chain| ensures chain[k] != s {
      assert Writes(ls[if e.Left? then k - 1 else i + 1], s, e).None?;
    }
    assert IsLastCard(chain, s, i + 1);
  }

  function Widest(sp: MultiScreenSpace, names: seq<string>): int {
    if names == [] then 1
    else
      var w := Widest(sp, names[1..]);
      if names[0] in sp.screens then Max(sp.screens[names[0]].Width(), w) else w
  }

  lemma {:induction false} WidestBounds(sp: MultiScreenSpace, names: seq<string>, i: nat)
    requires i < |names| && names[i] in sp.screens
    ensures sp.screens[names[i]].Width() <= Widest(sp, names)
  {
    if i > 0 {
      WidestBounds(sp, names[1..], i - 1);
    }
  }

  predicate ChainSpace(sp: MultiScreenSpace, chain: seq<string>) {
    && sp.Valid() && Distinct(chain)
    && (forall s | s in chain :: s in sp.screens)
    && sp.links == LinkAll(map[], ChainLinks(chain))
  }

  function Repeat(d: (int, int), n: nat): seq<(int, int)> {
    if n == 0 then [] else [d] + Repeat(d, n - 1)
  }

  function EndOfRun(sp: MultiScreenSpace, c: ScreenCursor, ds: seq<(int, int)>): ScreenCursor
    requires sp.Valid()
    decreases |ds|
  {
    if ds == [] then c else EndOfRun(sp, sp.ApplyDelta(c, ds[0].0, ds[0].1).0, ds[1..])
  }

  lemma OneScreenLeft(sp: MultiScreenSpace, chain: seq<string>, i: nat, c: ScreenCursor, dx: int)
    requires ChainSpace(sp, chain) && 0 < i < |chain| && c.screen == chain[i] && sp.Inside(c)
    requires sp.screens[c.screen].Width() <= -dx
    ensures var next := sp.ApplyDelta(c, dx, 0).0; next.screen == chain[i - 1] && sp.Inside(next)
  {
    ChainNeighbours(chain, i, Left);
    MultiDeltaStaysInside(sp, c, dx, 0);
    assert chain[i - 1] in chain;
  }

  /** From the i-th screen of a chain, i long moves to the left come home. */
  lemma {:induction false} ChainLeadsHome(sp: MultiScreenSpace, chain: seq<string>, i: nat, c: ScreenCursor, step: (int, int))
    requires ChainSpace(sp, chain) && i < |chain| && c.screen == chain[i] && sp.Inside(c)
    requires step == (-Widest(sp, chain), 0)
    ensures var home := EndOfRun(sp, c, Repeat(step, i)); home.screen == chain[0] && sp.Inside(home)
    decreases i
  {
    if i > 0 {
      WidestBounds(sp, chain, i);
      OneScreenLeft(sp, chain, i, c, step.0);
      var next := sp.ApplyDelta(c, step.0, step.1).0;
      ChainLeadsHome(sp, chain, i - 1, next, step);
      EndOfRunCons(sp, c, step, Repeat(step, i - 1));
    }
  }

  lemma EndOfRunCons(sp: MultiScreenSpace, c: ScreenCursor, d: (int, int), ds: seq<(int, int)>)
    requires sp.Valid()
    ensures EndOfRun(sp, c, [d] + ds) == EndOfRun(sp, sp.ApplyDelta(c, d.0, d.1).0, ds)
  {
    assert ([d] + ds)[1..] == ds;
  }
}
