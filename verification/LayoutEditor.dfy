/**
 The links drawn by the two-dimensional editor
 (apps/tailkvm-ui/src/features/layout-editor.ts) and the space the router builds
 from a configuration (`build_multi_screen_space`,
 apps/tailkvm-ui/src-tauri/src/router.rs).
 */
module LayoutEditor {
  import opened Basics
  import opened ScreenSpace
  import opened LayoutGraph

  const BAND := 50

  /** A box of the editor; all boxes have the same size. */
  datatype Box = Box(name: string, x: int, y: int)

  datatype Axis = Across | Downwards

  /** How far b lies ahead of a on the axis. */
  function Ahead(axis: Axis, a: Box, b: Box): int {
    if axis.Across? then b.x - a.x else b.y - a.y
  }

  function Aside(axis: Axis, a: Box, b: Box): int {
    var d := if axis.Across? then b.y - a.y else b.x - a.x;
    if d < 0 then -d else d
  }

  predicate Faces(axis: Axis, a: Box, b: Box) {
    Ahead(axis, a, b) > 0 && Aside(axis, a, b) < BAND
  }

  /** Box j is the nearest one ahead of box i among the first n, the first of equals. */
  predicate IsNearest(boxes: seq<Box>, n: nat, axis: Axis, i: nat, j: nat)
    requires i < |boxes| && n <= |boxes|
  {
    && j < n && j != i && Faces(axis, boxes[i], boxes[j])
    && forall k | 0 <= k < n && k != i && Faces(axis, boxes[i], boxes[k]) ::
         Ahead(axis, boxes[i], boxes[j]) < Ahead(axis, boxes[i], boxes[k])
         || (Ahead(axis, boxes[i], boxes[j]) == Ahead(axis, boxes[i], boxes[k]) && j <= k)
  }

  ghost function NearestBox(boxes: seq<Box>, axis: Axis, i: nat): Option<nat>
    requires i < |boxes|
  {
    if exists j: nat :: IsNearest(boxes, |boxes|, axis, i, j) then
      var j: nat :| IsNearest(boxes, |boxes|, axis, i, j);
      Some(j)
    else None
  }

  function EdgeOf(axis: Axis): Edge {
    if axis.Across? then Right else Bottom
  }

  /** The nearest box on an axis, by index. */
  type Near = (Axis, nat) -> Option<nat>

  ghost function NearestIn(boxes: seq<Box>): Near {
    (axis: Axis, i: nat) => if i < |boxes| then NearestBox(boxes, axis, i) else None
  }

  function LinkBy(boxes: seq<Box>, near: Near, axis: Axis, i: nat): seq<Link>
    requires i < |boxes|
  {
    var j := near(axis, i);
    if j.Some? && j.value < |boxes| then [Link(boxes[i].name, EdgeOf(axis), boxes[j.value].name)] else []
  }

  /** The links from the first n boxes: to the right, then downwards. */
  function LinksBy(boxes: seq<Box>, near: Near, n: nat): seq<Link>
    requires n <= |boxes|
  {
    if n == 0 then []
    else LinksBy(boxes, near, n - 1) + LinkBy(boxes, near, Across, n - 1) + LinkBy(boxes, near, Downwards, n - 1)
  }

  ghost function InferredLinks(boxes: seq<Box>): seq<Link> {
    LinksBy(boxes, NearestIn(boxes), |boxes|)
  }

  lemma NearestIsUnique(boxes: seq<Box>, axis: Axis, i: nat, j: nat)
    requires i < |boxes| && IsNearest(boxes, |boxes|, axis, i, j)
    ensures NearestBox(boxes, axis, i) == Some(j)
  {
  }

  /** One scan over the boxes, as the loop of the editor does for each axis. */
  method FindNearest(boxes: seq<Box>, axis: Axis, i: nat) returns (found: Option<nat>)
    requires i < |boxes|
    ensures found == NearestBox(boxes, axis, i)
    ensures found.Some? ==> IsNearest(boxes, |boxes|, axis, i, found.value)
  {
    found := None;
    for k := 0 to |boxes|
      invariant found.Some? ==> IsNearest(boxes, k, axis, i, found.value)
      invariant found.None? ==> forall j | 0 <= j < k && j != i :: !Faces(axis, boxes[i], boxes[j])
    {
      if k != i && Faces(axis, boxes[i], boxes[k]) {
        if found.None? || Ahead(axis, boxes[i], boxes[k]) < Ahead(axis, boxes[i], boxes[found.value]) {
          found := Some(k);
        }
      }
    }
    if found.Some? {
      NearestIsUnique(boxes, axis, i, found.value);
    }
  }

  method LinkAhead(boxes: seq<Box>, axis: Axis, i: nat) returns (links: seq<Link>)
    requires i < |boxes|
    ensures links == LinkBy(boxes, NearestIn(boxes), axis, i)
  {
    var found := FindNearest(boxes, axis, i);
    links := if found.Some? then [Link(boxes[i].name, EdgeOf(axis), boxes[found.value].name)] else [];
  }

  method InferLinks(boxes: seq<Box>) returns (links: seq<Link>)
    ensures links == InferredLinks(boxes)
  {
    links := [];
    for i := 0 to |boxes|
      invariant links == LinksBy(boxes, NearestIn(boxes), i)
    {
      var right := LinkAhead(boxes, Across, i);
      var down := LinkAhead(boxes, Downwards, i);
      links := links + right + down;
    }
  }

  predicate DistinctBoxes(boxes: seq<Box>) {
    forall i, j | 0 <= i < j < |boxes| :: boxes[i].name != boxes[j].name
  }

  // ----- the slots of the inferred graph -----

  function AxisOf(e: Edge): Axis {
    if e.Left? || e.Right? then Across else Downwards
  }

  predicate IsAhead(e: Edge) {
    e == EdgeOf(AxisOf(e))
  }

  ghost predicate Sound(boxes: seq<Box>, near: Near) {
    forall axis: Axis, i: nat | i < |boxes| && near(axis, i).Some? :: near(axis, i).value < |boxes|
  }

  lemma NearestIsSound(boxes: seq<Box>)
    ensures Sound(boxes, NearestIn(boxes))
  {
  }

  /** What the link of box i on the axis of the edge writes into a slot. */
  function BoxWrites(boxes: seq<Box>, near: Near, i: nat, s: string, e: Edge): Option<string>
    requires i < |boxes|
  {
    var j := near(AxisOf(e), i);
    if j.None? || j.value >= |boxes| then None
    else if IsAhead(e) then (if boxes[i].name == s then Some(boxes[j.value].name) else None)
    else if boxes[j.value].name == s then Some(boxes[i].name)
    else None
  }

  lemma LinkAllAppend(ls: seq<Link>, more: seq<Link>, s: string, e: Edge)
    requires |more| <= 1
    ensures Neighbor(LinkAll(map[], ls + more), s, e)
         == (if more != [] && Writes(more[0], s, e).Some? then Writes(more[0], s, e) else Neighbor(LinkAll(map[], ls), s, e))
  {
    if more == [] {
      assert ls + more == ls;
    } else {
      assert (ls + more)[..|ls|] == ls && ls + more == ls + [more[0]];
      NeighborAfterLink(LinkAll(map[], ls), more[0].from, more[0].edge, more[0].to, s, e);
    }
  }

  lemma LinkByWrites(boxes: seq<Box>, near: Near, axis: Axis, i: nat, s: string, e: Edge)
    requires i < |boxes|
    ensures var more := LinkBy(boxes, near, axis, i);
            && |more| <= 1
            && (if more == [] then None else Writes(more[0], s, e))
               == (if AxisOf(e) == axis then BoxWrites(boxes, near, i, s, e) else None)
  {
  }

  /** The slot after the links of the first n boxes. */
  function SlotOf(boxes: seq<Box>, near: Near, n: nat, s: string, e: Edge): Option<string>
    requires n <= |boxes|
  {
    if n == 0 then None
    else if BoxWrites(boxes, near, n - 1, s, e).Some? then BoxWrites(boxes, near, n - 1, s, e)
    else SlotOf(boxes, near, n - 1, s, e)
  }

  /** Adding the links of one more box. */
  lemma BoxEffect(ls: seq<Link>, boxes: seq<Box>, near: Near, i: nat, s: string, e: Edge, all: seq<Link>)
    requires i < |boxes| && all == ls + LinkBy(boxes, near, Across, i) + LinkBy(boxes, near, Downwards, i)
    ensures var w := BoxWrites(boxes, near, i, s, e);
            Neighbor(LinkAll(map[], all), s, e) == if w.Some? then w else Neighbor(LinkAll(map[], ls), s, e)
  {
    var right, down := LinkBy(boxes, near, Across, i), LinkBy(boxes, near, Downwards, i);
    LinkByWrites(boxes, near, Across, i, s, e);
    LinkByWrites(boxes, near, Downwards, i, s, e);
    LinkAllAppend(ls, right, s, e);
    LinkAllAppend(ls + right, down, s, e);
  }

  lemma LinksNext(boxes: seq<Box>, near: Near, n: nat)
    requires n < |boxes|
    ensures LinksBy(boxes, near, n + 1)
         == LinksBy(boxes, near, n) + LinkBy(boxes, near, Across, n) + LinkBy(boxes, near, Downwards, n)
  {
  }

  /** Box k adds what it writes to a slot that develops like this. */
  predicate Develops(boxes: seq<Box>, near: Near, slot: nat -> Option<string>, s: string, e: Edge, k: nat)
    requires k < |boxes|
  {
    var w := BoxWrites(boxes, near, k, s, e);
    slot(k + 1) == if w.Some? then w else slot(k)
  }

  lemma {:induction false} DevelopsInto(boxes: seq<Box>, near: Near, slot: nat -> Option<string>, n: nat, s: string, e: Edge)
    requires n <= |boxes| && slot(0) == None && forall k: nat | k < n :: Develops(boxes, near, slot, s, e, k)
    ensures slot(n) == SlotOf(boxes, near, n, s, e)
  {
    if n > 0 {
      DevelopsInto(boxes, near, slot, n - 1, s, e);
      assert Develops(boxes, near, slot, s, e, n - 1);
    }
  }

  /** The slot in the graph of the first k boxes. */
  function GraphSlots(boxes: seq<Box>, near: Near, s: string, e: Edge): nat -> Option<string> {
    (k: nat) => if k <= |boxes| then Neighbor(LinkAll(map[], LinksBy(boxes, near, k)), s, e) else None
  }

  lemma {:induction false} GraphSlotsDevelop(boxes: seq<Box>, near: Near, s: string, e: Edge, k: nat)
    requires k < |boxes|
    ensures Develops(boxes, near, GraphSlots(boxes, near, s, e), s, e, k)
  {
    SlotNext(boxes, near, k, s, e);
  }

  lemma {:induction false} GraphSlotsAre(boxes: seq<Box>, near: Near, n: nat, s: string, e: Edge, slot: nat -> Option<string>)
    requires n <= |boxes| && slot == GraphSlots(boxes, near, s, e) && slot(0) == None
    ensures slot(n) == SlotOf(boxes, near, n, s, e)
  {
    forall k: nat | k < n ensures Develops(boxes, near, slot, s, e, k) {
      GraphSlotsDevelop(boxes, near, s, e, k);
    }
    DevelopsInto(boxes, near, slot, n, s, e);
  }

  /** Slot by slot, the inferred graph is what the boxes write. */
  lemma {:induction false} SlotsOfBoxes(boxes: seq<Box>, near: Near, n: nat, s: string, e: Edge)
    requires n <= |boxes|
    ensures Neighbor(LinkAll(map[], LinksBy(boxes, near, n)), s, e) == SlotOf(boxes, near, n, s, e)
  {
    GraphSlotsAre(boxes, near, n, s, e, GraphSlots(boxes, near, s, e));
  }

  lemma {:induction false} SlotNext(boxes: seq<Box>, near: Near, n: nat, s: string, e: Edge)
    requires n < |boxes|
    ensures var w := BoxWrites(boxes, near, n, s, e);
            Neighbor(LinkAll(map[], LinksBy(boxes, near, n + 1)), s, e)
            == if w.Some? then w else Neighbor(LinkAll(map[], LinksBy(boxes, near, n)), s, e)
  {
    LinksNext(boxes, near, n);
    BoxEffect(LinksBy(boxes, near, n), boxes, near, n, s, e, LinksBy(boxes, near, n + 1));
  }

  /** The last of the first n boxes to write the slot. */
  predicate LastBox(boxes: seq<Box>, near: Near, n: nat, s: string, e: Edge, i: nat)
    requires n <= |boxes|
  {
    && i < n && BoxWrites(boxes, near, i, s, e).Some?
    && forall k: nat | i < k < n :: BoxWrites(boxes, near, k, s, e).None?
  }

  /** If any box writes the slot there is a last one, and the slot holds what it wrote. */
  lemma {:induction false} FindLastBox(boxes: seq<Box>, near: Near, n: nat, s: string, e: Edge) returns (last: Option<nat>)
    requires n <= |boxes|
    ensures last.None? ==> SlotOf(boxes, near, n, s, e) == None && forall i: nat | i < n :: BoxWrites(boxes, near, i, s, e).None?
    ensures last.Some? ==> LastBox(boxes, near, n, s, e, last.value)
                           && SlotOf(boxes, near, n, s, e) == BoxWrites(boxes, near, last.value, s, e)
  {
    if n == 0 {
      last := None;
    } else if BoxWrites(boxes, near, n - 1, s, e).Some? {
      last := Some(n - 1);
    } else {
      last := FindLastBox(boxes, near, n - 1, s, e);
    }
  }

  lemma LastBoxIsUnique(boxes: seq<Box>, near: Near, n: nat, s: string, e: Edge, i: nat, k: nat)
    requires n <= |boxes| && LastBox(boxes, near, n, s, e, i) && LastBox(boxes, near, n, s, e, k)
    ensures i == k
  {
  }

  /** A box and its nearest box carry the name, and no later box writes the slot. */
  ghost predicate BesideItself(boxes: seq<Box>, s: string, e: Edge) {
    exists i: nat ::
      LastBox(boxes, NearestIn(boxes), |boxes|, s, e, i) && BoxWrites(boxes, NearestIn(boxes), i, s, e) == Some(s)
  }

  /** For boxes with any names, a slot leads a screen to itself exactly then. */
  lemma BoxesSelfLinkedIff(boxes: seq<Box>, s: string, e: Edge)
    ensures Neighbor(LinkAll(map[], InferredLinks(boxes)), s, e) == Some(s) <==> BesideItself(boxes, s, e)
  {
    var near, n := NearestIn(boxes), |boxes|;
    SlotsOfBoxes(boxes, near, n, s, e);
    var last := FindLastBox(boxes, near, n, s, e);
    if i: nat :| LastBox(boxes, near, n, s, e, i) && BoxWrites(boxes, near, i, s, e) == Some(s) {
      if last.Some? {
        LastBoxIsUnique(boxes, near, n, s, e, i, last.value);
      }
    }
  }

  /** With distinct names neither editor makes a screen its own neighbour. */
  lemma BoxesMakeNoSelfLink(boxes: seq<Box>, s: string)
    requires DistinctBoxes(boxes)
    ensures !SelfLinked(LinkAll(map[], InferredLinks(boxes)), s)
  {
    forall e: Edge ensures !BesideItself(boxes, s, e) {
      forall i: nat | i < |boxes| ensures BoxWrites(boxes, NearestIn(boxes), i, s, e) != Some(s) {
        var j := NearestBox(boxes, AxisOf(e), i);
        assert j.Some? ==> IsNearest(boxes, |boxes|, AxisOf(e), i, j.value) && boxes[i].name != boxes[j.value].name;
      }
    }
    forall e: Edge ensures Neighbor(LinkAll(map[], InferredLinks(boxes)), s, e) != Some(s) {
      BoxesSelfLinkedIff(boxes, s, e);
    }
  }

  lemma {:induction false} ChainMakesNoSelfLink(chain: seq<string>, s: string)
    requires Distinct(chain)
    ensures !SelfLinked(LinkAll(map[], ChainLinks(chain)), s)
  {
    ChainSelfLinkedIff(chain, s);
  }

  // ----- symmetry of the inferred graph -----

  predicate Shares(near: Near, axis: Axis, i: nat, k: nat) {
    i != k && near(axis, i).Some? && near(axis, i) == near(axis, k)
  }

  /** Two boxes have the same nearest box on one axis. */
  ghost predicate SharedNearest(boxes: seq<Box>, near: Near) {
    exists axis: Axis, i: nat, k: nat :: i < |boxes| && k < |boxes| && Shares(near, axis, i, k)
  }

  /** With distinct names the slot ahead of a box is its own. */
  lemma SlotAhead(boxes: seq<Box>, near: Near, axis: Axis, i: nat, j: nat)
    requires DistinctBoxes(boxes) && i < |boxes| && near(axis, i) == Some(j) && j < |boxes|
    ensures SlotOf(boxes, near, |boxes|, boxes[i].name, EdgeOf(axis)) == Some(boxes[j].name)
  {
    var s, e := boxes[i].name, EdgeOf(axis);
    var last := FindLastBox(boxes, near, |boxes|, s, e);
    assert BoxWrites(boxes, near, i, s, e) == Some(boxes[j].name);
    assert boxes[last.value].name == s;
    assert last == Some(i);
  }

  /** The slot behind a box holds the last box that has it as its nearest. */
  lemma SlotBehind(boxes: seq<Box>, near: Near, axis: Axis, i: nat, j: nat) returns (k: nat)
    requires DistinctBoxes(boxes) && i < |boxes| && near(axis, i) == Some(j) && j < |boxes|
    ensures k < |boxes| && near(axis, k) == Some(j)
    ensures SlotOf(boxes, near, |boxes|, boxes[j].name, EdgeOf(axis).Opposite()) == Some(boxes[k].name)
  {
    var s, e := boxes[j].name, EdgeOf(axis).Opposite();
    assert AxisOf(e) == axis && !IsAhead(e);
    assert BoxWrites(boxes, near, i, s, e) == Some(boxes[i].name);
    var last := FindLastBox(boxes, near, |boxes|, s, e);
    k := last.value;
    var found := near(axis, k).value;
    assert boxes[found].name == s;
    assert found == j;
  }

  lemma SharedBreaks(boxes: seq<Box>, near: Near, axis: Axis, i: nat, k: nat)
    requires DistinctBoxes(boxes) && Sound(boxes, near) && i < |boxes| && k < |boxes| && Shares(near, axis, i, k)
    ensures !Symmetric(LinkAll(map[], LinksBy(boxes, near, |boxes|)))
  {
    var links, j := LinkAll(map[], LinksBy(boxes, near, |boxes|)), near(axis, i).value;
    var last := SlotBehind(boxes, near, axis, i, j);
    var other := if last == i then k else i;
    SlotAhead(boxes, near, axis, other, j);
    SlotsOfBoxes(boxes, near, |boxes|, boxes[other].name, EdgeOf(axis));
    SlotsOfBoxes(boxes, near, |boxes|, boxes[j].name, EdgeOf(axis).Opposite());
    assert (boxes[other].name, EdgeOf(axis)) in links && links[(boxes[other].name, EdgeOf(axis))] == boxes[j].name;
    assert boxes[last].name != boxes[other].name;
  }

  lemma UnsharedLeadsBack(boxes: seq<Box>, near: Near, s: string, e: Edge, v: string)
    requires DistinctBoxes(boxes) && Sound(boxes, near) && !SharedNearest(boxes, near)
    requires SlotOf(boxes, near, |boxes|, s, e) == Some(v)
    ensures SlotOf(boxes, near, |boxes|, v, e.Opposite()) == Some(s)
  {
    var found := FindLastBox(boxes, near, |boxes|, s, e);
    var axis, i := AxisOf(e), found.value;
    var j := near(axis, i).value;
    if IsAhead(e) {
      var last := SlotBehind(boxes, near, axis, i, j);
      if last != i {
        assert Shares(near, axis, i, last);
      }
    } else {
      SlotAhead(boxes, near, axis, i, j);
    }
  }

  lemma SymmetricIff(boxes: seq<Box>, near: Near)
    requires DistinctBoxes(boxes) && Sound(boxes, near)
    ensures Symmetric(LinkAll(map[], LinksBy(boxes, near, |boxes|))) <==> !SharedNearest(boxes, near)
  {
    var links := LinkAll(map[], LinksBy(boxes, near, |boxes|));
    if SharedNearest(boxes, near) {
      var axis: Axis, i: nat, k: nat :| i < |boxes| && k < |boxes| && Shares(near, axis, i, k);
      SharedBreaks(boxes, near, axis, i, k);
    } else {
      forall s, e | (s, e) in links ensures Neighbor(links, links[(s, e)], e.Opposite()) == Some(s) {
        SlotsOfBoxes(boxes, near, |boxes|, s, e);
        UnsharedLeadsBack(boxes, near, s, e, links[(s, e)]);
        SlotsOfBoxes(boxes, near, |boxes|, links[(s, e)], e.Opposite());
      }
    }
  }

  /**
   With distinct names the inferred graph leads back everywhere if and only if
   no two boxes have the same nearest box on one axis.
   */
  lemma InferredSymmetricIff(boxes: seq<Box>)
    requires DistinctBoxes(boxes)
    ensures Symmetric(LinkAll(map[], InferredLinks(boxes))) <==> !SharedNearest(boxes, NearestIn(boxes))
  {
    NearestIsSound(boxes);
    SymmetricIff(boxes, NearestIn(boxes));
  }

  /**
   Two boxes with the same nearest box on their right overwrite each other's way
   back: the inferred graph need not be symmetric.
   */
  lemma SharedNeighbourIsNotSymmetric(a: string, b: string, c: string)
    requires a != b && b != c && a != c
    ensures !Symmetric(LinkAll(map[], InferredLinks([Box(a, 0, 0), Box(b, 0, 80), Box(c, 200, 40)])))
  {
    var boxes := [Box(a, 0, 0), Box(b, 0, 80), Box(c, 200, 40)];
    NearestIsUnique(boxes, Across, 0, 2);
    NearestIsUnique(boxes, Across, 1, 2);
    assert Shares(NearestIn(boxes), Across, 0, 1);
    InferredSymmetricIff(boxes);
  }

  /** Two boxes of one name side by side: the screen is its own neighbour. */
  lemma TwinBoxesSelfLinked(name: string)
    ensures SelfLinked(LinkAll(map[], InferredLinks([Box(name, 40, 40), Box(name, 180, 40)])), name)
  {
    var boxes := [Box(name, 40, 40), Box(name, 180, 40)];
    NearestIsUnique(boxes, Across, 0, 1);
    assert forall j: nat :: !IsNearest(boxes, 2, Across, 1, j);
    assert LastBox(boxes, NearestIn(boxes), 2, name, Left, 0);
    BoxesSelfLinkedIff(boxes, name, Left);
  }

  // ----- in coordinates -----

  predicate InBand(u: int, v: int) {
    -50 < u - v < 50
  }

  /** Box j is the nearest on the right of box i, among boxes at its height. */
  predicate NextRight(boxes: seq<Box>, i: nat, j: nat)
    requires i < |boxes|
  {
    && j < |boxes| && boxes[j].x > boxes[i].x && InBand(boxes[j].y, boxes[i].y)
    && forall k | 0 <= k < |boxes| && boxes[i].x < boxes[k].x && InBand(boxes[k].y, boxes[i].y) ::
         boxes[j].x < boxes[k].x || (boxes[j].x == boxes[k].x && j <= k)
  }

  /** Box j is the nearest below box i; y grows downwards. */
  predicate NextBelow(boxes: seq<Box>, i: nat, j: nat)
    requires i < |boxes|
  {
    && j < |boxes| && boxes[j].y > boxes[i].y && InBand(boxes[j].x, boxes[i].x)
    && forall k | 0 <= k < |boxes| && boxes[i].y < boxes[k].y && InBand(boxes[k].x, boxes[i].x) ::
         boxes[j].y < boxes[k].y || (boxes[j].y == boxes[k].y && j <= k)
  }

  predicate Next(boxes: seq<Box>, axis: Axis, i: nat, j: nat)
    requires i < |boxes|
  {
    if axis.Across? then NextRight(boxes, i, j) else NextBelow(boxes, i, j)
  }

  lemma NearestIsNext(boxes: seq<Box>, axis: Axis, i: nat, j: nat)
    requires i < |boxes|
    ensures NearestBox(boxes, axis, i) == Some(j) <==> Next(boxes, axis, i, j)
  {
    assert forall k: nat | k < |boxes| && k != i && axis.Across? ::
      Faces(axis, boxes[i], boxes[k]) <==> boxes[k].x > boxes[i].x && InBand(boxes[k].y, boxes[i].y);
    assert forall k: nat | k < |boxes| && k != i && axis.Downwards? ::
      Faces(axis, boxes[i], boxes[k]) <==> boxes[k].y > boxes[i].y && InBand(boxes[k].x, boxes[i].x);
    assert IsNearest(boxes, |boxes|, axis, i, j) <==> Next(boxes, axis, i, j);
    if IsNearest(boxes, |boxes|, axis, i, j) {
      NearestIsUnique(boxes, axis, i, j);
    }
  }

  /**
   With distinct names the right edge of a box leads to the nearest box on its
   right and its bottom edge to the nearest box below, and to nothing else.
   */
  lemma {:induction false} DrawnNeighbours(boxes: seq<Box>, i: nat, other: string)
    requires DistinctBoxes(boxes) && i < |boxes|
    ensures Neighbor(LinkAll(map[], InferredLinks(boxes)), boxes[i].name, Right) == Some(other)
       <==> exists j: nat :: NextRight(boxes, i, j) && boxes[j].name == other
    ensures Neighbor(LinkAll(map[], InferredLinks(boxes)), boxes[i].name, Bottom) == Some(other)
       <==> exists j: nat :: NextBelow(boxes, i, j) && boxes[j].name == other
  {
    DrawnAhead(boxes, Across, i, other);
    DrawnAhead(boxes, Downwards, i, other);
  }

  lemma NothingAhead(boxes: seq<Box>, near: Near, axis: Axis, i: nat)
    requires DistinctBoxes(boxes) && i < |boxes| && near(axis, i) == None
    ensures SlotOf(boxes, near, |boxes|, boxes[i].name, EdgeOf(axis)) == None
  {
    var last := FindLastBox(boxes, near, |boxes|, boxes[i].name, EdgeOf(axis));
    if last.Some? {
      assert false;
    }
  }

  lemma {:induction false} DrawnAhead(boxes: seq<Box>, axis: Axis, i: nat, other: string)
    requires DistinctBoxes(boxes) && i < |boxes|
    ensures Neighbor(LinkAll(map[], InferredLinks(boxes)), boxes[i].name, if axis.Across? then Right else Bottom) == Some(other)
       <==> exists j: nat :: Next(boxes, axis, i, j) && boxes[j].name == other
  {
    var near, s, e := NearestIn(boxes), boxes[i].name, EdgeOf(axis);
    SlotsOfBoxes(boxes, near, |boxes|, s, e);
    var found := near(axis, i);
    if found.Some? {
      NearestIsNext(boxes, axis, i, found.value);
      SlotAhead(boxes, near, axis, i, found.value);
      assert forall j: nat | Next(boxes, axis, i, j) :: j == found.value;
    } else {
      NothingAhead(boxes, near, axis, i);
      forall j: nat ensures !Next(boxes, axis, i, j) {
        NearestIsNext(boxes, axis, i, j);
      }
    }
  }

  /** A box that is next to exactly one box is led back from on the left or the top. */
  lemma {:induction false} DrawnBack(boxes: seq<Box>, axis: Axis, i: nat, j: nat)
    requires DistinctBoxes(boxes) && i < |boxes| && Next(boxes, axis, i, j)
    requires forall k: nat | k < |boxes| && Next(boxes, axis, k, j) :: k == i
    ensures Neighbor(LinkAll(map[], InferredLinks(boxes)), boxes[j].name, if axis.Across? then Left else Top) == Some(boxes[i].name)
  {
    var near := NearestIn(boxes);
    NearestIsNext(boxes, axis, i, j);
    var k := SlotBehind(boxes, near, axis, i, j);
    NearestIsNext(boxes, axis, k, j);
    SlotsOfBoxes(boxes, near, |boxes|, boxes[j].name, EdgeOf(axis).Opposite());
  }

  /** One box above another. */
  lemma StackedBoxes(a: string, b: string)
    requires a != b
    ensures var links := LinkAll(map[], InferredLinks([Box(a, 40, 40), Box(b, 40, 160)]));
            Neighbor(links, a, Bottom) == Some(b) && Neighbor(links, b, Top) == Some(a)
            && Neighbor(links, a, Right) == None && Neighbor(links, b, Bottom) == None
  {
    var boxes := [Box(a, 40, 40), Box(b, 40, 160)];
    assert NextBelow(boxes, 0, 1);
    DrawnNeighbours(boxes, 0, b);
    DrawnBack(boxes, Downwards, 0, 1);
    forall other: string
      ensures Neighbor(LinkAll(map[], InferredLinks(boxes)), a, Right) != Some(other)
      ensures Neighbor(LinkAll(map[], InferredLinks(boxes)), b, Bottom) != Some(other)
    {
      DrawnNeighbours(boxes, 0, other);
      DrawnNeighbours(boxes, 1, other);
    }
  }

  // ----- the space of a configuration -----

  datatype Screen = Screen(name: string, width: int, height: int, isLocal: bool)

  const MIN_WIDTH := 320
  const MIN_HEIGHT := 240

  type Sizes = map<string, (int, int)>

  /** The virtual screen for the local one; otherwise the reported size or the configured. */
  function RectFor(s: Screen, virtual: Rect, reported: Sizes): Rect {
    if s.isLocal then virtual
    else if s.name in reported then Rect(0, 0, Max(reported[s.name].0, MIN_WIDTH), Max(reported[s.name].1, MIN_HEIGHT))
    else Rect(0, 0, Max(s.width, MIN_WIDTH), Max(s.height, MIN_HEIGHT))
  }

  function Rects(screens: seq<Screen>, virtual: Rect, reported: Sizes): map<string, Rect> {
    if screens == [] then map[]
    else
      var last := screens[|screens| - 1];
      Rects(screens[..|screens| - 1], virtual, reported)[last.name := RectFor(last, virtual, reported)]
  }

  predicate NamedIn(screens: seq<Screen>, name: string) {
    exists i :: 0 <= i < |screens| && screens[i].name == name
  }

  /** The last screen with a name counts. */
  predicate IsLast(screens: seq<Screen>, i: nat) {
    i < |screens| && forall j | i < j < |screens| :: screens[j].name != screens[i].name
  }

  lemma {:induction false} RectsAre(screens: seq<Screen>, virtual: Rect, reported: Sizes, n: string)
    requires virtual.Roomy()
    ensures var rects := Rects(screens, virtual, reported);
            && (n in rects <==> NamedIn(screens, n))
            && (n in rects ==> rects[n].Roomy())
            && forall i: nat | IsLast(screens, i) && screens[i].name == n ::
                 n in rects && rects[n] == RectFor(screens[i], virtual, reported)
  {
    if screens != [] {
      var last, front := |screens| - 1, screens[..|screens| - 1];
      RectsAre(front, virtual, reported, n);
      assert forall i | 0 <= i < last :: front[i] == screens[i];
      assert forall i: nat | IsLast(screens, i) && i < last :: IsLast(front, i);
      if screens[last].name == n {
        assert forall i: nat | IsLast(screens, i) && screens[i].name == n :: i == last;
      } else {
        assert NamedIn(screens, n) <==> NamedIn(front, n);
      }
    }
  }

  /** A remote screen has the size its peer reported, or else the configured one, but is at least 320 by 240. */
  lemma RemoteSize(s: Screen, virtual: Rect, reported: Sizes)
    ensures var r := RectFor(s, virtual, reported);
            var (w, h) := if s.name in reported then reported[s.name] else (s.width, s.height);
            if s.isLocal then r == virtual
            else r.left == 0 && r.top == 0 && r.right >= 320 && r.bottom >= 240
                 && (r.right == w || w < r.right == 320) && (r.bottom == h || h < r.bottom == 240)
  {
  }

  /** The loop of the original: a later screen replaces an earlier one of its name. */
  method BuildRects(screens: seq<Screen>, virtual: Rect, reported: Sizes) returns (rects: map<string, Rect>)
    ensures rects == Rects(screens, virtual, reported)
  {
    rects := map[];
    for i := 0 to |screens|
      invariant rects == Rects(screens[..i], virtual, reported)
    {
      assert screens[..i + 1][..i] == screens[..i];
      rects := rects[screens[i].name := RectFor(screens[i], virtual, reported)];
    }
    assert screens[..|screens|] == screens;
  }

  /** No local screen is an error; otherwise every configured screen has its rect. */
  method BuildSpace(screens: seq<Screen>, links: seq<Link>, virtual: Rect, reported: Sizes)
    returns (space: Option<MultiScreenSpace>)
    requires virtual.Roomy()
    ensures space.None? <==> forall s | s in screens :: !s.isLocal
    ensures space.Some? ==> space.value.Valid() && space.value.links == LinkAll(map[], links)
    ensures space.Some? ==> space.value.screens == Rects(screens, virtual, reported)
  {
    if forall s | s in screens :: !s.isLocal {
      return None;
    }
    var rects := BuildRects(screens, virtual, reported);
    var graph := BuildGraph(links);
    forall n | n in rects ensures rects[n].Roomy() {
      RectsAre(screens, virtual, reported, n);
    }
    space := Some(NewMultiScreenSpace(rects, graph.links));
  }
}
