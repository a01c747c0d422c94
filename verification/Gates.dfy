/**
 The gates an edge crossing passes: dwell debouncing
 (`SwitchGuard`, crates/tailkvm-win32/src/screen_space.rs), the freshness of a
 physical push (`PushGate`, crates/tailkvm-core/src/motion.rs) and the relative
 part of a raw mouse report (crates/tailkvm-win32/src/raw_input_mouse.rs).
 Times are whole milliseconds.
 */
module Gates {
  import opened Basics
  import opened Rounding
  import opened ScreenSpace

  const U64_MAX := 0xFFFF_FFFF_FFFF_FFFF
  const PUSH_FRESH_MS := 250

  // ----- dwell -----

  datatype Dwell = Dwell(dwellMs: nat, intervalMs: nat) {
    predicate Valid() {
      dwellMs <= U64_MAX && 1 <= intervalMs <= U64_MAX
    }

    /** One tick: the new accumulator, and whether the switch fires. */
    function Step(accumulated: nat, eligible: bool): (nat, bool) {
      if !eligible then (0, false)
      else
        var sum := Min(accumulated + intervalMs, U64_MAX);
        if sum >= dwellMs then (0, true) else (sum, false)
    }

    /** Eligible ticks needed for one firing: max(1, ceil(dwell / interval)). */
    function TicksToFire(): nat
      requires Valid()
    {
      Max(1, (dwellMs + intervalMs - 1) / intervalMs)
    }
  }

  class SwitchGuard {
    const config: Dwell
    var accumulatedMs: nat

    constructor (pace: Pace)
      requires pace.Valid()
      ensures config == pace.Guard() && accumulatedMs == 0
    {
      config := Dwell(pace.dwellMs, Max(pace.intervalMs, 1));
      accumulatedMs := 0;
    }

    method Update(atEdge: bool, nearCorner: bool) returns (fire: bool)
      modifies this
      ensures (accumulatedMs, fire) == config.Step(old(accumulatedMs), atEdge && !nearCorner)
    {
      if !atEdge || nearCorner {
        accumulatedMs := 0;
        return false;
      }
      accumulatedMs := Min(accumulatedMs + config.intervalMs, U64_MAX);
      if accumulatedMs >= config.dwellMs {
        accumulatedMs := 0;
        fire := true;
      } else {
        fire := false;
      }
    }
  }

  /** Length of the unbroken run of eligible ticks that ends a history. */
  function Streak(history: seq<bool>): nat {
    if history == [] || !history[|history| - 1] then 0 else 1 + Streak(history[..|history| - 1])
  }

  /** The accumulator after a history of ticks, starting from zero. */
  function Accumulated(d: Dwell, history: seq<bool>): nat {
    if history == [] then 0
    else d.Step(Accumulated(d, history[..|history| - 1]), history[|history| - 1]).0
  }

  /** Whether the last tick of a history fires. */
  predicate FiresLast(d: Dwell, history: seq<bool>)
    requires history != []
  {
    d.Step(Accumulated(d, history[..|history| - 1]), history[|history| - 1]).1
  }

  lemma ReachesDwell(d: Dwell, m: nat)
    requires d.Valid() && 1 <= m
    ensures d.intervalMs * m >= d.dwellMs <==> m >= d.TicksToFire()
  {
    var i, n := d.intervalMs, d.dwellMs + d.intervalMs - 1;
    var q := n / i;
    assert i * q <= n < i * q + i;
    if m >= q {
      MulMonotone(q, m, i);
    } else {
      MulMonotone(m, q - 1, i);
    }
  }

  /** From m eligible ticks the guard counts one more, and starts over at k. */
  lemma StepCounts(d: Dwell, m: nat, k: nat)
    requires d.Valid() && k == d.TicksToFire() && m < k
    ensures d.Step(d.intervalMs * m, true) == if m + 1 == k then (0, true) else (d.intervalMs * (m + 1), false)
  {
    ReachesDwell(d, m + 1);
    assert d.intervalMs * (m + 1) == d.intervalMs * m + d.intervalMs;
  }

  /**
   The guard is exactly a modular counter of the current eligible streak: a tick
   fires if and only if the streak it ends is a positive multiple of the number
   of ticks needed.
   */
  lemma {:induction false} FiresExactlyOnMultiples(d: Dwell, history: seq<bool>)
    requires d.Valid()
    ensures Accumulated(d, history) == d.intervalMs * (Streak(history) % d.TicksToFire())
    ensures history != [] ==>
      (FiresLast(d, history) <==> Streak(history) > 0 && Streak(history) % d.TicksToFire() == 0)
  {
    var k := d.TicksToFire();
    if history == [] {
      ModuloOfSum(0, 0, k);
    } else {
      var before := history[..|history| - 1];
      FiresExactlyOnMultiples(d, before);
      if history[|history| - 1] {
        NextModulo(Streak(before), k);
        StepCounts(d, Streak(before) % k, k);
      } else {
        ModuloOfSum(0, 0, k);
      }
    }
  }

  lemma NextModulo(n: nat, k: nat)
    requires 0 < k
    ensures (n + 1) % k == if n % k + 1 == k then 0 else n % k + 1
  {
    var q, r := n / k, n % k;
    assert n == q * k + r;
    if r + 1 == k {
      assert n + 1 == (q + 1) * k;
      ModuloOfSum(q + 1, 0, k);
    } else {
      ModuloOfSum(q, r + 1, k);
    }
  }

  lemma ModuloOfSum(q: nat, r: nat, k: nat)
    requires r < k
    ensures (q * k + r) % k == r && (q * k + r) / k == q
  {
    QuotientUnique(q * k + r, k, q);
  }

  function Ones(n: nat): seq<bool> {
    if n == 0 then [] else Ones(n - 1) + [true]
  }

  /** How many ticks of a history fire. */
  function Firings(d: Dwell, history: seq<bool>): nat {
    if history == [] then 0
    else Firings(d, history[..|history| - 1]) + if FiresLast(d, history) then 1 else 0
  }

  lemma {:induction false} StreakOfOnes(n: nat)
    ensures Streak(Ones(n)) == n
  {
    if n > 0 {
      StreakOfOnes(n - 1);
      assert Ones(n)[..|Ones(n)| - 1] == Ones(n - 1);
    }
  }

  /** n eligible ticks in a row fire exactly floor(n / k) times. */
  lemma {:induction false} FiringsOfARun(d: Dwell, n: nat)
    requires d.Valid()
    ensures Firings(d, Ones(n)) == n / d.TicksToFire()
  {
    var k := d.TicksToFire();
    if n > 0 {
      FiringsOfARun(d, n - 1);
      StreakOfOnes(n);
      FiresExactlyOnMultiples(d, Ones(n));
      assert Ones(n)[..|Ones(n)| - 1] == Ones(n - 1);
      NextQuotient(n - 1, k);
    } else {
      ModuloOfSum(0, 0, k);
    }
  }

  lemma NextQuotient(n: nat, k: nat)
    requires 0 < k
    ensures (n + 1) / k == n / k + if (n + 1) % k == 0 then 1 else 0
  {
    var q, r := n / k, n % k;
    assert n == q * k + r;
    if r + 1 == k {
      assert n + 1 == (q + 1) * k;
      ModuloOfSum(q + 1, 0, k);
    } else {
      ModuloOfSum(q, r + 1, k);
    }
  }

  /** The tick settings of a loop; an interval of zero counts as one. */
  datatype Pace = Pace(dwellMs: nat, intervalMs: nat) {
    predicate Valid() {
      dwellMs <= U64_MAX && intervalMs <= U64_MAX
    }

    function Guard(): (d: Dwell)
      requires Valid()
      ensures d.Valid() && d.dwellMs == dwellMs && (intervalMs > 0 ==> d.intervalMs == intervalMs)
    {
      Dwell(dwellMs, Max(intervalMs, 1))
    }
  }

  // ----- places at the edges of a rect -----

  predicate AtEdge(p: Point, r: Rect, margin: int, e: Edge) {
    match e
    case Right => p.0 >= r.right - 1 - margin
    case Left => p.0 <= r.left + margin
    case Top => p.1 <= r.top + margin
    case Bottom => p.1 >= r.bottom - 1 - margin
  }

  /** Near an end of the edge; a dead corner of zero pixels is none. */
  predicate NearCorner(p: Point, r: Rect, dead: int, e: Edge) {
    dead > 0 &&
    if e.Left? || e.Right? then p.1 <= r.top + dead || p.1 >= r.bottom - 1 - dead
    else p.0 <= r.left + dead || p.0 >= r.right - 1 - dead
  }

  /** At an edge: no more than the margin inside it. */
  lemma AtEdgeIff(p: Point, r: Rect, margin: int, e: Edge)
    ensures AtEdge(p, r, margin, e) <==> Depth(r, e, p.0, p.1) <= margin
  {
  }

  predicate Adjoins(o: Edge, e: Edge) {
    o != e && o != e.Opposite()
  }

  /** Near a corner: no more than the dead zone inside one of the two adjoining edges. */
  lemma NearCornerIff(p: Point, r: Rect, dead: int, e: Edge)
    ensures NearCorner(p, r, dead, e) <==> dead > 0 && exists o: Edge :: Adjoins(o, e) && Depth(r, o, p.0, p.1) <= dead
  {
    var (a, b) := if e.Left? || e.Right? then (Edge.Top, Edge.Bottom) else (Edge.Left, Edge.Right);
    assert Adjoins(a, e) && Adjoins(b, e) && forall o: Edge | Adjoins(o, e) :: o == a || o == b;
  }

  // ----- physical pushes -----

  /** Index order of the original: right, left, top, bottom. */
  function PushDir(e: Edge): nat {
    match e
    case Right => 0
    case Left => 1
    case Top => 2
    case Bottom => 3
  }

  predicate Towards(e: Edge, dx: int, dy: int) {
    match e
    case Right => dx > 0
    case Left => dx < 0
    case Top => dy < 0
    case Bottom => dy > 0
  }

  type Pushes = s: seq<Option<int>> | |s| == 4 witness [None, None, None, None]

  const NO_PUSH: Pushes := [None, None, None, None]

  function Recorded(last: Pushes, dx: int, dy: int, now: int): (r: Pushes)
    ensures forall e :: r[PushDir(e)] == if Towards(e, dx, dy) then Some(now) else last[PushDir(e)]
  {
    var a := if dx > 0 then last[0 := Some(now)] else last;
    var b := if dx < 0 then a[1 := Some(now)] else a;
    var c := if dy < 0 then b[2 := Some(now)] else b;
    if dy > 0 then c[3 := Some(now)] else c
  }

  /** Saturating subtraction: a clock running backwards counts as fresh. */
  predicate Fresh(last: Pushes, e: Edge, now: int) {
    var t := last[PushDir(e)];
    t.Some? && Max(now - t.value, 0) <= PUSH_FRESH_MS
  }

  class PushGate {
    const last: array<Option<int>>

    ghost predicate Valid()
      reads this
    {
      last.Length == 4
    }

    constructor ()
      ensures Valid() && fresh(last) && last[..] == NO_PUSH
    {
      last := new Option<int>[4](_ => None);
    }

    method RecordDelta(dx: int, dy: int, now: int)
      requires Valid()
      modifies last
      ensures Valid() && last[..] == Recorded(old(last[..]), dx, dy, now)
    {
      if dx > 0 {
        last[0] := Some(now);
      }
      if dx < 0 {
        last[1] := Some(now);
      }
      if dy < 0 {
        last[2] := Some(now);
      }
      if dy > 0 {
        last[3] := Some(now);
      }
    }

    predicate IsFresh(e: Edge, now: int)
      requires Valid()
      reads this, last
      ensures IsFresh(e, now) <==> Fresh(last[..], e, now)
    {
      var t := last[PushDir(e)];
      t.Some? && Max(now - t.value, 0) <= PUSH_FRESH_MS
    }
  }

  // ----- both gates over a history -----

  /** One evaluation of the edges: the outcome, the net push drained, the time. */
  datatype Evaluation = Evaluation(eligible: bool, push: (int, int), now: int)

  function Eligibilities(evs: seq<Evaluation>): seq<bool> {
    if evs == [] then [] else Eligibilities(evs[..|evs| - 1]) + [evs[|evs| - 1].eligible]
  }

  function PushesAfter(evs: seq<Evaluation>): Pushes {
    if evs == [] then NO_PUSH
    else
      var last := evs[|evs| - 1];
      Recorded(PushesAfter(evs[..|evs| - 1]), last.push.0, last.push.1, last.now)
  }

  predicate PushedAt(evs: seq<Evaluation>, j: int, e: Edge) {
    0 <= j < |evs| && Towards(e, evs[j].push.0, evs[j].push.1)
  }

  /** What the gate remembers is the last evaluation with a net push toward the edge. */
  lemma {:induction false} PushRemembered(evs: seq<Evaluation>, e: Edge)
    ensures var p := PushesAfter(evs)[PushDir(e)];
            && (p.None? ==> forall j :: !PushedAt(evs, j, e))
            && (p.Some? ==> exists j :: PushedAt(evs, j, e) && evs[j].now == p.value && forall k | j < k :: !PushedAt(evs, k, e))
  {
    if evs != [] {
      var n, front := |evs| - 1, evs[..|evs| - 1];
      PushRemembered(front, e);
      assert forall j | 0 <= j < n :: front[j] == evs[j];
      assert forall j | j < n :: PushedAt(front, j, e) <==> PushedAt(evs, j, e);
      if PushedAt(evs, n, e) {
        assert forall k | n < k :: !PushedAt(evs, k, e);
      } else {
        assert forall j :: PushedAt(evs, j, e) ==> PushedAt(front, j, e);
        if PushesAfter(front)[PushDir(e)].Some? {
          var j :| PushedAt(front, j, e) && front[j].now == PushesAfter(front)[PushDir(e)].value
                   && forall k | j < k :: !PushedAt(front, k, e);
          assert PushedAt(evs, j, e);
        }
      }
    }
  }

  /** Some evaluation at most 250 ms ago drained a net push toward the edge. */
  ghost predicate PushedRecently(evs: seq<Evaluation>, e: Edge, now: int) {
    exists j :: PushedAt(evs, j, e) && now - evs[j].now <= PUSH_FRESH_MS
  }

  /** A push that counts as fresh was drained recently. */
  lemma FreshPush(evs: seq<Evaluation>, e: Edge, now: int)
    requires Fresh(PushesAfter(evs), e, now)
    ensures PushedRecently(evs, e, now)
  {
    PushRemembered(evs, e);
  }

  /** Fresh exactly if the last push toward the edge was drained at most 250 ms ago. */
  lemma FreshIff(evs: seq<Evaluation>, e: Edge, now: int)
    ensures Fresh(PushesAfter(evs), e, now) <==>
            exists j :: PushedAt(evs, j, e) && now - evs[j].now <= 250 && forall k | j < k :: !PushedAt(evs, k, e)
  {
    PushRemembered(evs, e);
    if j :| PushedAt(evs, j, e) && now - evs[j].now <= 250 && forall k | j < k :: !PushedAt(evs, k, e) {
      var p := PushesAfter(evs)[PushDir(e)];
      var i :| PushedAt(evs, i, e) && evs[i].now == p.value && forall k | i < k :: !PushedAt(evs, k, e);
      assert i == j;
    }
  }

  /** The state of both gates after a history of evaluations. */
  ghost predicate GatesAfter(d: Dwell, pushes: Pushes, accumulated: nat, evs: seq<Evaluation>) {
    pushes == PushesAfter(evs) && accumulated == Accumulated(d, Eligibilities(evs))
  }

  /** The history so far ends an eligible streak of a whole number of dwells. */
  predicate DwellComplete(d: Dwell, evs: seq<Evaluation>)
    requires d.Valid()
  {
    var streak := Streak(Eligibilities(evs)); streak > 0 && streak % d.TicksToFire() == 0
  }

  lemma {:induction false} StreakIsEligible(history: seq<bool>, n: nat)
    requires n <= Streak(history)
    ensures n <= |history| && forall i | |history| - n <= i < |history| :: history[i]
  {
    if n > 0 {
      StreakIsEligible(history[..|history| - 1], n - 1);
    }
  }

  lemma {:induction false} EligibilityOf(evs: seq<Evaluation>)
    ensures |Eligibilities(evs)| == |evs| && forall i | 0 <= i < |evs| :: Eligibilities(evs)[i] == evs[i].eligible
  {
    if evs != [] {
      EligibilityOf(evs[..|evs| - 1]);
    }
  }

  lemma MultipleIsAtLeast(n: nat, k: nat)
    requires 0 < k && 0 < n && n % k == 0
    ensures k <= n
  {
    assert n == (n / k) * k;
    MulMonotone(1, n / k, k);
  }

  /** A complete dwell means that the last k evaluations were all eligible. */
  lemma LastTicksEligible(d: Dwell, evs: seq<Evaluation>)
    requires d.Valid() && DwellComplete(d, evs)
    ensures var k := d.TicksToFire();
            k <= |evs| && forall i | |evs| - k <= i < |evs| :: evs[i].eligible
  {
    var k, streak := d.TicksToFire(), Streak(Eligibilities(evs));
    MultipleIsAtLeast(streak, k);
    StreakIsEligible(Eligibilities(evs), k);
    EligibilityOf(evs);
  }

  lemma EvaluateNext(d: Dwell, pushes: Pushes, accumulated: nat, evs: seq<Evaluation>, ev: Evaluation)
    requires d.Valid() && GatesAfter(d, pushes, accumulated, evs)
    ensures GatesAfter(d, Recorded(pushes, ev.push.0, ev.push.1, ev.now), d.Step(accumulated, ev.eligible).0, evs + [ev])
    ensures d.Step(accumulated, ev.eligible).1 <==> DwellComplete(d, evs + [ev])
  {
    var all := Eligibilities(evs + [ev]);
    assert (evs + [ev])[..|evs|] == evs;
    assert all[..|all| - 1] == Eligibilities(evs);
    FiresExactlyOnMultiples(d, all);
    assert FiresLast(d, all) == d.Step(accumulated, ev.eligible).1;
  }

  // ----- raw reports -----

  datatype RawReport = RawReport(usFlags: nat, lastX: int, lastY: int)

  /** Bit 0 of `usFlags`: the device reports absolute coordinates. */
  predicate IsAbsoluteReport(r: RawReport) {
    r.usFlags % 2 == 1
  }

  function RelativeDelta(r: RawReport): Option<(int, int)> {
    if IsAbsoluteReport(r) then None
    else if r.lastX == 0 && r.lastY == 0 then None
    else Some((r.lastX, r.lastY))
  }

  /** The deltas that the raw-input thread puts on the channel. */
  function Deltas(reports: seq<RawReport>): seq<(int, int)> {
    if reports == [] then []
    else
      var d := RelativeDelta(reports[|reports| - 1]);
      Deltas(reports[..|reports| - 1]) + if d.Some? then [d.value] else []
  }

  function SumX(ds: seq<(int, int)>): int {
    if ds == [] then 0 else SumX(ds[..|ds| - 1]) + ds[|ds| - 1].0
  }

  function SumY(ds: seq<(int, int)>): int {
    if ds == [] then 0 else SumY(ds[..|ds| - 1]) + ds[|ds| - 1].1
  }

  /** Draining the channel adds the deltas up. */
  method AddUp(queue: seq<(int, int)>) returns (dx: int, dy: int)
    ensures dx == SumX(queue) && dy == SumY(queue)
  {
    dx, dy := 0, 0;
    for i := 0 to |queue|
      invariant dx == SumX(queue[..i]) && dy == SumY(queue[..i])
    {
      assert queue[..i + 1][..i] == queue[..i];
      dx, dy := dx + queue[i].0, dy + queue[i].1;
    }
    assert queue[..|queue|] == queue;
  }

  lemma {:induction false} AbsoluteReportsYieldNothing(reports: seq<RawReport>)
    requires forall r | r in reports :: IsAbsoluteReport(r)
    ensures Deltas(reports) == []
  {
    if reports != [] {
      AbsoluteReportsYieldNothing(reports[..|reports| - 1]);
    }
  }

  /** The motion in some reports: that of all but the absolute ones. */
  function Motion(reports: seq<RawReport>): Point {
    if reports == [] then (0, 0)
    else
      var rest := Motion(reports[1..]);
      if reports[0].usFlags % 2 == 1 then rest else (reports[0].lastX + rest.0, reports[0].lastY + rest.1)
  }

  lemma {:induction false} MotionLast(reports: seq<RawReport>, r: RawReport)
    ensures var before, all := Motion(reports), Motion(reports + [r]);
            all == if r.usFlags % 2 == 1 then before else (before.0 + r.lastX, before.1 + r.lastY)
  {
    if reports == [] {
      assert reports + [r] == [r] && [r][1..] == [];
    } else {
      assert (reports + [r])[1..] == reports[1..] + [r];
      MotionLast(reports[1..], r);
    }
  }

  lemma SumLast(ds: seq<(int, int)>, d: (int, int))
    ensures SumX(ds + [d]) == SumX(ds) + d.0 && SumY(ds + [d]) == SumY(ds) + d.1
  {
    assert (ds + [d])[..|ds|] == ds;
  }

  /** What is drained is the motion reported. */
  lemma {:induction false} DeltasAddUp(reports: seq<RawReport>)
    ensures (SumX(Deltas(reports)), SumY(Deltas(reports))) == Motion(reports)
  {
    if reports != [] {
      var front, r := reports[..|reports| - 1], reports[|reports| - 1];
      DeltasAddUp(front);
      MotionLast(front, r);
      assert reports == front + [r];
      if RelativeDelta(r).Some? {
        SumLast(Deltas(front), RelativeDelta(r).value);
      } else {
        assert Deltas(front) + [] == Deltas(front);
      }
    }
  }

  // ----- one push -----

  /** A push of five units toward an edge, and a place at that edge. */
  function PushAt(r: Rect, margin: int, e: Edge): (Point, Point) {
    match e
    case Right => ((5, 0), (r.right - 1 - margin, r.top))
    case Left => ((-5, 0), (r.left + margin, r.top))
    case Top => ((0, -5), (r.left, r.top + margin))
    case Bottom => ((0, 5), (r.left, r.bottom - 1 - margin))
  }

  lemma OneReport(d: Point)
    requires d != (0, 0)
    ensures Deltas([RawReport(0, d.0, d.1)]) == [d]
  {
    var reports := [RawReport(0, d.0, d.1)];
    assert reports[..0] == [] && Deltas([]) == [];
  }

  lemma OneSum(d: Point)
    ensures SumX([d]) == d.0 && SumY([d]) == d.1
  {
    assert [d][..0] == [];
  }
}
