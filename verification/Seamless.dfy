/**
 The seamless capture loop (`run_seamless_capture`,
 apps/tailkvm-ui/src-tauri/src/seamless.rs): it follows the real cursor until a
 crossing is earned, then steers the remote cursor with raw deltas until the
 model returns to local or the link is lost. Each tick, everything outside is
 chosen anew.
 */
module Seamless {
  import opened Basics
  import opened ScreenSpace
  import opened Gates
  import opened Watchdog

  const LINK_LOST_MS := 1500
  const KEEPALIVE_MS := 100

  datatype Setup = Setup(
    edge: Edge,
    edgeMargin: int,
    deadCorner: int,
    peerRect: Option<Rect>,
    attachMonitor: Option<Rect>,
    localMonitors: seq<Rect>,
    remoteWidth: int,
    remoteHeight: int,
    gain: real,
    pace: Pace)
  {
    /** The callers clamp the remote size from below. */
    predicate Valid() {
      remoteWidth >= 320 && remoteHeight >= 240 && pace.Valid()
    }

    function Speed(): real {
      if gain > 0.0 then gain else 1.0
    }
  }

  datatype Peer = Peer(width: int, height: int, monitors: seq<Rect>)

  /** `monitor` is the one the cursor is on; `sends` is whether a send gets through. */
  datatype Tick = Tick(
    reports: seq<RawReport>,
    cursor: Option<Point>,
    monitor: Rect,
    now: int,
    linkUp: bool,
    sends: bool,
    peer: Option<Peer>)

  /** While a remote is controlled: its space, its monitors, the logical cursor. */
  datatype RemoteSide = RemoteSide(space: CombinedSpace, monitors: seq<Rect>, at: Point)

  datatype Engine = Engine(
    queue: seq<(int, int)>,
    pushes: Pushes,
    accumulated: nat,
    remote: Option<RemoteSide>,
    carryX: real,
    carryY: real,
    downSince: Option<int>,
    lastSend: int)

  function NewEngine(now: int): Engine {
    Engine([], NO_PUSH, 0, None, 0.0, 0.0, None, now)
  }

  /** What a tick did. `raw` is what it drained, `emitted` what it applied. */
  datatype Effect =
    | Idle
    | Watched(seen: Evaluation)
    | Crossed(edge: Edge, seen: Evaluation, side: RemoteSide)
    | LinkLost(now: int, linkUp: bool)
    | Returned(raw: Point, emitted: Point, now: int, linkUp: bool, landing: Point)
    | Moved(raw: Point, emitted: Point, now: int, linkUp: bool, sends: bool, side: RemoteSide)
    | Rested(raw: Point, now: int, linkUp: bool, resent: Option<RemoteSide>)

  // ----- where a crossing is possible -----

  const PEER_TOLERANCE := 6
  const MONITOR_TOLERANCE := 2

  function Abs(n: int): int {
    if n < 0 then -n else n
  }

  /** The peer's rectangle lies flush against this edge of the monitor. */
  predicate PeerAdjacent(mon: Rect, e: Edge, peer: Rect) {
    var overX := Min(mon.right, peer.right) - Max(mon.left, peer.left);
    var overY := Min(mon.bottom, peer.bottom) - Max(mon.top, peer.top);
    match e
    case Bottom => Abs(peer.top - mon.bottom) <= PEER_TOLERANCE && overX > 0
    case Top => Abs(mon.top - peer.bottom) <= PEER_TOLERANCE && overX > 0
    case Right => Abs(peer.left - mon.right) <= PEER_TOLERANCE && overY > 0
    case Left => Abs(mon.left - peer.right) <= PEER_TOLERANCE && overY > 0
  }

  /** Monitor `n` continues the desktop across this edge. */
  predicate Continues(mon: Rect, e: Edge, n: Rect) {
    match e
    case Bottom => Abs(n.top - mon.bottom) <= MONITOR_TOLERANCE && n.left < mon.right && n.right > mon.left
    case Top => Abs(n.bottom - mon.top) <= MONITOR_TOLERANCE && n.left < mon.right && n.right > mon.left
    case Right => Abs(n.left - mon.right) <= MONITOR_TOLERANCE && n.top < mon.bottom && n.bottom > mon.top
    case Left => Abs(n.right - mon.left) <= MONITOR_TOLERANCE && n.top < mon.bottom && n.bottom > mon.top
  }

  predicate IsOuterEdge(mon: Rect, e: Edge, monitors: seq<Rect>) {
    forall n | n in monitors :: n != mon ==> !Continues(mon, e, n)
  }

  predicate Allowed(c: Setup, mon: Rect, e: Edge) {
    if c.peerRect.Some? then PeerAdjacent(mon, e, c.peerRect.value)
    else e == c.edge && (c.attachMonitor.Some? ==> mon == c.attachMonitor.value) && IsOuterEdge(mon, e, c.localMonitors)
  }

  /** The place and the layout permit crossing here. */
  predicate Open(c: Setup, p: Point, mon: Rect, e: Edge) {
    AtEdge(p, mon, c.edgeMargin, e) && Allowed(c, mon, e) && !NearCorner(p, mon, c.deadCorner, e)
  }

  predicate Ready(c: Setup, pushes: Pushes, now: int, p: Point, mon: Rect, e: Edge) {
    Open(c, p, mon, e) && Fresh(pushes, e, now)
  }

  /** The first edge that is ready, in the order the loop tries them. */
  function FirstReady(c: Setup, pushes: Pushes, now: int, p: Point, mon: Rect): (r: Option<Edge>)
    ensures r.Some? ==> Ready(c, pushes, now, p, mon, r.value)
    ensures r.None? ==> forall e :: !Ready(c, pushes, now, p, mon, e)
    ensures r.Some? ==> forall e | PushDir(e) < PushDir(r.value) :: !Ready(c, pushes, now, p, mon, e)
  {
    if Ready(c, pushes, now, p, mon, Right) then Some(Right)
    else if Ready(c, pushes, now, p, mon, Left) then Some(Left)
    else if Ready(c, pushes, now, p, mon, Top) then Some(Top)
    else if Ready(c, pushes, now, p, mon, Bottom) then Some(Bottom)
    else None
  }

  // ----- one tick -----

  function Trunc(r: real): int {
    if r >= 0.0 then r.Floor else -((-r).Floor)
  }

  function Drained(queue: seq<(int, int)>): Point {
    (SumX(queue), SumY(queue))
  }

  function RemoteRect(c: Setup, peer: Option<Peer>): Rect {
    if peer.Some? && peer.value.width > 320 && peer.value.height > 240
    then Rect(0, 0, peer.value.width, peer.value.height)
    else Rect(0, 0, c.remoteWidth, c.remoteHeight)
  }

  /** The entry point, moved onto a real monitor of the peer. */
  function Entered(c: Setup, t: Tick, p: Point, e: Edge): RemoteSide {
    var space := NewCombinedSpace(t.monitor, RemoteRect(c, t.peer), e);
    var monitors := if t.peer.Some? then t.peer.value.monitors else [];
    var st := space.EnterRemoteAt(p.0, p.1);
    RemoteSide(space, monitors, ClampPoint(st.x, st.y, monitors))
  }

  function LocalTick(c: Setup, s: Engine, t: Tick): (Engine, Effect)
    requires c.Valid()
  {
    if t.cursor.None? then (s, Idle)
    else
      var push := Drained(s.queue);
      var pushes := Recorded(s.pushes, push.0, push.1, t.now);
      var e := FirstReady(c, pushes, t.now, t.cursor.value, t.monitor);
      var (accumulated, fire) := c.pace.Guard().Step(s.accumulated, e.Some? && t.linkUp);
      var after := s.(queue := [], pushes := pushes, accumulated := accumulated);
      var seen := Evaluation(e.Some? && t.linkUp, push, t.now);
      if !fire then (after, Watched(seen))
      else
        var side := Entered(c, t, t.cursor.value, e.value);
        (after.(remote := Some(side), downSince := None, lastSend := t.now), Crossed(e.value, seen, side))
  }

  function DownSince(s: Engine, t: Tick): Option<int> {
    if !t.linkUp && s.downSince.None? then Some(t.now) else s.downSince
  }

  function Scaled(c: Setup, raw: int, carry: real): real {
    raw as real * c.Speed() + carry
  }

  predicate Sane(s: Engine) {
    s.remote.Some? ==> s.remote.value.space.Valid()
  }

  function RemoteTick(c: Setup, s: Engine, t: Tick): (Engine, Effect)
    requires s.remote.Some? && Sane(s)
  {
    var down := DownSince(s, t);
    if Expired(down, t.now, LINK_LOST_MS) then (s.(remote := None, downSince := None), LinkLost(t.now, t.linkUp))
    else
      var raw := Drained(s.queue);
      var x, y := Scaled(c, raw.0, s.carryX), Scaled(c, raw.1, s.carryY);
      var emitted := (Trunc(x), Trunc(y));
      var after := s.(queue := [], carryX := x - emitted.0 as real, carryY := y - emitted.1 as real, downSince := down);
      if emitted == (0, 0) then AtRest(after, raw, t) else Steered(after, raw, emitted, t)
  }

  /** A static stretch: the position is sent again now and then. */
  function AtRest(s: Engine, raw: Point, t: Tick): (Engine, Effect)
    requires s.remote.Some?
  {
    if t.now - s.lastSend < KEEPALIVE_MS then (s, Rested(raw, t.now, t.linkUp, None))
    else (if t.sends then s.(lastSend := t.now) else s, Rested(raw, t.now, t.linkUp, s.remote))
  }

  function Steered(s: Engine, raw: Point, emitted: Point, t: Tick): (Engine, Effect)
    requires s.remote.Some? && Sane(s)
  {
    var side := s.remote.value;
    var (next, switched) := side.space.ApplyDelta(CursorState(Remote, side.at.0, side.at.1), emitted.0, emitted.1);
    if switched then (s.(remote := None), Returned(raw, emitted, t.now, t.linkUp, (next.x, next.y)))
    else
      var to := side.(at := ClampPoint(next.x, next.y, side.monitors));
      (s.(remote := Some(to),
          downSince := if t.sends then None else if s.downSince.None? then Some(t.now) else s.downSince,
          lastSend := if t.sends then t.now else s.lastSend),
       Moved(raw, emitted, t.now, t.linkUp, t.sends, to))
  }

  function Step(c: Setup, s: Engine, t: Tick): (Engine, Effect)
    requires c.Valid() && Sane(s)
  {
    var arrived := s.(queue := s.queue + Deltas(t.reports));
    if s.remote.None? then LocalTick(c, arrived, t) else RemoteTick(c, arrived, t)
  }

  /** Monitors are large enough for the entry inset. */
  predicate Usual(ticks: seq<Tick>) {
    forall t | t in ticks :: t.monitor.Roomy()
  }

  lemma StepSane(c: Setup, s: Engine, t: Tick)
    requires c.Valid() && Sane(s) && t.monitor.Roomy()
    ensures Sane(Step(c, s, t).0)
  {
  }

  function Run(c: Setup, s: Engine, ticks: seq<Tick>): (r: (Engine, seq<Effect>))
    requires c.Valid() && Sane(s) && Usual(ticks)
    ensures Sane(r.0) && |r.1| == |ticks|
  {
    if ticks == [] then (s, [])
    else
      var front, last := ticks[..|ticks| - 1], ticks[|ticks| - 1];
      var before := Run(c, s, front);
      StepSane(c, before.0, last);
      var (after, effect) := Step(c, before.0, last);
      (after, before.1 + [effect])
  }

  // ----- every position sent is on the remote screen -----

  /** On a real monitor if one is known, and otherwise inside the remote rect. */
  ghost predicate Placed(side: RemoteSide) {
    if SomeNonDegenerate(side.monitors) then OnSome(side.at, side.monitors)
    else side.space.remote.Contains(side.at.0, side.at.1)
  }

  function SentSide(e: Effect): Option<RemoteSide> {
    match e
    case Crossed(_, _, side) => Some(side)
    case Moved(_, _, _, _, _, side) => Some(side)
    case Rested(_, _, _, resent) => resent
    case _ => None
  }

  ghost predicate RemotePlaced(s: Engine) {
    Sane(s) && (s.remote.Some? ==> Placed(s.remote.value))
  }

  lemma EnteredPlaced(c: Setup, t: Tick, p: Point, e: Edge)
    requires c.Valid() && t.monitor.Roomy()
    ensures Placed(Entered(c, t, p, e))
  {
    var side := Entered(c, t, p, e);
    var st := side.space.EnterRemoteAt(p.0, p.1);
    EntryInside(side.space, p.0, p.1);
    ClampPointIsProjection(st.x, st.y, side.monitors);
  }

  lemma SteeredPlaced(s: Engine, raw: Point, emitted: Point, t: Tick)
    requires s.remote.Some? && RemotePlaced(s)
    ensures var (after, effect) := Steered(s, raw, emitted, t);
            RemotePlaced(after) && (effect.Moved? ==> after.remote == Some(effect.side))
  {
    var side := s.remote.value;
    var st := CursorState(Remote, side.at.0, side.at.1);
    ApplyDeltaStaysInside(side.space, st, emitted.0, emitted.1);
    var next := side.space.ApplyDelta(st, emitted.0, emitted.1).0;
    ClampPointIsProjection(next.x, next.y, side.monitors);
  }

  lemma LocalPlaced(c: Setup, s: Engine, t: Tick)
    requires c.Valid() && s.remote == None && t.monitor.Roomy()
    ensures var (after, effect) := LocalTick(c, s, t);
            RemotePlaced(after) && (SentSide(effect).Some? ==> Placed(SentSide(effect).value))
  {
    var e := LocalTick(c, s, t).1;
    if e.Crossed? {
      EnteredPlaced(c, t, t.cursor.value, e.edge);
    }
  }

  lemma RemoteStaysPlaced(c: Setup, s: Engine, t: Tick)
    requires s.remote.Some? && RemotePlaced(s)
    ensures var (after, effect) := RemoteTick(c, s, t);
            RemotePlaced(after) && (SentSide(effect).Some? ==> Placed(SentSide(effect).value))
  {
    var e := RemoteTick(c, s, t).1;
    if e.Moved? || e.Returned? {
      var x, y := Scaled(c, e.raw.0, s.carryX), Scaled(c, e.raw.1, s.carryY);
      var mid := s.(queue := [], carryX := x - e.emitted.0 as real, carryY := y - e.emitted.1 as real, downSince := DownSince(s, t));
      SteeredPlaced(mid, e.raw, e.emitted, t);
    }
  }

  lemma StepPlaced(c: Setup, s: Engine, t: Tick)
    requires c.Valid() && RemotePlaced(s) && t.monitor.Roomy()
    ensures var (after, effect) := Step(c, s, t);
            RemotePlaced(after) && (SentSide(effect).Some? ==> Placed(SentSide(effect).value))
  {
    var arrived := s.(queue := s.queue + Deltas(t.reports));
    if s.remote.None? {
      LocalPlaced(c, arrived, t);
    } else {
      RemoteStaysPlaced(c, arrived, t);
    }
  }

  /**
   Over every run, each position sent - on entry, on a move, to keep the link
   warm - is on a real monitor of the peer if one is known, and inside the
   remote screen otherwise.
   */
  lemma {:induction false} EveryPositionPlaced(c: Setup, s: Engine, ticks: seq<Tick>)
    requires c.Valid() && RemotePlaced(s) && Usual(ticks)
    ensures var (end, effects) := Run(c, s, ticks);
            RemotePlaced(end) && forall i | 0 <= i < |effects| :: SentSide(effects[i]).Some? ==> Placed(SentSide(effects[i]).value)
  {
    if ticks != [] {
      var front := ticks[..|ticks| - 1];
      EveryPositionPlaced(c, s, front);
      StepPlaced(c, Run(c, s, front).0, ticks[|ticks| - 1]);
    }
  }

  // ----- nothing is lost to rounding -----

  function RawOf(e: Effect): Point {
    if e.Returned? || e.Moved? || e.Rested? then e.raw else (0, 0)
  }

  function EmittedOf(e: Effect): Point {
    if e.Returned? || e.Moved? then e.emitted else (0, 0)
  }

  function TotalRaw(effects: seq<Effect>): Point {
    if effects == [] then (0, 0) else Plus(TotalRaw(effects[..|effects| - 1]), RawOf(effects[|effects| - 1]))
  }

  function TotalEmitted(effects: seq<Effect>): Point {
    if effects == [] then (0, 0) else Plus(TotalEmitted(effects[..|effects| - 1]), EmittedOf(effects[|effects| - 1]))
  }

  function Plus(p: Point, q: Point): Point {
    (p.0 + q.0, p.1 + q.1)
  }

  predicate SmallCarry(s: Engine) {
    -1.0 < s.carryX < 1.0 && -1.0 < s.carryY < 1.0
  }

  lemma TruncIsClose(r: real)
    ensures -1.0 < r - Trunc(r) as real < 1.0
  {
  }

  /** One axis: what was applied and what is carried on make up the scaled value. */
  predicate Conserves(c: Setup, raw: int, emitted: int, before: real, after: real) {
    emitted as real + after == Scaled(c, raw, before)
  }

  lemma ZeroConserves(c: Setup, carry: real)
    ensures Conserves(c, 0, 0, carry, carry)
  {
    assert 0.0 * c.Speed() == 0.0;
  }

  lemma SteeredKeepsCarry(s: Engine, raw: Point, emitted: Point, t: Tick)
    requires s.remote.Some? && Sane(s)
    ensures var (after, e) := Steered(s, raw, emitted, t);
            after.carryX == s.carryX && after.carryY == s.carryY && RawOf(e) == raw && EmittedOf(e) == emitted
  {
  }

  lemma RemoteConserves(c: Setup, s: Engine, t: Tick)
    requires s.remote.Some? && Sane(s) && SmallCarry(s)
    ensures var (after, e) := RemoteTick(c, s, t);
            && SmallCarry(after)
            && Conserves(c, RawOf(e).0, EmittedOf(e).0, s.carryX, after.carryX)
            && Conserves(c, RawOf(e).1, EmittedOf(e).1, s.carryY, after.carryY)
  {
    var raw := Drained(s.queue);
    var x, y := Scaled(c, raw.0, s.carryX), Scaled(c, raw.1, s.carryY);
    var emitted := (Trunc(x), Trunc(y));
    var mid := s.(queue := [], carryX := x - emitted.0 as real, carryY := y - emitted.1 as real, downSince := DownSince(s, t));
    TruncIsClose(x);
    TruncIsClose(y);
    ZeroConserves(c, s.carryX);
    ZeroConserves(c, s.carryY);
    SteeredKeepsCarry(mid, raw, emitted, t);
  }

  lemma StepConserves(c: Setup, s: Engine, t: Tick)
    requires c.Valid() && Sane(s) && SmallCarry(s)
    ensures var (after, e) := Step(c, s, t);
            && SmallCarry(after)
            && Conserves(c, RawOf(e).0, EmittedOf(e).0, s.carryX, after.carryX)
            && Conserves(c, RawOf(e).1, EmittedOf(e).1, s.carryY, after.carryY)
  {
    var arrived := s.(queue := s.queue + Deltas(t.reports));
    if s.remote.None? {
      ZeroConserves(c, s.carryX);
      ZeroConserves(c, s.carryY);
      assert RawOf(LocalTick(c, arrived, t).1) == (0, 0);
    } else {
      RemoteConserves(c, arrived, t);
    }
  }

  lemma ConservesAppend(c: Setup, raw1: int, emitted1: int, raw2: int, emitted2: int, before: real, mid: real, after: real)
    requires Conserves(c, raw1, emitted1, before, mid) && Conserves(c, raw2, emitted2, mid, after)
    ensures Conserves(c, raw1 + raw2, emitted1 + emitted2, before, after)
  {
    var v := c.Speed();
    assert (raw1 + raw2) as real == raw1 as real + raw2 as real;
    assert (raw1 as real + raw2 as real) * v == raw1 as real * v + raw2 as real * v;
  }

  /** Both axes at once. */
  ghost predicate Balanced(c: Setup, raw: Point, emitted: Point, s: Engine, after: Engine) {
    Conserves(c, raw.0, emitted.0, s.carryX, after.carryX) && Conserves(c, raw.1, emitted.1, s.carryY, after.carryY)
  }

  lemma BalancedAppend(c: Setup, raw1: Point, emitted1: Point, raw2: Point, emitted2: Point, s: Engine, mid: Engine, after: Engine)
    requires Balanced(c, raw1, emitted1, s, mid) && Balanced(c, raw2, emitted2, mid, after)
    ensures Balanced(c, Plus(raw1, raw2), Plus(emitted1, emitted2), s, after)
  {
    ConservesAppend(c, raw1.0, emitted1.0, raw2.0, emitted2.0, s.carryX, mid.carryX, after.carryX);
    ConservesAppend(c, raw1.1, emitted1.1, raw2.1, emitted2.1, s.carryY, mid.carryY, after.carryY);
  }

  /** What was applied, plus the carry, is the scaled sum of the raw deltas. */
  lemma {:induction false} RunConserves(c: Setup, s: Engine, ticks: seq<Tick>)
    requires c.Valid() && Sane(s) && SmallCarry(s) && Usual(ticks)
    ensures var (end, effects) := Run(c, s, ticks);
            SmallCarry(end) && Balanced(c, TotalRaw(effects), TotalEmitted(effects), s, end)
  {
    if ticks == [] {
      ZeroConserves(c, s.carryX);
      ZeroConserves(c, s.carryY);
    } else {
      var front := ticks[..|ticks| - 1];
      var (mid, before) := Run(c, s, front);
      RunConserves(c, s, front);
      StepConserves(c, mid, ticks[|ticks| - 1]);
      var (after, e) := Step(c, mid, ticks[|ticks| - 1]);
      BalancedAppend(c, TotalRaw(before), TotalEmitted(before), RawOf(e), EmittedOf(e), s, mid, after);
      TotalsNext(before, e);
    }
  }

  lemma TotalsNext(effects: seq<Effect>, e: Effect)
    ensures TotalRaw(effects + [e]) == Plus(TotalRaw(effects), RawOf(e))
    ensures TotalEmitted(effects + [e]) == Plus(TotalEmitted(effects), EmittedOf(e))
  {
    assert (effects + [e])[..|effects|] == effects;
  }

  lemma WithinOne(c: Setup, raw: int, emitted: int, before: real, after: real)
    requires Conserves(c, raw, emitted, before, after) && -1.0 < after < 1.0
    ensures -1.0 < emitted as real - Scaled(c, raw, before) < 1.0
  {
  }

  /**
   Over any run, however long and with any number of crossings, the applied
   integer deltas differ from gain times the raw deltas plus the carry at the
   start by less than one pixel on each axis.
   */
  lemma {:induction false} LessThanOnePixel(c: Setup, s: Engine, ticks: seq<Tick>)
    requires c.Valid() && Sane(s) && SmallCarry(s) && Usual(ticks)
    ensures var effects := Run(c, s, ticks).1;
            && -1.0 < TotalEmitted(effects).0 as real - Scaled(c, TotalRaw(effects).0, s.carryX) < 1.0
            && -1.0 < TotalEmitted(effects).1 as real - Scaled(c, TotalRaw(effects).1, s.carryY) < 1.0
  {
    var (end, effects) := Run(c, s, ticks);
    RunConserves(c, s, ticks);
    WithinOne(c, TotalRaw(effects).0, TotalEmitted(effects).0, s.carryX, end.carryX);
    WithinOne(c, TotalRaw(effects).1, TotalEmitted(effects).1, s.carryY, end.carryY);
  }

  // ----- crossings are earned -----

  function EvaluationsOf(effects: seq<Effect>): seq<Evaluation> {
    if effects == [] then []
    else
      var e := effects[|effects| - 1];
      EvaluationsOf(effects[..|effects| - 1]) + if e.Watched? || e.Crossed? then [e.seen] else []
  }

  lemma EvaluationsNext(effects: seq<Effect>, e: Effect)
    ensures EvaluationsOf(effects + [e])
         == EvaluationsOf(effects) + if e.Watched? || e.Crossed? then [e.seen] else []
  {
    assert (effects + [e])[..|effects|] == effects;
  }

  /**
   In this tick the link was up, and some edge was pressed, allowed and outside
   the dead corner with a push toward it drained at most 250 ms before.
   */
  ghost predicate ReadyAt(c: Setup, t: Tick, history: seq<Evaluation>) {
    && t.linkUp && t.cursor.Some?
    && exists e: Edge :: Open(c, t.cursor.value, t.monitor, e) && PushedRecently(history, e, t.now)
  }

  lemma LocalGates(c: Setup, s: Engine, t: Tick)
    requires c.Valid() && s.remote == None
    ensures var (after, e) := LocalTick(c, s, t);
            && (e.Idle? ==> after == s)
            && (!e.Idle? ==>
                  && (e.Watched? || e.Crossed?) && e.seen.now == t.now && t.cursor.Some?
                  && after.pushes == Recorded(s.pushes, e.seen.push.0, e.seen.push.1, t.now)
                  && (after.accumulated, e.Crossed?) == c.pace.Guard().Step(s.accumulated, e.seen.eligible)
                  && (e.seen.eligible ==>
                        t.linkUp && exists o: Edge :: Ready(c, after.pushes, t.now, t.cursor.value, t.monitor, o)))
            && (e.Crossed? ==>
                  t.linkUp && t.cursor.Some? && Ready(c, after.pushes, t.now, t.cursor.value, t.monitor, e.edge))
  {
  }

  lemma RemoteGates(c: Setup, s: Engine, t: Tick)
    requires s.remote.Some? && Sane(s)
    ensures var (after, e) := RemoteTick(c, s, t);
            !e.Watched? && !e.Crossed? && after.pushes == s.pushes && after.accumulated == s.accumulated
  {
  }

  /** What an effect says about the gates, given the history before it. */
  ghost predicate Justified(c: Setup, t: Tick, after: Engine, e: Effect, evs: seq<Evaluation>)
    requires c.Valid()
  {
    var history := evs + if e.Watched? || e.Crossed? then [e.seen] else [];
    && GatesAfter(c.pace.Guard(), after.pushes, after.accumulated, history)
    && ((e.Watched? || e.Crossed?) && e.seen.eligible ==> ReadyAt(c, t, history))
    && (e.Crossed? <==> (e.Crossed? || e.Watched?) && DwellComplete(c.pace.Guard(), history))
    && (e.Crossed? ==>
          && t.linkUp && t.cursor.Some? && Open(c, t.cursor.value, t.monitor, e.edge)
          && PushedRecently(history, e.edge, t.now))
  }

  lemma LocalJustified(c: Setup, s: Engine, t: Tick, evs: seq<Evaluation>)
    requires c.Valid() && s.remote == None && GatesAfter(c.pace.Guard(), s.pushes, s.accumulated, evs)
    ensures var (after, e) := LocalTick(c, s, t); Justified(c, t, after, e, evs)
  {
    var (after, e) := LocalTick(c, s, t);
    assert evs + [] == evs;
    LocalGates(c, s, t);
    if !e.Idle? {
      EvaluateNext(c.pace.Guard(), s.pushes, s.accumulated, evs, e.seen);
      if e.seen.eligible {
        var o: Edge :| Ready(c, after.pushes, t.now, t.cursor.value, t.monitor, o);
        FreshPush(evs + [e.seen], o, t.now);
      }
      if e.Crossed? {
        FreshPush(evs + [e.seen], e.edge, t.now);
      }
    }
  }

  lemma StepGates(c: Setup, s: Engine, t: Tick, evs: seq<Evaluation>)
    requires c.Valid() && Sane(s) && GatesAfter(c.pace.Guard(), s.pushes, s.accumulated, evs)
    ensures var (after, e) := Step(c, s, t); Justified(c, t, after, e, evs)
  {
    var arrived := s.(queue := s.queue + Deltas(t.reports));
    if s.remote.Some? {
      RemoteGates(c, arrived, t);
      assert evs + [] == evs;
    } else {
      LocalJustified(c, arrived, t, evs);
    }
  }

  /** The tick of each evaluation. */
  function EvaluatedTicks(effects: seq<Effect>): seq<nat> {
    if effects == [] then []
    else
      var n := |effects| - 1;
      EvaluatedTicks(effects[..n]) + if effects[n].Watched? || effects[n].Crossed? then [n] else []
  }

  lemma {:induction false} EvaluatedTicksAre(effects: seq<Effect>)
    ensures |EvaluatedTicks(effects)| == |EvaluationsOf(effects)|
    ensures forall j | 0 <= j < |EvaluatedTicks(effects)| ::
      var n := EvaluatedTicks(effects)[j];
      n < |effects| && (effects[n].Watched? || effects[n].Crossed?) && EvaluationsOf(effects)[j] == effects[n].seen
  {
    if effects != [] {
      var n, front := |effects| - 1, effects[..|effects| - 1];
      EvaluatedTicksAre(front);
      assert forall i | 0 <= i < n :: front[i] == effects[i];
    }
  }

  /** If the n-th effect is an evaluation counted as eligible, it was ready. */
  ghost predicate ReadyIfEligible(c: Setup, ticks: seq<Tick>, effects: seq<Effect>, n: nat)
    requires n < |effects| == |ticks|
  {
    (effects[n].Watched? || effects[n].Crossed?) && effects[n].seen.eligible ==>
      ReadyAt(c, ticks[n], EvaluationsOf(effects[..n + 1]))
  }

  ghost predicate EligibleAreReady(c: Setup, ticks: seq<Tick>, effects: seq<Effect>) {
    |ticks| == |effects| && forall n: nat | n < |effects| :: ReadyIfEligible(c, ticks, effects, n)
  }

  lemma EligibleAreReadyNext(c: Setup, ticks: seq<Tick>, effects: seq<Effect>, t: Tick, e: Effect)
    requires EligibleAreReady(c, ticks, effects)
    requires (e.Watched? || e.Crossed?) && e.seen.eligible ==> ReadyAt(c, t, EvaluationsOf(effects + [e]))
    ensures EligibleAreReady(c, ticks + [t], effects + [e])
  {
    var all := effects + [e];
    forall n: nat | n < |all| ensures ReadyIfEligible(c, ticks + [t], all, n) {
      if n < |effects| {
        assert ReadyIfEligible(c, ticks, effects, n);
        assert all[..n + 1] == effects[..n + 1];
      } else {
        assert all[..n + 1] == all;
      }
    }
  }

  lemma {:induction false} RunGates(c: Setup, now: int, ticks: seq<Tick>)
    requires c.Valid() && Usual(ticks)
    ensures var (end, effects) := Run(c, NewEngine(now), ticks);
            && EligibleAreReady(c, ticks, effects)
            && GatesAfter(c.pace.Guard(), end.pushes, end.accumulated, EvaluationsOf(effects))
  {
    if ticks != [] {
      var front, t := ticks[..|ticks| - 1], ticks[|ticks| - 1];
      RunGates(c, now, front);
      var (mid, before) := Run(c, NewEngine(now), front);
      var e := Step(c, mid, t).1;
      assert ticks == front + [t];
      StepGates(c, mid, t, EvaluationsOf(before));
      EvaluationsNext(before, e);
      EligibleAreReadyNext(c, front, before, t, e);
    }
  }

  /** In each of the last k ticks that evaluated the edges, some edge was ready. */
  ghost predicate ReadyThroughout(c: Setup, ticks: seq<Tick>, effects: seq<Effect>)
    requires c.Valid() && |ticks| == |effects|
  {
    var idx, k := EvaluatedTicks(effects), c.pace.Guard().TicksToFire();
    && k <= |idx|
    && forall j | |idx| - k <= j < |idx| ::
         idx[j] < |effects| && ReadyAt(c, ticks[idx[j]], EvaluationsOf(effects[..idx[j] + 1]))
  }

  lemma DwellMeansReady(c: Setup, ticks: seq<Tick>, effects: seq<Effect>)
    requires c.Valid() && EligibleAreReady(c, ticks, effects) && DwellComplete(c.pace.Guard(), EvaluationsOf(effects))
    ensures ReadyThroughout(c, ticks, effects)
  {
    var idx := EvaluatedTicks(effects);
    LastTicksEligible(c.pace.Guard(), EvaluationsOf(effects));
    EvaluatedTicksAre(effects);
    forall j | |idx| - c.pace.Guard().TicksToFire() <= j < |idx| ensures ReadyAt(c, ticks[idx[j]], EvaluationsOf(effects[..idx[j] + 1])) {
      assert ReadyIfEligible(c, ticks, effects, idx[j]);
    }
  }

  /**
   A tick crosses exactly if it evaluates the edges and completes the dwell over
   the whole history; and then the edge is pressed, allowed, outside the dead
   corner, a push toward it was drained at most 250 ms ago, the link is up, and
   in each of the last max(1, ceil(dwell/interval)) ticks that evaluated the
   edges, this one among them, the link was up and some edge was ready like that.
   */
  lemma {:induction false} CrossingEarned(c: Setup, now: int, ticks: seq<Tick>, t: Tick)
    requires c.Valid() && Usual(ticks) && t.monitor.Roomy()
    ensures var (s, effects) := Run(c, NewEngine(now), ticks);
            var e := Step(c, s, t).1;
            var history := EvaluationsOf(effects + [e]);
            && (e.Crossed? <==> (e.Crossed? || e.Watched?) && DwellComplete(c.pace.Guard(), history))
            && (e.Crossed? ==>
                  && t.linkUp && t.cursor.Some? && Open(c, t.cursor.value, t.monitor, e.edge)
                  && PushedRecently(history, e.edge, t.now)
                  && ReadyThroughout(c, ticks + [t], effects + [e]))
  {
    var (s, effects) := Run(c, NewEngine(now), ticks);
    var e := Step(c, s, t).1;
    RunGates(c, now, ticks);
    StepGates(c, s, t, EvaluationsOf(effects));
    EvaluationsNext(effects, e);
    EligibleAreReadyNext(c, ticks, effects, t, e);
    if e.Crossed? {
      DwellMeansReady(c, ticks + [t], effects + [e]);
    }
  }

  /** If only absolute reports come in, no run ever leaves the local screen. */
  lemma {:induction false} AbsoluteNeverCrosses(c: Setup, now: int, ticks: seq<Tick>)
    requires c.Valid() && Usual(ticks)
    requires forall t, r | t in ticks && r in t.reports :: IsAbsoluteReport(r)
    ensures var (end, effects) := Run(c, NewEngine(now), ticks);
            && end.remote == None && end.queue == [] && end.pushes == NO_PUSH
            && forall i | 0 <= i < |effects| :: !effects[i].Crossed? && SentSide(effects[i]) == None
  {
    if ticks != [] {
      var front, t := ticks[..|ticks| - 1], ticks[|ticks| - 1];
      AbsoluteNeverCrosses(c, now, front);
      AbsoluteReportsYieldNothing(t.reports);
      NoPushNoCrossing(c, Run(c, NewEngine(now), front).0, t);
    }
  }

  lemma NoPushNoCrossing(c: Setup, s: Engine, t: Tick)
    requires c.Valid() && s.remote == None && s.queue + Deltas(t.reports) == [] && s.pushes == NO_PUSH
    ensures var (after, e) := Step(c, s, t);
            after.remote == None && after.queue == [] && after.pushes == NO_PUSH && (e.Idle? || e.Watched?)
  {
    assert Recorded(NO_PUSH, 0, 0, t.now) == NO_PUSH;
    assert forall e :: !Fresh(NO_PUSH, e, t.now);
  }

  // ----- the link watchdog -----

  /** The looks at the link a tick takes: a failed lookup, then a send or a reset. */
  function LooksOf(e: Effect): seq<Look> {
    match e
    case Crossed(_, seen, _) => [Look(true, seen.now)]
    case LinkLost(now, _) => [Look(true, now)]
    case Returned(_, _, now, linkUp, _) => Lookup(linkUp, now)
    case Moved(_, _, now, linkUp, sends, _) => Lookup(linkUp, now) + [Look(sends, now)]
    case Rested(_, now, linkUp, _) => Lookup(linkUp, now)
    case _ => []
  }

  function Lookup(linkUp: bool, now: int): seq<Look> {
    if linkUp then [] else [Look(false, now)]
  }

  function AllLooks(effects: seq<Effect>): seq<Look> {
    if effects == [] then [] else AllLooks(effects[..|effects| - 1]) + LooksOf(effects[|effects| - 1])
  }

  lemma ArmedNext(looks: seq<Look>, look: Look)
    ensures ArmedAfter(looks + [look]) == Armed(ArmedAfter(looks), look)
  {
    assert (looks + [look])[..|looks|] == looks;
  }

  lemma ArmedLookup(looks: seq<Look>, linkUp: bool, now: int)
    ensures ArmedAfter(looks + Lookup(linkUp, now))
         == if !linkUp && ArmedAfter(looks).None? then Some(now) else ArmedAfter(looks)
  {
    if linkUp {
      assert looks + Lookup(linkUp, now) == looks;
    } else {
      ArmedNext(looks, Look(false, now));
    }
  }

  lemma StepWatches(c: Setup, s: Engine, t: Tick, looks: seq<Look>)
    requires c.Valid() && Sane(s) && s.downSince == ArmedAfter(looks)
    ensures var (after, e) := Step(c, s, t);
            && after.downSince == ArmedAfter(looks + LooksOf(e))
            && (e.LinkLost? <==> s.remote.Some? && Expired(ArmedAfter(looks + Lookup(t.linkUp, t.now)), t.now, LINK_LOST_MS))
  {
    var arrived := s.(queue := s.queue + Deltas(t.reports));
    var (after, e) := Step(c, s, t);
    ArmedLookup(looks, t.linkUp, t.now);
    LooksEffect(looks, e);
    if s.remote.None? {
      assert after.downSince == if e.Crossed? then None else s.downSince;
    } else {
      RemoteWatches(c, arrived, t);
    }
  }

  lemma RemoteWatches(c: Setup, s: Engine, t: Tick)
    requires s.remote.Some? && Sane(s)
    ensures var (after, e) := RemoteTick(c, s, t);
            var down := DownSince(s, t);
            && (e.LinkLost? <==> Expired(down, t.now, LINK_LOST_MS))
            && (e.LinkLost? || e.Returned? || e.Moved? || e.Rested?) && e.now == t.now && e.linkUp == t.linkUp
            && after.downSince == (if e.LinkLost? then None
                                   else if e.Moved? then Armed(down, Look(e.sends, t.now)) else down)
  {
  }

  /** What the looks of an effect do to the timer. */
  lemma LooksEffect(looks: seq<Look>, e: Effect)
    ensures ArmedAfter(looks + LooksOf(e))
         == (if e.Crossed? || e.LinkLost? then None
             else if e.Moved? then Armed(ArmedAfter(looks + Lookup(e.linkUp, e.now)), Look(e.sends, e.now))
             else if e.Returned? || e.Rested? then ArmedAfter(looks + Lookup(e.linkUp, e.now))
             else ArmedAfter(looks))
  {
    if e.Crossed? {
      ArmedNext(looks, Look(true, e.seen.now));
    } else if e.LinkLost? {
      ArmedNext(looks, Look(true, e.now));
    } else if e.Moved? {
      ArmedNext(looks + Lookup(e.linkUp, e.now), Look(e.sends, e.now));
      assert looks + LooksOf(e) == looks + Lookup(e.linkUp, e.now) + [Look(e.sends, e.now)];
    } else if e.Idle? || e.Watched? {
      assert looks + LooksOf(e) == looks;
    }
  }

  lemma LooksNext(effects: seq<Effect>, e: Effect)
    ensures AllLooks(effects + [e]) == AllLooks(effects) + LooksOf(e)
  {
    assert (effects + [e])[..|effects|] == effects;
  }

  lemma {:induction false} RunWatches(c: Setup, now: int, ticks: seq<Tick>)
    requires c.Valid() && Usual(ticks)
    ensures var (end, effects) := Run(c, NewEngine(now), ticks); end.downSince == ArmedAfter(AllLooks(effects))
  {
    if ticks != [] {
      var front := ticks[..|ticks| - 1];
      RunWatches(c, now, front);
      var (mid, before) := Run(c, NewEngine(now), front);
      StepWatches(c, mid, ticks[|ticks| - 1], AllLooks(before));
      LooksNext(before, Step(c, mid, ticks[|ticks| - 1]).1);
    }
  }

  /**
   Control comes back for a lost link exactly if the looks at the link - lookups
   that failed, and sends of moves - have been bad for at least 1.5 s. Neither a
   lookup that succeeds nor a keep-alive that gets through is such a look.
   */
  lemma {:induction false} LinkLostIff(c: Setup, now: int, ticks: seq<Tick>, t: Tick)
    requires c.Valid() && Usual(ticks)
    ensures var (s, effects) := Run(c, NewEngine(now), ticks);
            var looks := AllLooks(effects) + Lookup(t.linkUp, t.now);
            Step(c, s, t).1.LinkLost?
            <==> s.remote.Some? && exists i: nat :: DownFrom(looks, i) && t.now - looks[i].now >= LINK_LOST_MS
  {
    var (s, effects) := Run(c, NewEngine(now), ticks);
    RunWatches(c, now, ticks);
    StepWatches(c, s, t, AllLooks(effects));
    ExpiredIff(AllLooks(effects) + Lookup(t.linkUp, t.now), t.now, LINK_LOST_MS);
  }

  /** While the mouse rests, a link that was missing for one look is enough. */
  lemma BouncesAtRest(c: Setup, s: Engine, missing: Tick, kept: Tick, later: Tick)
    requires c.Valid() && Sane(s) && s.remote.Some?
    requires s.queue == [] && s.carryX == 0.0 && s.carryY == 0.0 && s.downSince == None
    requires missing.reports == [] && kept.reports == [] && later.reports == []
    requires !missing.linkUp && 0 <= missing.now - s.lastSend < KEEPALIVE_MS
    requires kept.linkUp && kept.sends && kept.now == missing.now + KEEPALIVE_MS
    requires later.linkUp && later.now == missing.now + LINK_LOST_MS
    ensures var first := Step(c, s, missing);
            var second := Step(c, first.0, kept);
            var third := Step(c, second.0, later);
            second.1.Rested? && second.1.resent.Some? && third.1.LinkLost?
  {
    assert 0 as real * c.Speed() + 0.0 == 0.0;
    assert Deltas([]) == [] && [] + Deltas([]) == [];
    RestsOnNothing(c, s, missing);
    RestsOnNothing(c, Step(c, s, missing).0, kept);
  }

  lemma RestsOnNothing(c: Setup, s: Engine, t: Tick)
    requires c.Valid() && Sane(s) && s.remote.Some? && s.queue == [] && t.reports == [] && s.carryX == 0.0 && s.carryY == 0.0
    requires !Expired(DownSince(s, t), t.now, LINK_LOST_MS)
    ensures var kept := s.(downSince := DownSince(s, t));
            Step(c, s, t) == AtRest(kept, (0, 0), t)
  {
    assert 0 as real * c.Speed() + 0.0 == 0.0;
    assert s.queue + Deltas(t.reports) == [];
  }

  /** Without dwell and dead corner one push at an allowed edge crosses it. */
  lemma PushCrosses(c: Setup, mon: Rect, e: Edge) returns (t: Tick)
    requires c.Valid() && mon.Roomy() && Allowed(c, mon, e)
    requires c.deadCorner <= 0 && c.pace.dwellMs <= Max(c.pace.intervalMs, 1)
    ensures t.monitor == mon && t.now == 0 && t.sends && t.linkUp
    ensures var (after, effect) := Step(c, NewEngine(0), t);
            && effect.Crossed? && after.remote.Some? && Sane(after) && after.queue == []
            && after.carryX == 0.0 && after.carryY == 0.0 && after.downSince == None && after.lastSend == 0
  {
    var (d, p) := PushAt(mon, c.edgeMargin, e);
    t := Tick([RawReport(0, d.0, d.1)], Some(p), mon, 0, true, true, None);
    OneReport(d);
    OneSum(d);
    assert NewEngine(0).queue + Deltas(t.reports) == [d];
    var pushes := Recorded(NO_PUSH, d.0, d.1, 0);
    assert forall o: Edge :: Fresh(pushes, o, 0) <==> o == e;
    assert FirstReady(c, pushes, 0, p, mon) == Some(e);
  }

  lemma RunAnother(c: Setup, s: Engine, ticks: seq<Tick>, t: Tick)
    requires c.Valid() && Sane(s) && Usual(ticks) && t.monitor.Roomy()
    ensures var (mid, before) := Run(c, s, ticks);
            var (after, effect) := Step(c, mid, t);
            Run(c, s, ticks + [t]) == (after, before + [effect])
  {
    assert (ticks + [t])[..|ticks|] == ticks;
  }

  /** A tick in which the mouse rests. */
  function RestingTick(mon: Rect, now: int, linkUp: bool): Tick {
    Tick([], None, mon, now, linkUp, true, None)
  }

  /**
   So a link that was missing for one look takes control back 1.5 s later even
   though it has been up since and a keep-alive got through: a run from the start,
   one push across the edge and then the mouse at rest.
   */
  lemma {:induction false} BouncedThoughAlive(c: Setup, mon: Rect, e: Edge) returns (ticks: seq<Tick>)
    requires c.Valid() && mon.Roomy() && Allowed(c, mon, e)
    requires c.deadCorner <= 0 && c.pace.dwellMs <= Max(c.pace.intervalMs, 1)
    ensures |ticks| == 4 && Usual(ticks) && forall k | 0 <= k < 4 :: ticks[k].sends && (ticks[k].linkUp <==> k != 1)
    ensures ticks[3].now == ticks[1].now + LINK_LOST_MS
    ensures var effects := Run(c, NewEngine(0), ticks).1;
            effects[0].Crossed? && effects[2].Rested? && effects[2].resent.Some? && effects[3].LinkLost?
  {
    var cross := PushCrosses(c, mon, e);
    var missing, kept := RestingTick(mon, 0, false), RestingTick(mon, KEEPALIVE_MS, true);
    var later := RestingTick(mon, LINK_LOST_MS, true);
    BouncesAtRest(c, Step(c, NewEngine(0), cross).0, missing, kept, later);
    RunAnother(c, NewEngine(0), [], cross);
    RunAnother(c, NewEngine(0), [] + [cross], missing);
    RunAnother(c, NewEngine(0), [] + [cross] + [missing], kept);
    RunAnother(c, NewEngine(0), [] + [cross] + [missing] + [kept], later);
    ticks := [] + [cross] + [missing] + [kept] + [later];
  }

  // ----- the loop -----

  class SeamlessCapture {
    const setup: Setup
    const guard: SwitchGuard
    const gate: PushGate
    var queue: seq<(int, int)>
    var remoteActive: bool
    var combined: CombinedSpace
    var state: CursorState
    var monitors: seq<Rect>
    var fracX: real
    var fracY: real
    var downSince: Option<int>
    var lastSend: int
    /** Every position handed to the session. */
    var sent: seq<Point>

    ghost predicate Valid()
      reads this, guard, gate, gate.last
    {
      && setup.Valid() && gate.Valid() && guard.config == setup.pace.Guard()
      && (remoteActive ==> state.region.Remote? && combined.Valid())
    }

    ghost function State(): Engine
      requires gate.Valid()
      reads this, guard, gate, gate.last
    {
      Engine(queue, gate.last[..], guard.accumulatedMs,
             if remoteActive then Some(RemoteSide(combined, monitors, (state.x, state.y))) else None,
             fracX, fracY, downSince, lastSend)
    }

    constructor (setup: Setup, localRect: Rect, lockX: int, lockY: int, now: int)
      requires setup.Valid()
      ensures Valid() && fresh(guard) && fresh(gate) && fresh(gate.last)
      ensures this.setup == setup && State() == NewEngine(now) && sent == []
    {
      this.setup := setup;
      guard := new SwitchGuard(setup.pace);
      gate := new PushGate();
      queue, remoteActive, monitors, sent := [], false, [], [];
      combined := NewCombinedSpace(localRect, Rect(0, 0, setup.remoteWidth, setup.remoteHeight), setup.edge);
      state := CursorState(Local, lockX, lockY);
      fracX, fracY, downSince, lastSend := 0.0, 0.0, None, now;
    }

    /** The pending deltas, added up and taken off the channel. */
    method Drain() returns (dx: int, dy: int)
      modifies this`queue
      ensures queue == [] && (dx, dy) == Drained(old(queue))
    {
      dx, dy := AddUp(queue);
      queue := [];
    }

    method FindEdge(p: Point, mon: Rect, now: int) returns (r: Option<Edge>)
      requires gate.Valid()
      ensures r == FirstReady(setup, gate.last[..], now, p, mon)
    {
      var order := [Edge.Right, Edge.Left, Edge.Top, Edge.Bottom];
      for i := 0 to 4
        invariant forall j | 0 <= j < i :: !Ready(setup, gate.last[..], now, p, mon, order[j])
      {
        var e := order[i];
        if AtEdge(p, mon, setup.edgeMargin, e) && gate.IsFresh(e, now) && Allowed(setup, mon, e)
           && !NearCorner(p, mon, setup.deadCorner, e) {
          assert order[0] == Edge.Right && order[1] == Edge.Left && order[2] == Edge.Top;
          return Some(e);
        }
      }
      r := None;
      assert !Ready(setup, gate.last[..], now, p, mon, order[0]) && !Ready(setup, gate.last[..], now, p, mon, order[1])
          && !Ready(setup, gate.last[..], now, p, mon, order[2]) && !Ready(setup, gate.last[..], now, p, mon, order[3]);
    }

    method EnterRemote(t: Tick, p: Point, e: Edge)
      requires setup.Valid() && t.monitor.Roomy()
      modifies this`combined, this`state, this`monitors, this`remoteActive, this`downSince, this`lastSend, this`sent
      ensures remoteActive && state.region.Remote? && combined.Valid() && downSince == None && lastSend == t.now
      ensures RemoteSide(combined, monitors, (state.x, state.y)) == Entered(setup, t, p, e)
      ensures sent == old(sent) + [(state.x, state.y)]
    {
      var rw, rh := setup.remoteWidth, setup.remoteHeight;
      if t.peer.Some? && t.peer.value.width > 320 && t.peer.value.height > 240 {
        rw, rh := t.peer.value.width, t.peer.value.height;
      }
      monitors := if t.peer.Some? then t.peer.value.monitors else [];
      combined := NewCombinedSpace(t.monitor, Rect(0, 0, rw, rh), e);
      state := combined.EnterRemoteAt(p.0, p.1);
      remoteActive, downSince := true, None;
      var q := ClampToRects(state.x, state.y, monitors);
      state := CursorState(Remote, q.0, q.1);
      sent := sent + [q];
      lastSend := t.now;
    }

    method FollowLocal(t: Tick) returns (e: Effect)
      requires Valid() && !remoteActive && t.monitor.Roomy()
      modifies this, guard, gate.last
      ensures Valid() && (State(), e) == LocalTick(setup, old(State()), t)
      ensures sent == old(sent) + if SentSide(e).Some? then [SentSide(e).value.at] else []
    {
      if t.cursor.None? {
        return Idle;
      }
      var dx, dy := Drain();
      gate.RecordDelta(dx, dy, t.now);
      var found := FindEdge(t.cursor.value, t.monitor, t.now);
      var fire := guard.Update(found.Some? && t.linkUp, false);
      if fire {
        EnterRemote(t, t.cursor.value, found.value);
        e := Crossed(found.value, Evaluation(true, (dx, dy), t.now), RemoteSide(combined, monitors, (state.x, state.y)));
      } else {
        e := Watched(Evaluation(found.Some? && t.linkUp, (dx, dy), t.now));
      }
    }

    /** A nonzero move: back to local, or on to another remote position. */
    method Steer(raw: Point, gx: int, gy: int, t: Tick) returns (e: Effect)
      requires Valid() && remoteActive
      modifies this`state, this`remoteActive, this`downSince, this`lastSend, this`sent
      ensures Valid() && (State(), e) == Steered(old(State()), raw, (gx, gy), t)
      ensures sent == old(sent) + if SentSide(e).Some? then [SentSide(e).value.at] else []
    {
      var (next, switched) := combined.ApplyDelta(state, gx, gy);
      state := next;
      if switched {
        remoteActive := false;
        e := Returned(raw, (gx, gy), t.now, t.linkUp, (state.x, state.y));
      } else {
        var q := ClampToRects(state.x, state.y, monitors);
        state := CursorState(state.region, q.0, q.1);
        sent := sent + [q];
        if t.sends {
          downSince, lastSend := None, t.now;
        } else if downSince.None? {
          downSince := Some(t.now);
        }
        e := Moved(raw, (gx, gy), t.now, t.linkUp, t.sends, RemoteSide(combined, monitors, q));
      }
    }

    method Rest(raw: Point, t: Tick) returns (e: Effect)
      requires Valid() && remoteActive
      modifies this`lastSend, this`sent
      ensures Valid() && (State(), e) == AtRest(old(State()), raw, t)
      ensures sent == old(sent) + if SentSide(e).Some? then [SentSide(e).value.at] else []
    {
      if t.now - lastSend >= KEEPALIVE_MS {
        sent := sent + [(state.x, state.y)];
        e := Rested(raw, t.now, t.linkUp, Some(RemoteSide(combined, monitors, (state.x, state.y))));
        if t.sends {
          lastSend := t.now;
        }
      } else {
        e := Rested(raw, t.now, t.linkUp, None);
      }
    }

    /** The deltas scaled by the speed, the fraction carried on. */
    method Integrate() returns (raw: Point, emitted: Point)
      modifies this`queue, this`fracX, this`fracY
      ensures raw == Drained(old(queue)) && queue == []
      ensures emitted == (Trunc(Scaled(setup, raw.0, old(fracX))), Trunc(Scaled(setup, raw.1, old(fracY))))
      ensures fracX == Scaled(setup, raw.0, old(fracX)) - emitted.0 as real
      ensures fracY == Scaled(setup, raw.1, old(fracY)) - emitted.1 as real
    {
      var dx, dy := Drain();
      var x, y := Scaled(setup, dx, fracX), Scaled(setup, dy, fracY);
      raw, emitted := (dx, dy), (Trunc(x), Trunc(y));
      fracX, fracY := x - emitted.0 as real, y - emitted.1 as real;
    }

    method DriveRemote(t: Tick) returns (e: Effect)
      requires Valid() && remoteActive
      modifies this
      ensures Valid() && (State(), e) == RemoteTick(setup, old(State()), t)
      ensures sent == old(sent) + if SentSide(e).Some? then [SentSide(e).value.at] else []
    {
      if !t.linkUp && downSince.None? {
        downSince := Some(t.now);
      }
      if downSince.Some? && t.now - downSince.value >= LINK_LOST_MS {
        downSince, remoteActive := None, false;
        return LinkLost(t.now, t.linkUp);
      }
      var raw, emitted := Integrate();
      if emitted != (0, 0) {
        e := Steer(raw, emitted.0, emitted.1, t);
      } else {
        e := Rest(raw, t);
      }
    }

    method TakeTick(t: Tick) returns (e: Effect)
      requires Valid() && t.monitor.Roomy()
      modifies this, guard, gate.last
      ensures Valid() && (State(), e) == Step(setup, old(State()), t)
      ensures sent == old(sent) + if SentSide(e).Some? then [SentSide(e).value.at] else []
    {
      queue := queue + Deltas(t.reports);
      if remoteActive {
        e := DriveRemote(t);
      } else {
        e := FollowLocal(t);
      }
    }
  }

  function Positions(effects: seq<Effect>): seq<Point> {
    if effects == [] then []
    else
      var side := SentSide(effects[|effects| - 1]);
      Positions(effects[..|effects| - 1]) + if side.Some? then [side.value.at] else []
  }

  /** A whole capture, tick by tick until it is stopped. */
  method Capture(setup: Setup, localRect: Rect, lockX: int, lockY: int, start: int, ticks: seq<Tick>)
    returns (effects: seq<Effect>, sent: seq<Point>)
    requires setup.Valid() && Usual(ticks)
    ensures effects == Run(setup, NewEngine(start), ticks).1
    ensures sent == Positions(effects)
    ensures forall i | 0 <= i < |effects| :: SentSide(effects[i]).Some? ==> Placed(SentSide(effects[i]).value)
  {
    var capture := new SeamlessCapture(setup, localRect, lockX, lockY, start);
    effects := [];
    for i := 0 to |ticks|
      invariant capture.Valid() && fresh(capture) && fresh(capture.guard) && fresh(capture.gate) && fresh(capture.gate.last)
      invariant capture.setup == setup
      invariant (capture.State(), effects) == Run(setup, NewEngine(start), ticks[..i])
      invariant capture.sent == Positions(effects)
    {
      assert ticks[..i + 1][..i] == ticks[..i];
      ghost var before := effects;
      var e := capture.TakeTick(ticks[i]);
      effects := effects + [e];
      assert effects[..|before|] == before;
    }
    assert ticks[..|ticks|] == ticks;
    sent := capture.sent;
    EveryPositionPlaced(setup, NewEngine(start), ticks);
  }
}
