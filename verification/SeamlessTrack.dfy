/**
 Where the seamless loop puts the remote cursor, tick by tick and over runs
 (`run_seamless_capture`, apps/tailkvm-ui/src-tauri/src/seamless.rs), read off
 the reports, the gain and the layout.
 */
module SeamlessTrack {
  import opened Basics
  import Rounding
  import opened ScreenSpace
  import opened Gates
  import opened Watchdog
  import opened Seamless

  // ----- where a crossing is possible -----

  /** The coordinate of an edge. */
  function LineOf(r: Rect, e: Edge): int {
    match e
    case Right => r.right
    case Left => r.left
    case Top => r.top
    case Bottom => r.bottom
  }

  /** A row of pixels, or a column for a top or bottom edge, runs through the rect. */
  predicate Spans(r: Rect, e: Edge, z: int) {
    if e.Left? || e.Right? then r.top <= z < r.bottom else r.left <= z < r.right
  }

  ghost predicate FaceEachOther(a: Rect, b: Rect, e: Edge) {
    exists z :: Spans(a, e, z) && Spans(b, e, z)
  }

  ghost predicate Abuts(a: Rect, b: Rect, e: Edge, gap: int) {
    FaceEachOther(a, b, e) && -gap <= LineOf(a, e) - LineOf(b, e.Opposite()) <= gap
  }

  lemma PeerAdjacentIff(mon: Rect, e: Edge, peer: Rect)
    ensures PeerAdjacent(mon, e, peer) <==> Abuts(mon, peer, e, 6)
  {
    var (lo, hi) := if e.Left? || e.Right? then (Max(mon.top, peer.top), Min(mon.bottom, peer.bottom))
                    else (Max(mon.left, peer.left), Min(mon.right, peer.right));
    if lo < hi {
      assert Spans(mon, e, lo) && Spans(peer, e, lo);
    }
  }

  lemma ContinuesIff(mon: Rect, e: Edge, n: Rect)
    requires mon.NonDegenerate() && n.NonDegenerate()
    ensures Continues(mon, e, n) <==> Abuts(mon, n, e, 2)
  {
    var lo := if e.Left? || e.Right? then Max(mon.top, n.top) else Max(mon.left, n.left);
    if Continues(mon, e, n) {
      assert Spans(mon, e, lo) && Spans(n, e, lo);
    }
  }

  /** Another monitor continues the desktop across this edge. */
  ghost predicate ContinuedBy(mon: Rect, e: Edge, monitors: seq<Rect>) {
    exists n | n in monitors :: n != mon && Abuts(mon, n, e, 2)
  }

  /**
   A crossing is possible where the peer's screen abuts, if its place is known;
   and otherwise at the configured edge of the attached monitor, or of any if none
   is named, unless another monitor continues the desktop there.
   */
  lemma AllowedIff(c: Setup, mon: Rect, e: Edge)
    requires mon.NonDegenerate() && forall n | n in c.localMonitors :: n.NonDegenerate()
    ensures c.peerRect.Some? ==> (Allowed(c, mon, e) <==> Abuts(mon, c.peerRect.value, e, 6))
    ensures c.peerRect.None? ==>
      (Allowed(c, mon, e) <==> e == c.edge && (c.attachMonitor.None? || c.attachMonitor == Some(mon))
                               && !ContinuedBy(mon, e, c.localMonitors))
  {
    if c.peerRect.Some? {
      PeerAdjacentIff(mon, e, c.peerRect.value);
    } else {
      forall n | n in c.localMonitors ensures Continues(mon, e, n) <==> Abuts(mon, n, e, 2) {
        ContinuesIff(mon, e, n);
      }
      assert IsOuterEdge(mon, e, c.localMonitors) <==> !ContinuedBy(mon, e, c.localMonitors);
    }
  }

  // ----- one tick -----

  /** The sum of the deltas a tick drains. */
  function Came(s: Engine, t: Tick): Point {
    Drained(s.queue + Deltas(t.reports))
  }

  /** n is v without its fraction. */
  predicate Truncates(v: real, n: int) {
    if v >= 0.0 then n as real <= v < n as real + 1.0 else n as real - 1.0 < v <= n as real
  }

  /** The whole pixels of the scaled sum are applied, and the fraction is carried on. */
  predicate Integrates(c: Setup, raw: int, carry: real, emitted: int, carry': real) {
    var v := raw as real * (if c.gain > 0.0 then c.gain else 1.0) + carry;
    Truncates(v, emitted) && carry' == v - emitted as real
  }

  lemma TruncIntegrates(c: Setup, raw: int, carry: real)
    ensures var v := Scaled(c, raw, carry); Integrates(c, raw, carry, Trunc(v), v - Trunc(v) as real)
  {
  }

  /**
   A move by whole pixels returns exactly if its target is beyond the edge of the
   remote screen that was crossed, to the mapped place inside the local screen.
   Otherwise it goes to the pixel of the remote screen nearest to the target, put
   on the monitors.
   */
  ghost predicate GoesBy(side: RemoteSide, d: Point, after: Engine, e: Effect) {
    var sp, target := side.space, Plus(side.at, d);
    if Depth(sp.remote, sp.edge.Opposite(), target.0, target.1) < 0 then
      && e.Returned? && after.remote == None
      && Depth(sp.local, sp.edge, e.landing.0, e.landing.1) == sp.inset
      && sp.Along(e.landing.0, e.landing.1)
         == Rounding.MapRatio(sp.Along(target.0, target.1), sp.StartAlong(sp.remote), sp.LengthAlong(sp.remote),
                              sp.StartAlong(sp.local), sp.LengthAlong(sp.local))
    else
      && e.Moved? && after.remote == Some(e.side) && e.side.space == sp && e.side.monitors == side.monitors
      && exists q: Point ::
           && NearestPixel(sp.remote, q, target) && (sp.remote.Contains(target.0, target.1) ==> q == target)
           && OnMonitors(q, e.side.at, side.monitors)
  }

  /** Without a whole pixel the position stays, and is sent again if nothing was sent for 100 ms. */
  predicate Rests(s: Engine, t: Tick, after: Engine, e: Effect) {
    e.Rested? && after.remote == s.remote && e.resent == (if t.now - s.lastSend >= 100 then s.remote else None)
  }

  /** When something last got through. */
  predicate NotesSend(s: Engine, t: Tick, after: Engine, e: Effect) {
    after.lastSend == if t.sends && (e.Moved? || (e.Rested? && e.resent.Some?)) then t.now else s.lastSend
  }

  /** A remote tick whose link is not lost: the whole pixels of what came are applied, and nothing else. */
  ghost predicate Steers(c: Setup, s: Engine, t: Tick, after: Engine, e: Effect)
    requires s.remote.Some?
  {
    var d := EmittedOf(e);
    && RawOf(e) == Came(s, t) && after.queue == []
    && Integrates(c, RawOf(e).0, s.carryX, d.0, after.carryX) && Integrates(c, RawOf(e).1, s.carryY, d.1, after.carryY)
    && (if d == (0, 0) then Rests(s, t, after, e) else GoesBy(s.remote.value, d, after, e))
    && NotesSend(s, t, after, e)
  }

  /** What the integration leaves for the rest of the tick. */
  predicate Prepared(c: Setup, s: Engine, t: Tick, d: Point, mid: Engine) {
    && mid.remote == s.remote && mid.queue == [] && mid.lastSend == s.lastSend
    && Integrates(c, Came(s, t).0, s.carryX, d.0, mid.carryX) && Integrates(c, Came(s, t).1, s.carryY, d.1, mid.carryY)
  }

  lemma RemotePrepares(c: Setup, s: Engine, t: Tick, after: Engine, e: Effect) returns (d: Point, mid: Engine)
    requires s.remote.Some? && Sane(s) && !e.LinkLost?
    requires (after, e) == RemoteTick(c, s.(queue := s.queue + Deltas(t.reports)), t)
    ensures Prepared(c, s, t, d, mid)
    ensures (after, e) == if d == (0, 0) then AtRest(mid, Came(s, t), t) else Steered(mid, Came(s, t), d, t)
  {
    var raw := Came(s, t);
    var x, y := Scaled(c, raw.0, s.carryX), Scaled(c, raw.1, s.carryY);
    TruncIntegrates(c, raw.0, s.carryX);
    TruncIntegrates(c, raw.1, s.carryY);
    d := (Trunc(x), Trunc(y));
    mid := s.(queue := [], carryX := x - d.0 as real, carryY := y - d.1 as real, downSince := DownSince(s, t));
  }

  lemma SteeredGoes(s: Engine, raw: Point, d: Point, t: Tick, after: Engine, e: Effect)
    requires s.remote.Some? && Sane(s) && (after, e) == Steered(s, raw, d, t)
    ensures EmittedOf(e) == d && RawOf(e) == raw && GoesBy(s.remote.value, d, after, e) && NotesSend(s, t, after, e)
    ensures (after.queue, after.carryX, after.carryY) == (s.queue, s.carryX, s.carryY)
  {
    var side := s.remote.value;
    var st := CursorState(Remote, side.at.0, side.at.1);
    StepGoes(side.space, st, d.0, d.1);
    var next := side.space.ApplyDelta(st, d.0, d.1).0;
    ClampsOntoMonitors(next.x, next.y, side.monitors);
    var q := (next.x, next.y);
    assert e.Moved? ==> NearestPixel(side.space.remote, q, Plus(side.at, d)) && OnMonitors(q, e.side.at, side.monitors);
  }

  lemma {:induction false} StepSteers(c: Setup, s: Engine, t: Tick)
    requires c.Valid() && Sane(s) && s.remote.Some?
    ensures var (after, e) := Step(c, s, t); !e.LinkLost? ==> Steers(c, s, t, after, e)
  {
    var (after, e) := Step(c, s, t);
    if !e.LinkLost? {
      var d, mid := RemotePrepares(c, s, t, after, e);
      SteersFrom(c, s, t, d, mid, after, e);
    }
  }

  lemma SteersFrom(c: Setup, s: Engine, t: Tick, d: Point, mid: Engine, after: Engine, e: Effect)
    requires s.remote.Some? && Sane(s) && Prepared(c, s, t, d, mid)
    requires (after, e) == if d == (0, 0) then AtRest(mid, Came(s, t), t) else Steered(mid, Came(s, t), d, t)
    ensures Steers(c, s, t, after, e)
  {
    if d != (0, 0) {
      SteeredGoes(mid, Came(s, t), d, t, after, e);
    }
  }

  /**
   A crossing enters the peer's screen - of the size it reported, if that is large
   enough, and otherwise as configured - at the place for where the cursor was,
   put on its monitors, and sends that.
   */
  ghost predicate Enters(c: Setup, t: Tick, after: Engine, e: Effect)
    requires e.Crossed? && t.cursor.Some?
  {
    var known := t.peer.Some? && t.peer.value.width > 320 && t.peer.value.height > 240;
    var (w, h) := if known then (t.peer.value.width, t.peer.value.height) else (c.remoteWidth, c.remoteHeight);
    var p, entry := t.cursor.value, e.side.space.EnterRemoteAt(t.cursor.value.0, t.cursor.value.1);
    && after.remote == Some(e.side) && after.queue == [] && after.lastSend == t.now && after.downSince == None
    && e.side.space == CombinedSpace(t.monitor, Rect(0, 0, w, h), e.edge, 2)
    && e.side.monitors == (if t.peer.Some? then t.peer.value.monitors else [])
    && OnMonitors((entry.x, entry.y), e.side.at, e.side.monitors)
  }

  lemma {:induction false} StepEnters(c: Setup, s: Engine, t: Tick)
    requires c.Valid() && Sane(s)
    ensures var (after, e) := Step(c, s, t);
            && (e.Crossed? ==> t.cursor.Some? && Enters(c, t, after, e))
            && (s.remote.None? ==> after.carryX == s.carryX && after.carryY == s.carryY)
            && (s.remote.None? && !e.Crossed? ==> after.remote == None)
  {
    if s.remote.None? {
      var (after, e) := LocalTick(c, s.(queue := s.queue + Deltas(t.reports)), t);
      if e.Crossed? {
        var entry := e.side.space.EnterRemoteAt(t.cursor.value.0, t.cursor.value.1);
        ClampsOntoMonitors(entry.x, entry.y, e.side.monitors);
      }
    }
  }

  // ----- over a run -----

  /** The target is on the remote screen, and on a monitor where one is known. */
  predicate OnScreen(side: RemoteSide, target: Point) {
    && side.space.remote.Contains(target.0, target.1)
    && (OnSome(target, side.monitors) || !SomeNonDegenerate(side.monitors))
  }

  /** A tick that keeps the link, and that nothing cuts. */
  predicate Uncut(s: Engine, e: Effect) {
    s.remote.Some? && !e.LinkLost? && (EmittedOf(e) != (0, 0) ==> OnScreen(s.remote.value, Plus(s.remote.value.at, EmittedOf(e))))
  }

  /** Such a tick moves the cursor by exactly the pixels applied, on the same screen, and what it sends is where the cursor then is. */
  ghost predicate Carries(s: Engine, t: Tick, after: Engine, e: Effect)
    requires s.remote.Some?
  {
    && RawOf(e) == Came(s, t) && after.queue == []
    && after.remote == Some(s.remote.value.(at := Plus(s.remote.value.at, EmittedOf(e))))
    && (SentSide(e).Some? ==> SentSide(e) == after.remote)
    && (EmittedOf(e) != (0, 0) ==> SentSide(e).Some?)
  }

  lemma {:induction false} UncutCarries(c: Setup, s: Engine, t: Tick, after: Engine, e: Effect)
    requires Sane(s) && Uncut(s, e) && Steers(c, s, t, after, e)
    ensures Carries(s, t, after, e)
  {
    var side, d := s.remote.value, EmittedOf(e);
    var sp, target := side.space, Plus(side.at, d);
    if d != (0, 0) {
      assert Depth(sp.remote, sp.edge.Opposite(), target.0, target.1) >= 0;
    }
  }

  /** If the target is on the screen the tick moves there and sends exactly that point. */
  lemma {:induction false} MovesToTarget(c: Setup, s: Engine, t: Tick)
    requires c.Valid() && Sane(s) && s.remote.Some?
    ensures var (after, e) := Step(c, s, t);
            var target := Plus(s.remote.value.at, EmittedOf(e));
            !e.LinkLost? && EmittedOf(e) != (0, 0) && OnScreen(s.remote.value, target) ==>
              e.Moved? && e.side.at == target && SentSide(e) == Some(e.side) && after.remote == Some(e.side)
  {
    var (after, e) := Step(c, s, t);
    if Uncut(s, e) {
      StepSteers(c, s, t);
      UncutCarries(c, s, t, after, e);
    }
  }

  /** Nothing cuts the k-th tick of this run. */
  predicate UncutAt(c: Setup, s: Engine, ticks: seq<Tick>, k: nat)
    requires c.Valid() && Sane(s) && Usual(ticks) && k < |ticks|
  {
    Uncut(Run(c, s, ticks[..k]).0, Step(c, Run(c, s, ticks[..k]).0, ticks[k]).1)
  }

  ghost predicate AllUncut(c: Setup, s: Engine, ticks: seq<Tick>)
    requires c.Valid() && Sane(s) && Usual(ticks)
  {
    forall k: nat | k < |ticks| :: UncutAt(c, s, ticks, k)
  }

  function Brought(ticks: seq<Tick>): Point {
    if ticks == [] then (0, 0) else Plus(Brought(ticks[..|ticks| - 1]), Drained(Deltas(ticks[|ticks| - 1].reports)))
  }

  lemma NothingWaits(s: Engine, t: Tick)
    requires s.queue == []
    ensures Came(s, t) == Drained(Deltas(t.reports))
  {
    assert [] + Deltas(t.reports) == Deltas(t.reports);
  }

  /** The last of these, or this one. */
  function LastOr(ps: seq<Point>, p: Point): Point {
    if ps == [] then p else ps[|ps| - 1]
  }

  /** What a stretch of effects amounts to: the cursor has moved by what was applied, all that came was taken in, and the last position sent is the cursor's. */
  ghost predicate Tracks(side: RemoteSide, ticks: seq<Tick>, end: Engine, effects: seq<Effect>) {
    && end.queue == [] && end.remote == Some(side.(at := Plus(side.at, TotalEmitted(effects))))
    && TotalRaw(effects) == Brought(ticks)
    && LastOr(Positions(effects), side.at) == end.remote.value.at
  }

  lemma BroughtNext(ticks: seq<Tick>, t: Tick)
    ensures Brought(ticks + [t]) == Plus(Brought(ticks), Drained(Deltas(t.reports)))
  {
    assert (ticks + [t])[..|ticks|] == ticks;
  }

  lemma PositionsNext(effects: seq<Effect>, e: Effect, p: Point)
    ensures LastOr(Positions(effects + [e]), p) == if SentSide(e).Some? then SentSide(e).value.at else LastOr(Positions(effects), p)
  {
    assert (effects + [e])[..|effects|] == effects;
  }

  lemma MovesOn(side: RemoteSide, mid: Engine, t: Tick, after: Engine, e: Effect, d: Point)
    requires mid.remote == Some(side.(at := Plus(side.at, d))) && Carries(mid, t, after, e)
    ensures after.queue == [] && after.remote == Some(side.(at := Plus(side.at, Plus(d, EmittedOf(e)))))
    ensures EmittedOf(e) == (0, 0) ==> after.remote == mid.remote
  {
    assert Plus(Plus(side.at, d), EmittedOf(e)) == Plus(side.at, Plus(d, EmittedOf(e)));
  }

  lemma TracksOn(side: RemoteSide, ticks: seq<Tick>, mid: Engine, effects: seq<Effect>, t: Tick, after: Engine, e: Effect)
    requires Tracks(side, ticks, mid, effects) && Carries(mid, t, after, e)
    ensures Tracks(side, ticks + [t], after, effects + [e])
  {
    NothingWaits(mid, t);
    TotalsNext(effects, e);
    BroughtNext(ticks, t);
    PositionsNext(effects, e, side.at);
    MovesOn(side, mid, t, after, e, TotalEmitted(effects));
    assert TotalRaw(effects + [e]) == Brought(ticks + [t]);
    assert SentSide(e).None? ==> EmittedOf(e) == (0, 0);
  }

  type Outcome = (Engine, seq<Effect>)

  function Then(a: Outcome, x: (Engine, Effect)): Outcome {
    (x.0, a.1 + [x.1])
  }

  lemma {:induction false} RunAnotherBy(c: Setup, s: Engine, ticks: seq<Tick>, t: Tick, step: Engine -> (Engine, Effect))
    requires c.Valid() && Sane(s) && Usual(ticks) && t.monitor.Roomy()
    requires step == StepBy(c, t)
    ensures Run(c, s, ticks + [t]) == Then(Run(c, s, ticks), step(Run(c, s, ticks).0))
  {
    RunAnother(c, s, ticks, t);
  }

  function StepBy(c: Setup, t: Tick): Engine -> (Engine, Effect)
    requires c.Valid()
  {
    (m: Engine) => if Sane(m) then Step(c, m, t) else (m, Idle)
  }

  lemma TracksNext(c: Setup, side: RemoteSide, ticks: seq<Tick>, before: Outcome, t: Tick)
    requires c.Valid() && Sane(before.0) && Tracks(side, ticks, before.0, before.1) && Uncut(before.0, StepBy(c, t)(before.0).1)
    ensures var next := Then(before, StepBy(c, t)(before.0)); Tracks(side, ticks + [t], next.0, next.1)
  {
    var (after, e) := Step(c, before.0, t);
    StepSteers(c, before.0, t);
    UncutCarries(c, before.0, t, after, e);
    TracksOn(side, ticks, before.0, before.1, t, after, e);
  }

  ghost predicate TracksAt(c: Setup, s: Engine, ticks: seq<Tick>, k: nat)
    requires c.Valid() && Sane(s) && Usual(ticks) && k <= |ticks| && s.remote.Some?
  {
    Tracks(s.remote.value, ticks[..k], Run(c, s, ticks[..k]).0, Run(c, s, ticks[..k]).1)
  }

  lemma {:induction false} TracksNextAt(c: Setup, s: Engine, ticks: seq<Tick>, k: nat)
    requires c.Valid() && Sane(s) && Usual(ticks) && k < |ticks| && s.remote.Some?
    requires UncutAt(c, s, ticks, k) && TracksAt(c, s, ticks, k)
    ensures TracksAt(c, s, ticks, k + 1)
  {
    RunAnotherBy(c, s, ticks[..k], ticks[k], StepBy(c, ticks[k]));
    assert ticks[..k + 1] == ticks[..k] + [ticks[k]];
    TracksNext(c, s.remote.value, ticks[..k], Run(c, s, ticks[..k]), ticks[k]);
  }

  lemma TracksAtStart(c: Setup, s: Engine, ticks: seq<Tick>)
    requires c.Valid() && Sane(s) && Usual(ticks) && s.remote.Some? && s.queue == []
    ensures TracksAt(c, s, ticks, 0)
  {
    assert ticks[..0] == [];
    assert Plus(s.remote.value.at, (0, 0)) == s.remote.value.at;
  }

  lemma {:induction false} TracksUpTo(c: Setup, s: Engine, ticks: seq<Tick>, n: nat)
    requires c.Valid() && Sane(s) && Usual(ticks) && n <= |ticks| && s.remote.Some? && s.queue == []
    requires forall k: nat | k < n :: UncutAt(c, s, ticks, k)
    ensures TracksAt(c, s, ticks, n)
  {
    if n == 0 {
      TracksAtStart(c, s, ticks);
    } else {
      TracksUpTo(c, s, ticks, n - 1);
      TracksNextAt(c, s, ticks, n - 1);
    }
  }

  lemma {:induction false} RunTracks(c: Setup, s: Engine, ticks: seq<Tick>)
    requires c.Valid() && Sane(s) && Usual(ticks) && s.remote.Some? && s.queue == [] && AllUncut(c, s, ticks)
    ensures Tracks(s.remote.value, ticks, Run(c, s, ticks).0, Run(c, s, ticks).1)
  {
    TracksUpTo(c, s, ticks, |ticks|);
    assert ticks[..|ticks|] == ticks;
  }

  /** A distance of less than one pixel from the exact one. */
  predicate WithinOnePixel(c: Setup, from: int, to: int, raw: int, carry: real) {
    -1.0 < (to - from) as real - (raw as real * (if c.gain > 0.0 then c.gain else 1.0) + carry) < 1.0
  }

  /**
   Over every run on the remote screen, as long as nothing is cut: the position
   last sent is the entry point plus the pixels applied since, and it is within
   one pixel of gain times all the raw deltas brought since plus the fraction
   carried over at the entry, on each axis.
   */
  lemma {:induction false} CursorTracks(c: Setup, s: Engine, ticks: seq<Tick>)
    requires c.Valid() && Sane(s) && Usual(ticks) && s.remote.Some? && s.queue == [] && SmallCarry(s) && AllUncut(c, s, ticks)
    ensures TracksWithin(c, s.remote.value.at, (s.carryX, s.carryY), Brought(ticks), Run(c, s, ticks).1)
  {
    RunTracks(c, s, ticks);
    LessThanOnePixel(c, s, ticks);
    CloseTracks(c, s.remote.value, (s.carryX, s.carryY), ticks, Run(c, s, ticks).0, Run(c, s, ticks).1);
  }

  /** Where these effects lead from an entry point with a carry, d being what came. */
  predicate TracksWithin(c: Setup, entry: Point, carry: (real, real), d: Point, effects: seq<Effect>) {
    var at := LastOr(Positions(effects), entry);
    && at == Plus(entry, TotalEmitted(effects))
    && WithinOnePixel(c, entry.0, at.0, d.0, carry.0) && WithinOnePixel(c, entry.1, at.1, d.1, carry.1)
  }

  lemma CloseTracks(c: Setup, side: RemoteSide, carry: (real, real), ticks: seq<Tick>, end: Engine, effects: seq<Effect>)
    requires Tracks(side, ticks, end, effects)
    requires -1.0 < TotalEmitted(effects).0 as real - Scaled(c, TotalRaw(effects).0, carry.0) < 1.0
    requires -1.0 < TotalEmitted(effects).1 as real - Scaled(c, TotalRaw(effects).1, carry.1) < 1.0
    ensures TracksWithin(c, side.at, carry, Brought(ticks), effects)
  {
    OnePixel(c, side.at.0, TotalEmitted(effects).0, Brought(ticks).0, carry.0);
    OnePixel(c, side.at.1, TotalEmitted(effects).1, Brought(ticks).1, carry.1);
  }

  lemma OnePixel(c: Setup, from: int, emitted: int, raw: int, carry: real)
    requires -1.0 < emitted as real - Scaled(c, raw, carry) < 1.0
    ensures WithinOnePixel(c, from, from + emitted, raw, carry)
  {
  }

  function Joined(a: Outcome, b: Outcome): Outcome {
    (b.0, a.1 + b.1)
  }

  lemma JoinedOn(all: Outcome, mid: Outcome, more: Outcome, step: Engine -> (Engine, Effect))
    requires all == Joined(mid, more)
    ensures Then(all, step(all.0)) == Joined(mid, Then(more, step(more.0)))
  {
    var x := [step(all.0).1];
    assert mid.1 + more.1 + x == mid.1 + (more.1 + x);
  }

  lemma {:induction false} RunSplits(c: Setup, s: Engine, a: seq<Tick>, b: seq<Tick>)
    requires c.Valid() && Sane(s) && Usual(a) && Usual(b)
    ensures Usual(a + b) && Run(c, s, a + b) == Joined(Run(c, s, a), Run(c, Run(c, s, a).0, b))
    decreases |b|
  {
    if b == [] {
      assert a + b == a && Run(c, s, a).1 + [] == Run(c, s, a).1;
    } else {
      var front, last := b[..|b| - 1], b[|b| - 1];
      var step := StepBy(c, last);
      RunSplits(c, s, a, front);
      assert a + b == a + front + [last] && b == front + [last];
      RunAnotherBy(c, s, a + front, last, step);
      RunAnotherBy(c, Run(c, s, a).0, front, last, step);
      JoinedOn(Run(c, s, a + front), Run(c, s, a), Run(c, Run(c, s, a).0, front), step);
    }
  }

  /** The engine behind a crossing tick, and what is carried over at it. */
  lemma {:induction false} BehindCrossing(c: Setup, s: Engine, t: Tick)
    requires c.Valid() && Sane(s) && SmallCarry(s) && t.monitor.Roomy() && Step(c, s, t).1.Crossed?
    ensures var (entered, e) := Step(c, s, t);
            && Sane(entered) && SmallCarry(entered) && entered.queue == [] && entered.remote == Some(e.side)
            && entered.carryX == s.carryX && entered.carryY == s.carryY && SentSide(e) == Some(e.side)
  {
    StepEnters(c, s, t);
    StepSane(c, s, t);
    if s.remote.Some? {
      RemoteNeverCrosses(c, s, t);
    }
  }

  lemma RemoteNeverCrosses(c: Setup, s: Engine, t: Tick)
    requires c.Valid() && Sane(s) && s.remote.Some?
    ensures !Step(c, s, t).1.Crossed?
  {
    RemoteGates(c, s.(queue := s.queue + Deltas(t.reports)), t);
  }

  /**
   The same from a crossing anywhere in a run from the start: behind the ticks
   `before`, the tick `t` crosses, and nothing is cut in the ticks `since`.
   */
  lemma {:induction false} TracksSinceCrossing(c: Setup, now: int, before: seq<Tick>, t: Tick, since: seq<Tick>,
                                               s: Engine, entered: Engine, crossed: Effect, effects: seq<Effect>)
    requires c.Valid() && Usual(before) && t.monitor.Roomy() && Usual(since)
    requires s == Run(c, NewEngine(now), before).0 && (entered, crossed) == Step(c, s, t) && crossed.Crossed?
    requires Sane(entered) && AllUncut(c, entered, since) && effects == Run(c, entered, since).1
    ensures Usual(before + [t] + since)
            && Run(c, NewEngine(now), before + [t] + since).1 == Run(c, NewEngine(now), before).1 + [crossed] + effects
    ensures SentSide(crossed) == Some(crossed.side) && -1.0 < s.carryX < 1.0 && -1.0 < s.carryY < 1.0
    ensures TracksWithin(c, crossed.side.at, (s.carryX, s.carryY), Brought(since), effects)
  {
    RunConserves(c, NewEngine(now), before);
    BehindCrossing(c, s, t);
    RunAnother(c, NewEngine(now), before, t);
    RunSplits(c, NewEngine(now), before + [t], since);
    CursorTracks(c, entered, since);
  }
}
