/**
 The multi-screen router loop (`run_router`,
 apps/tailkvm-ui/src-tauri/src/router.rs). Each tick the configured space, the
 live sessions, the clock, the cursor and the composition flag are chosen anew,
 and other threads may take hooks, confinement and the control flag away.
 */
module Router {
  import opened Basics
  import opened ScreenSpace
  import opened LayoutGraph
  import LayoutEditor
  import opened Gates
  import opened Watchdog

  const LINK_LOST_MS := 1500

  datatype Setup = Setup(local: string, edgeMargin: int, deadCorner: int, pace: Pace) {
    predicate Valid() {
      pace.Valid()
    }
  }

  /** What is held while a remote screen is controlled; `slot` names the bound session. */
  datatype Grip = Grip(slot: Option<string>, control: bool, mouseHook: bool, keyHook: bool, confined: bool, anchored: bool)

  const NO_GRIP := Grip(None, false, false, false, false, false)

  /** What other threads took away since the last tick, and what can be had in this one. */
  datatype Outside = Outside(controlGone: bool, mouseGone: bool, keyGone: bool, unconfined: bool,
                             mouseOpens: bool, keyOpens: bool, confines: bool)

  datatype Tick = Tick(
    running: bool,
    space: Option<MultiScreenSpace>,
    reports: seq<RawReport>,
    cursor: Option<Point>,
    now: int,
    senders: set<string>,
    monitors: map<string, seq<Rect>>,
    composing: bool,
    outside: Outside)
  {
    predicate Valid() {
      space.Some? ==> space.value.Valid()
    }

    function MonitorsOf(screen: string): seq<Rect> {
      if screen in monitors then monitors[screen] else []
    }

    function SenderOf(screen: string): Option<string> {
      if screen in senders then Some(screen) else None
    }
  }

  datatype Engine = Engine(
    active: string,
    cursor: ScreenCursor,
    grip: Grip,
    downSince: Option<int>,
    queue: seq<(int, int)>,
    pushes: Pushes,
    accumulated: nat)

  function NewEngine(local: string, lock: Point): Engine {
    Engine(local, ScreenCursor(local, lock.0, lock.1), NO_GRIP, None, [], NO_PUSH, 0)
  }

  /** What a tick did; `sent` is the position handed to a live session. */
  datatype Effect =
    | Stopped
    | Idle
    | Watched(seen: Evaluation)
    | Entered(seen: Evaluation, edge: Edge, screen: string, sent: Option<Point>)
    | LinkLost(now: int, alive: bool)
    | Rested(now: int, alive: bool)
    | Reverted(now: int, alive: bool)
    | Home(now: int, alive: bool, landing: Point)
    | Switched(now: int, alive: bool, screen: string, sent: Option<Point>)
    | Moved(now: int, alive: bool, sent: Option<Point>)

  // ----- one tick -----

  function AfterOutside(g: Grip, o: Outside): Grip {
    g.(control := g.control && !o.controlGone, mouseHook := g.mouseHook && !o.mouseGone,
       keyHook := g.keyHook && !o.keyGone, confined := g.confined && !o.unconfined)
  }

  predicate Ready(c: Setup, sp: MultiScreenSpace, pushes: Pushes, now: int, p: Point, r: Rect, e: Edge) {
    AtEdge(p, r, c.edgeMargin, e) && Fresh(pushes, e, now) && Neighbor(sp.links, c.local, e).Some?
  }

  function FirstReady(c: Setup, sp: MultiScreenSpace, pushes: Pushes, now: int, p: Point, r: Rect): (found: Option<Edge>)
    ensures found.Some? ==> Ready(c, sp, pushes, now, p, r, found.value)
  {
    if Ready(c, sp, pushes, now, p, r, Right) then Some(Right)
    else if Ready(c, sp, pushes, now, p, r, Left) then Some(Left)
    else if Ready(c, sp, pushes, now, p, r, Top) then Some(Top)
    else if Ready(c, sp, pushes, now, p, r, Bottom) then Some(Bottom)
    else None
  }

  function Placed(cursor: ScreenCursor, t: Tick): ScreenCursor {
    var p := ClampPoint(cursor.x, cursor.y, t.MonitorsOf(cursor.screen));
    ScreenCursor(cursor.screen, p.0, p.1)
  }

  function SentTo(cursor: ScreenCursor, t: Tick): Option<Point> {
    if cursor.screen in t.senders then Some((cursor.x, cursor.y)) else None
  }

  function Taken(g: Grip, screen: string, t: Tick): Grip {
    Grip(t.SenderOf(screen), true, g.mouseHook || t.outside.mouseOpens, g.keyHook || t.outside.keyOpens,
         g.confined || t.outside.confines, true)
  }

  function LocalTick(c: Setup, sp: MultiScreenSpace, s: Engine, t: Tick): (Engine, Effect)
    requires c.Valid()
  {
    if t.cursor.None? then (s, Idle)
    else
      var pushes := Recorded(s.pushes, SumX(s.queue), SumY(s.queue), t.now);
      var drained := s.(queue := [], pushes := pushes);
      if c.local !in sp.screens then (drained, Stopped)
      else
        var p, r := t.cursor.value, sp.screens[c.local];
        var e := FirstReady(c, sp, pushes, t.now, p, r);
        var (accumulated, fire) := c.pace.Guard().Step(s.accumulated, e.Some? && !NearCorner(p, r, c.deadCorner, e.value));
        var after := drained.(accumulated := accumulated);
        var seen := Evaluation(e.Some? && !NearCorner(p, r, c.deadCorner, e.value), (SumX(s.queue), SumY(s.queue)), t.now);
        if !fire then (after, Watched(seen)) else Crossing(sp, after, t, seen, c.local, e.value, p)
  }

  function Crossing(sp: MultiScreenSpace, s: Engine, t: Tick, seen: Evaluation, local: string, e: Edge, p: Point): (Engine, Effect) {
    var entry := sp.EnterNeighbor(local, e, p.0, p.1);
    if entry.None? then (s, Watched(seen))
    else
      var cursor := Placed(entry.value, t);
      (s.(active := cursor.screen, cursor := cursor, grip := Taken(s.grip, cursor.screen, t), downSince := None),
       Entered(seen, e, cursor.screen, SentTo(cursor, t)))
  }

  function BackHome(c: Setup, s: Engine): Engine {
    s.(active := c.local, grip := NO_GRIP)
  }

  function RemoteTick(c: Setup, sp: MultiScreenSpace, s: Engine, t: Tick): (Engine, Effect)
    requires sp.Valid()
  {
    var alive := s.active in t.senders;
    var watched := s.(downSince := Armed(s.downSince, Look(alive, t.now)));
    if Expired(watched.downSince, t.now, LINK_LOST_MS) then
      (BackHome(c, watched).(downSince := None), LinkLost(t.now, alive))
    else
      var d := (SumX(s.queue), SumY(s.queue));
      var drained := watched.(queue := []);
      if d == (0, 0) then (drained, Rested(t.now, alive))
      else
        var (next, switch) := sp.ApplyDelta(s.cursor, d.0, d.1);
        if switch.Some? then Switching(c, sp, drained, t, alive, next) else Steering(c, sp, drained, t, alive, next)
  }

  function Switching(c: Setup, sp: MultiScreenSpace, s: Engine, t: Tick, alive: bool, next: ScreenCursor): (Engine, Effect) {
    if next.screen != c.local && t.composing then (s, Reverted(t.now, alive))
    else if next.screen == c.local then (BackHome(c, s).(cursor := next), Home(t.now, alive, (next.x, next.y)))
    else
      var cursor := Placed(next, t);
      (s.(active := cursor.screen, cursor := cursor,
          grip := s.grip.(slot := t.SenderOf(cursor.screen), anchored := Anchors(c, sp, cursor.screen))),
       Switched(t.now, alive, cursor.screen, SentTo(cursor, t)))
  }

  /** The projection onto the local screen is published if both rects are known. */
  predicate Anchors(c: Setup, sp: MultiScreenSpace, screen: string) {
    c.local in sp.screens && screen in sp.screens
  }

  function Steering(c: Setup, sp: MultiScreenSpace, s: Engine, t: Tick, alive: bool, next: ScreenCursor): (Engine, Effect) {
    if !alive then (s.(cursor := next), Moved(t.now, alive, None))
    else
      var cursor := Placed(next, t);
      (s.(cursor := cursor, grip := s.grip.(anchored := Anchors(c, sp, s.active))),
       Moved(t.now, alive, Some((cursor.x, cursor.y))))
  }

  /** Control comes home if a reconfiguration took the active screen away. */
  function Reconciled(c: Setup, sp: MultiScreenSpace, s: Engine): Engine {
    if s.active != c.local && s.active !in sp.screens then BackHome(c, s) else s
  }

  function Arrived(s: Engine, t: Tick): Engine {
    s.(grip := AfterOutside(s.grip, t.outside), queue := s.queue + Deltas(t.reports))
  }

  function Step(c: Setup, s: Engine, t: Tick): (Engine, Effect)
    requires c.Valid() && t.Valid()
  {
    if !t.running || t.space.None? then (Arrived(s, t), Stopped)
    else
      var r := Reconciled(c, t.space.value, Arrived(s, t));
      if r.active == c.local then LocalTick(c, t.space.value, r, t) else RemoteTick(c, t.space.value, r, t)
  }

  /** A run; a tick that stops the loop leaves the rest without effect. */
  function Run(c: Setup, s: Engine, ticks: seq<Tick>): (r: (Engine, seq<Effect>))
    requires c.Valid() && forall t | t in ticks :: t.Valid()
    ensures |r.1| == |ticks|
  {
    if ticks == [] then (s, [])
    else
      var (mid, before) := Run(c, s, ticks[..|ticks| - 1]);
      if before != [] && before[|before| - 1].Stopped? then (mid, before + [Stopped])
      else
        var (after, e) := Step(c, mid, ticks[|ticks| - 1]);
        (after, before + [e])
  }

  // ----- who holds what -----

  /**
   Nothing is held on the local screen; on a remote one the cursor is there and
   the bound session, if any, is its own.
   */
  predicate Owned(c: Setup, s: Engine) {
    if s.active == c.local then s.grip == NO_GRIP
    else s.cursor.screen == s.active && (s.grip.slot.Some? ==> s.grip.slot.value == s.active)
  }

  /**
   The screen a tick is about to enter, read off the state before it: control is
   on the local screen or comes home because the active one is gone, an edge is
   ready outside the dead corner, the guard fires, and the link leads somewhere.
   */
  function Destination(c: Setup, s: Engine, t: Tick): Option<string>
    requires c.Valid()
  {
    if !t.running || t.space.None? || t.cursor.None? then None
    else
      var sp, queue := t.space.value, s.queue + Deltas(t.reports);
      if (s.active != c.local && s.active in sp.screens) || c.local !in sp.screens then None
      else
        var p, r := t.cursor.value, sp.screens[c.local];
        var e := FirstReady(c, sp, Recorded(s.pushes, SumX(queue), SumY(queue), t.now), t.now, p, r);
        if e.None? || NearCorner(p, r, c.deadCorner, e.value) || !c.pace.Guard().Step(s.accumulated, true).1 then None
        else sp.Across(c.local, e)
  }

  lemma EntersDestination(c: Setup, s: Engine, t: Tick)
    requires c.Valid() && t.Valid()
    ensures var (after, e) := Step(c, s, t);
            && (e.Entered? <==> Destination(c, s, t).Some?)
            && (e.Entered? ==> Destination(c, s, t) == Some(e.screen) && after.active == e.screen)
  {
  }

  lemma CrossingOwnedIff(c: Setup, sp: MultiScreenSpace, s: Engine, t: Tick, seen: Evaluation, e: Edge, p: Point)
    requires s.grip == NO_GRIP && s.active == c.local
    ensures var (after, effect) := Crossing(sp, s, t, seen, c.local, e, p);
            Owned(c, after) <==> !(effect.Entered? && effect.screen == c.local)
  {
  }

  lemma RemoteOwned(c: Setup, sp: MultiScreenSpace, s: Engine, t: Tick)
    requires sp.Valid() && Owned(c, s) && s.active != c.local && s.active in sp.screens
    ensures Owned(c, RemoteTick(c, sp, s, t).0)
  {
    var d := (SumX(s.queue), SumY(s.queue));
    MultiDeltaStaysInside(sp, s.cursor, d.0, d.1);
  }

  /**
   A tick keeps what is held in order if and only if it is not about to enter the
   local screen through a link from the local screen to itself.
   */
  lemma {:induction false} StepOwnedIff(c: Setup, s: Engine, t: Tick)
    requires c.Valid() && t.Valid() && Owned(c, s)
    ensures Owned(c, Step(c, s, t).0) <==> Destination(c, s, t) != Some(c.local)
  {
    EntersDestination(c, s, t);
    if t.running && t.space.Some? {
      var sp := t.space.value;
      var r := Reconciled(c, sp, Arrived(s, t));
      assert Owned(c, r);
      if r.active != c.local {
        RemoteOwned(c, sp, r, t);
      } else if t.cursor.Some? && c.local in sp.screens {
        LocalOwnedIff(c, sp, r, t);
      }
    }
  }

  lemma LocalOwnedIff(c: Setup, sp: MultiScreenSpace, s: Engine, t: Tick)
    requires c.Valid() && s.grip == NO_GRIP && s.active == c.local && t.cursor.Some? && c.local in sp.screens
    ensures var (after, e) := LocalTick(c, sp, s, t);
            Owned(c, after) <==> !(e.Entered? && e.screen == c.local)
  {
    var p, r := t.cursor.value, sp.screens[c.local];
    var pushes := Recorded(s.pushes, SumX(s.queue), SumY(s.queue), t.now);
    var e := FirstReady(c, sp, pushes, t.now, p, r);
    var (accumulated, fire) := c.pace.Guard().Step(s.accumulated, e.Some? && !NearCorner(p, r, c.deadCorner, e.value));
    if fire {
      var seen := Evaluation(true, (SumX(s.queue), SumY(s.queue)), t.now);
      CrossingOwnedIff(c, sp, s.(queue := [], pushes := pushes, accumulated := accumulated), t, seen, e.value, p);
    }
  }

  // ----- the states of a run -----

  predicate Runs(effects: seq<Effect>) {
    effects == [] || !effects[|effects| - 1].Stopped?
  }

  /** The state before the n-th tick, and whether the loop still runs then. */
  function StateAt(c: Setup, s: Engine, ticks: seq<Tick>, n: nat): Engine
    requires c.Valid() && (forall t | t in ticks :: t.Valid()) && n <= |ticks|
  {
    Run(c, s, ticks[..n]).0
  }

  predicate RunsAt(c: Setup, s: Engine, ticks: seq<Tick>, n: nat)
    requires c.Valid() && (forall t | t in ticks :: t.Valid()) && n <= |ticks|
  {
    Runs(Run(c, s, ticks[..n]).1)
  }

  lemma StateAtNext(c: Setup, s: Engine, ticks: seq<Tick>, n: nat)
    requires c.Valid() && (forall t | t in ticks :: t.Valid()) && n < |ticks|
    ensures StateAt(c, s, ticks, n + 1)
         == if RunsAt(c, s, ticks, n) then Step(c, StateAt(c, s, ticks, n), ticks[n]).0 else StateAt(c, s, ticks, n)
  {
    assert ticks[..n + 1][..n] == ticks[..n];
  }

  ghost predicate OwnedUpTo(c: Setup, s: Engine, ticks: seq<Tick>, n: nat)
    requires c.Valid() && (forall t | t in ticks :: t.Valid()) && n <= |ticks|
  {
    forall k: nat | k <= n :: Owned(c, StateAt(c, s, ticks, k))
  }

  ghost predicate NeverHomeUpTo(c: Setup, s: Engine, ticks: seq<Tick>, n: nat)
    requires c.Valid() && (forall t | t in ticks :: t.Valid()) && n <= |ticks|
  {
    forall k: nat | k < n && RunsAt(c, s, ticks, k) :: Destination(c, StateAt(c, s, ticks, k), ticks[k]) != Some(c.local)
  }

  /** Over a run everything stays in order exactly if no tick is about to enter the local screen. */
  lemma {:induction false} RunOwnedIff(c: Setup, s: Engine, ticks: seq<Tick>, n: nat)
    requires c.Valid() && (forall t | t in ticks :: t.Valid()) && Owned(c, s) && n <= |ticks|
    ensures OwnedUpTo(c, s, ticks, n) <==> NeverHomeUpTo(c, s, ticks, n)
  {
    if n == 0 {
      assert ticks[..0] == [] && StateAt(c, s, ticks, 0) == s;
    } else {
      RunOwnedIff(c, s, ticks, n - 1);
      StateAtNext(c, s, ticks, n - 1);
      if OwnedUpTo(c, s, ticks, n - 1) && RunsAt(c, s, ticks, n - 1) {
        StepOwnedIff(c, StateAt(c, s, ticks, n - 1), ticks[n - 1]);
      }
    }
  }

  predicate HoldsSomething(g: Grip) {
    g.slot.Some? || g.control || g.mouseHook || g.keyHook || g.confined || g.anchored
  }

  /** No edge of the local screen leads to the local screen. */
  predicate NoSelfLink(c: Setup, t: Tick) {
    t.space.Some? ==> forall e: Edge :: Neighbor(t.space.value.links, c.local, e) != Some(c.local)
  }

  /**
   Over every run - reconfigurations, lost links, outside releases - in spaces
   that do not link the local screen to itself: under remote control the cursor
   is on the active screen, and whatever is held, a remote screen is active.
   */
  lemma {:induction false} RunOwned(c: Setup, s: Engine, ticks: seq<Tick>)
    requires c.Valid() && (forall t | t in ticks :: t.Valid() && NoSelfLink(c, t)) && Owned(c, s)
    ensures var end := Run(c, s, ticks).0;
            && Owned(c, end)
            && (end.grip.control ==> end.cursor.screen == end.active)
            && (HoldsSomething(end.grip) ==> end.active != c.local)
  {
    if ticks != [] {
      var front, last := ticks[..|ticks| - 1], ticks[|ticks| - 1];
      RunOwned(c, s, front);
      StepOwnedIff(c, Run(c, s, front).0, last);
    }
  }

  /** The links of the space are those an editor draws for distinct names. */
  ghost predicate Edited(t: Tick) {
    t.space.Some? ==>
      || (exists chain :: Distinct(chain) && t.space.value.links == LinkAll(map[], ChainLinks(chain)))
      || (exists boxes :: LayoutEditor.DistinctBoxes(boxes) && t.space.value.links == LinkAll(map[], LayoutEditor.InferredLinks(boxes)))
  }

  lemma EditedHasNoSelfLink(c: Setup, t: Tick)
    requires Edited(t)
    ensures NoSelfLink(c, t)
  {
    if t.space.Some? {
      var links := t.space.value.links;
      if chain :| Distinct(chain) && links == LinkAll(map[], ChainLinks(chain)) {
        LayoutEditor.ChainMakesNoSelfLink(chain, c.local);
      } else {
        var boxes :| LayoutEditor.DistinctBoxes(boxes) && links == LinkAll(map[], LayoutEditor.InferredLinks(boxes));
        LayoutEditor.BoxesMakeNoSelfLink(boxes, c.local);
      }
      assert !SelfLinked(links, c.local);
    }
  }

  /** So it does over every run in which the editors drew all spaces with distinct names. */
  lemma {:induction false} EditedRunsOwned(c: Setup, s: Engine, ticks: seq<Tick>)
    requires c.Valid() && (forall t | t in ticks :: t.Valid() && Edited(t)) && Owned(c, s)
    ensures var end := Run(c, s, ticks).0;
            && Owned(c, end)
            && (end.grip.control ==> end.cursor.screen == end.active)
            && (HoldsSomething(end.grip) ==> end.active != c.local)
  {
    forall t | t in ticks ensures NoSelfLink(c, t) {
      EditedHasNoSelfLink(c, t);
    }
    RunOwned(c, s, ticks);
  }

  /** No edge but this one was ever pushed toward, and nothing waits. */
  predicate OnlyPushed(s: Engine, e: Edge) {
    s.queue == [] && s.accumulated == 0 && forall o: Edge | o != e :: s.pushes[PushDir(o)].None?
  }

  /** A tick that brings one push toward the edge, with the cursor at it. */
  function PushTick(c: Setup, sp: MultiScreenSpace, e: Edge, composing: bool): Tick
    requires c.local in sp.screens
  {
    var (d, p) := PushAt(sp.screens[c.local], c.edgeMargin, e);
    Tick(true, Some(sp), [RawReport(0, d.0, d.1)], Some(p), 0, {}, map[], composing,
         Outside(false, false, false, false, true, true, true))
  }

  /** After a push the edge is the only one pushed toward, so it is the first ready one. */
  lemma PushReadies(c: Setup, sp: MultiScreenSpace, pushes: Pushes, e: Edge)
    requires c.Valid() && sp.Valid() && c.local in sp.screens && Neighbor(sp.links, c.local, e).Some?
    requires forall o: Edge | o != e :: pushes[PushDir(o)].None?
    ensures var (d, p) := PushAt(sp.screens[c.local], c.edgeMargin, e);
            var after := Recorded(pushes, d.0, d.1, 0);
            && FirstReady(c, sp, after, 0, p, sp.screens[c.local]) == Some(e)
            && forall o: Edge | o != e :: after[PushDir(o)].None?
  {
    var (d, p) := PushAt(sp.screens[c.local], c.edgeMargin, e);
    assert forall o: Edge :: Fresh(Recorded(pushes, d.0, d.1, 0), o, 0) <==> o == e;
  }

  lemma PushDrained(s: Engine, c: Setup, sp: MultiScreenSpace, e: Edge, composing: bool)
    requires c.local in sp.screens && s.queue == []
    ensures var (d, p) := PushAt(sp.screens[c.local], c.edgeMargin, e);
            var queue := s.queue + Deltas(PushTick(c, sp, e, composing).reports);
            SumX(queue) == d.0 && SumY(queue) == d.1
  {
    var d := PushAt(sp.screens[c.local], c.edgeMargin, e).0;
    OneReport(d);
    OneSum(d);
    assert s.queue + Deltas(PushTick(c, sp, e, composing).reports) == [d];
  }

  lemma PushHeads(c: Setup, sp: MultiScreenSpace, s: Engine, e: Edge, to: string, composing: bool)
    requires c.Valid() && sp.Valid() && c.local in sp.screens && sp.Across(c.local, Some(e)) == Some(to)
    requires c.deadCorner <= 0 && c.pace.dwellMs <= Max(c.pace.intervalMs, 1)
    requires (s.active == c.local || s.active !in sp.screens) && OnlyPushed(s, e)
    ensures Destination(c, s, PushTick(c, sp, e, composing)) == Some(to)
  {
    PushDrained(s, c, sp, e, composing);
    PushReadies(c, sp, s.pushes, e);
  }

  lemma OnlyPushedStays(c: Setup, sp: MultiScreenSpace, s: Engine, e: Edge, composing: bool)
    requires c.Valid() && sp.Valid() && c.local in sp.screens && Neighbor(sp.links, c.local, e).Some? && OnlyPushed(s, e)
    requires Step(c, s, PushTick(c, sp, e, composing)).1.Entered?
    ensures OnlyPushed(Step(c, s, PushTick(c, sp, e, composing)).0, e)
  {
    PushDrained(s, c, sp, e, composing);
    PushReadies(c, sp, s.pushes, e);
    EnteringClears(c, s, PushTick(c, sp, e, composing));
  }

  /** Entering drains the deltas into the push gate and starts the dwell anew. */
  lemma EnteringClears(c: Setup, s: Engine, t: Tick)
    requires c.Valid() && t.Valid() && Step(c, s, t).1.Entered?
    ensures var after, queue := Step(c, s, t).0, s.queue + Deltas(t.reports);
            after.queue == [] && after.accumulated == 0 && after.pushes == Recorded(s.pushes, SumX(queue), SumY(queue), t.now)
  {
  }

  /** Without dwell and dead corner one push at a linked edge enters the screen behind it. */
  lemma PushEnters(c: Setup, sp: MultiScreenSpace, s: Engine, e: Edge, to: string, composing: bool) returns (t: Tick)
    requires c.Valid() && sp.Valid() && c.local in sp.screens && sp.Across(c.local, Some(e)) == Some(to)
    requires c.deadCorner <= 0 && c.pace.dwellMs <= Max(c.pace.intervalMs, 1)
    requires (s.active == c.local || s.active !in sp.screens) && OnlyPushed(s, e)
    ensures t.Valid() && t.space == Some(sp) && t.composing == composing && Destination(c, s, t) == Some(to)
    ensures var (after, effect) := Step(c, s, t); after.active == to && effect.Entered? && OnlyPushed(after, e)
  {
    t := PushTick(c, sp, e, composing);
    PushHeads(c, sp, s, e, to, composing);
    EntersDestination(c, s, t);
    OnlyPushedStays(c, sp, s, e, composing);
  }

  /**
   A link from the local screen to itself is enough: one push against that edge
   leaves hooks and confinement on the local screen.
   */
  lemma SelfLinkBreaks(c: Setup, sp: MultiScreenSpace, e: Edge, lock: Point) returns (t: Tick)
    requires c.Valid() && sp.Valid() && c.local in sp.screens && Neighbor(sp.links, c.local, e) == Some(c.local)
    requires c.deadCorner <= 0 && c.pace.dwellMs <= Max(c.pace.intervalMs, 1)
    ensures t.Valid() && t.space == Some(sp)
    ensures Owned(c, NewEngine(c.local, lock)) && !Owned(c, Step(c, NewEngine(c.local, lock), t).0)
  {
    t := PushEnters(c, sp, NewEngine(c.local, lock), e, c.local, false);
    StepOwnedIff(c, NewEngine(c.local, lock), t);
  }

  /** The chain of two cards with the local name makes such a link. */
  lemma TwinChainBreaks(c: Setup, rect: Rect, lock: Point) returns (t: Tick)
    requires c.Valid() && rect.Roomy() && c.deadCorner <= 0 && c.pace.dwellMs <= Max(c.pace.intervalMs, 1)
    ensures t.Valid() && t.space == Some(NewMultiScreenSpace(map[c.local := rect], LinkAll(map[], ChainLinks([c.local, c.local]))))
    ensures Owned(c, NewEngine(c.local, lock)) && !Owned(c, Step(c, NewEngine(c.local, lock), t).0)
  {
    var chain := [c.local, c.local];
    assert IsLastCard(chain, c.local, 1);
    ChainSelfLinkedIff(chain, c.local);
    var e: Edge :| Neighbor(LinkAll(map[], ChainLinks(chain)), c.local, e) == Some(c.local);
    t := SelfLinkBreaks(c, NewMultiScreenSpace(map[c.local := rect], LinkAll(map[], ChainLinks(chain))), e, lock);
  }

  // ----- during a composition -----

  /** On a remote screen the cursor is there. */
  predicate CursorHere(c: Setup, s: Engine) {
    s.active != c.local ==> s.cursor.screen == s.active
  }

  lemma StepCursorHere(c: Setup, s: Engine, t: Tick)
    requires c.Valid() && t.Valid() && CursorHere(c, s)
    ensures CursorHere(c, Step(c, s, t).0)
  {
    if t.running && t.space.Some? {
      var sp := t.space.value;
      var r := Reconciled(c, sp, Arrived(s, t));
      var d := (SumX(r.queue), SumY(r.queue));
      if r.active != c.local {
        MultiDeltaStaysInside(sp, r.cursor, d.0, d.1);
      }
    }
  }

  lemma {:induction false} CursorStaysHere(c: Setup, s: Engine, ticks: seq<Tick>, n: nat)
    requires c.Valid() && (forall t | t in ticks :: t.Valid()) && CursorHere(c, s) && n <= |ticks|
    ensures CursorHere(c, StateAt(c, s, ticks, n))
  {
    if n == 0 {
      assert ticks[..0] == [];
    } else {
      CursorStaysHere(c, s, ticks, n - 1);
      StateAtNext(c, s, ticks, n - 1);
      StepCursorHere(c, StateAt(c, s, ticks, n - 1), ticks[n - 1]);
    }
  }

  /** Control passes from one remote screen to another in this tick. */
  predicate Passes(c: Setup, s: Engine, t: Tick)
    requires c.Valid() && t.Valid()
  {
    var after := Step(c, s, t).0; after.active != s.active && after.active != c.local
  }

  /**
   While a composition is open, control passes to another remote screen if and
   only if the active one is gone and the tick is about to enter a remote one.
   */
  lemma {:induction false} ComposingPassesIff(c: Setup, s: Engine, t: Tick)
    requires c.Valid() && t.Valid() && CursorHere(c, s) && s.active != c.local && t.composing
    ensures Passes(c, s, t) <==> Destination(c, s, t).Some? && Destination(c, s, t) != Some(c.local)
  {
    EntersDestination(c, s, t);
    if t.running && t.space.Some? {
      var sp := t.space.value;
      var r := Reconciled(c, sp, Arrived(s, t));
      if r.active != c.local {
        RemoteComposing(c, sp, r, t);
      } else {
        LocalMovesByEntering(c, sp, r, t);
      }
    }
  }

  lemma RemoteComposing(c: Setup, sp: MultiScreenSpace, s: Engine, t: Tick)
    requires sp.Valid() && s.active != c.local && t.composing
    ensures var (after, e) := RemoteTick(c, sp, s, t); (after.active == s.active || after.active == c.local) && !e.Entered?
  {
  }

  lemma LocalMovesByEntering(c: Setup, sp: MultiScreenSpace, s: Engine, t: Tick)
    requires c.Valid() && s.active == c.local
    ensures var (after, e) := LocalTick(c, sp, s, t); !e.Entered? ==> after.active == c.local
  {
  }

  /** Some tick of the run takes control to another remote screen during a composition. */
  ghost predicate PassesComposing(c: Setup, s: Engine, ticks: seq<Tick>, k: nat)
    requires c.Valid() && (forall t | t in ticks :: t.Valid()) && k < |ticks|
  {
    && RunsAt(c, s, ticks, k) && ticks[k].composing
    && StateAt(c, s, ticks, k).active != c.local && Passes(c, StateAt(c, s, ticks, k), ticks[k])
  }

  /** In such a tick the active screen is gone and another is about to be entered. */
  ghost predicate GoneAndEntering(c: Setup, s: Engine, ticks: seq<Tick>, k: nat)
    requires c.Valid() && (forall t | t in ticks :: t.Valid()) && k < |ticks|
  {
    var mid, t := StateAt(c, s, ticks, k), ticks[k];
    && RunsAt(c, s, ticks, k) && t.composing && mid.active != c.local
    && t.space.Some? && mid.active !in t.space.value.screens
    && Destination(c, mid, t).Some? && Destination(c, mid, t) != Some(c.local)
  }

  /** Over every run, tick by tick, the one is exactly the other. */
  lemma {:induction false} RunComposingIff(c: Setup, s: Engine, ticks: seq<Tick>)
    requires c.Valid() && (forall t | t in ticks :: t.Valid()) && CursorHere(c, s)
    ensures forall k: nat | k < |ticks| :: PassesComposing(c, s, ticks, k) <==> GoneAndEntering(c, s, ticks, k)
  {
    forall k: nat | k < |ticks| ensures PassesComposing(c, s, ticks, k) <==> GoneAndEntering(c, s, ticks, k) {
      CursorStaysHere(c, s, ticks, k);
      if ticks[k].composing && StateAt(c, s, ticks, k).active != c.local {
        ComposingPassesIff(c, StateAt(c, s, ticks, k), ticks[k]);
      }
    }
  }

  /**
   Such a run: one push enters screen `first`; a reconfiguration removes it; with
   the composition open one more push enters the screen now behind the edge.
   */
  lemma ComposingPasses(c: Setup, before: MultiScreenSpace, later: MultiScreenSpace, e: Edge, lock: Point)
    returns (ticks: seq<Tick>)
    requires c.Valid() && before.Valid() && later.Valid() && c.local in before.screens && c.local in later.screens
    requires c.deadCorner <= 0 && c.pace.dwellMs <= Max(c.pace.intervalMs, 1)
    requires before.Across(c.local, Some(e)).Some? && later.Across(c.local, Some(e)).Some?
    requires before.Across(c.local, Some(e)).value !in later.screens
    requires later.Across(c.local, Some(e)).value != c.local
    ensures |ticks| == 2 && (forall t | t in ticks :: t.Valid())
    ensures PassesComposing(c, NewEngine(c.local, lock), ticks, 1)
  {
    var s := NewEngine(c.local, lock);
    var t0 := PushEnters(c, before, s, e, before.Across(c.local, Some(e)).value, false);
    var t1 := PushEnters(c, later, Step(c, s, t0).0, e, later.Across(c.local, Some(e)).value, true);
    ticks := [t0, t1];
    AfterOneTick(c, s, ticks);
  }

  lemma AfterOneTick(c: Setup, s: Engine, ticks: seq<Tick>)
    requires c.Valid() && (forall t | t in ticks :: t.Valid()) && ticks != []
    ensures StateAt(c, s, ticks, 1) == Step(c, s, ticks[0]).0
    ensures RunsAt(c, s, ticks, 1) <==> !Step(c, s, ticks[0]).1.Stopped?
  {
    var one := ticks[..1];
    assert one[..|one| - 1] == [] && one[|one| - 1] == ticks[0];
    assert Run(c, s, []) == (s, []);
    assert [] + [Step(c, s, ticks[0]).1] == [Step(c, s, ticks[0]).1];
  }

  // ----- entering is earned -----

  function EvaluationsOf(effects: seq<Effect>): seq<Evaluation> {
    if effects == [] then []
    else
      var e := effects[|effects| - 1];
      EvaluationsOf(effects[..|effects| - 1]) + if e.Watched? || e.Entered? then [e.seen] else []
  }

  lemma EvaluationsNext(effects: seq<Effect>, e: Effect)
    ensures EvaluationsOf(effects + [e])
         == EvaluationsOf(effects) + if e.Watched? || e.Entered? then [e.seen] else []
  {
    assert (effects + [e])[..|effects|] == effects;
  }

  /** Where a local tick can enter: the place, the link and the corner are right. */
  predicate Leads(c: Setup, sp: MultiScreenSpace, p: Point, e: Edge, to: string) {
    && c.local in sp.screens && AtEdge(p, sp.screens[c.local], c.edgeMargin, e) && !NearCorner(p, sp.screens[c.local], c.deadCorner, e)
    && sp.Across(c.local, Some(e)) == Some(to)
  }

  /**
   In this tick some linked edge of the local screen was pressed outside the dead
   corner, and a push toward it had been drained at most 250 ms before.
   */
  ghost predicate ReadyAt(c: Setup, t: Tick, history: seq<Evaluation>) {
    && t.space.Some? && t.cursor.Some? && c.local in t.space.value.screens
    && exists e: Edge :: EdgeReady(c, t.space.value, t.cursor.value, e) && PushedRecently(history, e, t.now)
  }

  predicate EdgeReady(c: Setup, sp: MultiScreenSpace, p: Point, e: Edge) {
    && c.local in sp.screens && AtEdge(p, sp.screens[c.local], c.edgeMargin, e)
    && !NearCorner(p, sp.screens[c.local], c.deadCorner, e) && Neighbor(sp.links, c.local, e).Some?
  }

  lemma LocalGates(c: Setup, sp: MultiScreenSpace, s: Engine, t: Tick)
    requires c.Valid()
    ensures var (after, e) := LocalTick(c, sp, s, t);
            && (e.Watched? || e.Entered? ==>
                  && after.pushes == Recorded(s.pushes, e.seen.push.0, e.seen.push.1, t.now) && e.seen.now == t.now
                  && after.accumulated == c.pace.Guard().Step(s.accumulated, e.seen.eligible).0
                  && (e.Entered? ==> c.pace.Guard().Step(s.accumulated, e.seen.eligible).1)
                  && t.cursor.Some?
                  && (e.seen.eligible ==>
                        exists o: Edge :: EdgeReady(c, sp, t.cursor.value, o) && Fresh(after.pushes, o, t.now)))
            && (e.Entered? ==>
                  && after.active == e.screen && Fresh(after.pushes, e.edge, t.now)
                  && t.cursor.Some? && Leads(c, sp, t.cursor.value, e.edge, e.screen))
            && (e.Stopped? || e.Idle? || e.Watched? || e.Entered?)
            && (e.Idle? ==> after == s)
  {
  }

  lemma RemoteGates(c: Setup, sp: MultiScreenSpace, s: Engine, t: Tick)
    requires sp.Valid()
    ensures var (after, e) := RemoteTick(c, sp, s, t);
            !e.Watched? && !e.Entered? && !e.Stopped? && after.pushes == s.pushes && after.accumulated == s.accumulated
  {
  }

  /** What an effect says about the gates, given the history before it. */
  ghost predicate Justified(c: Setup, t: Tick, after: Engine, e: Effect, evs: seq<Evaluation>)
    requires c.Valid()
  {
    var history := evs + if e.Watched? || e.Entered? then [e.seen] else [];
    && (!e.Stopped? ==> GatesAfter(c.pace.Guard(), after.pushes, after.accumulated, history))
    && ((e.Watched? || e.Entered?) && e.seen.eligible ==> ReadyAt(c, t, history))
    && (e.Entered? ==>
          && DwellComplete(c.pace.Guard(), history) && t.space.Some? && t.cursor.Some?
          && Leads(c, t.space.value, t.cursor.value, e.edge, e.screen) && after.active == e.screen
          && PushedRecently(history, e.edge, t.now))
  }

  lemma LocalJustified(c: Setup, s: Engine, t: Tick, evs: seq<Evaluation>)
    requires c.Valid() && t.space.Some? && GatesAfter(c.pace.Guard(), s.pushes, s.accumulated, evs)
    ensures var (after, e) := LocalTick(c, t.space.value, s, t); Justified(c, t, after, e, evs)
  {
    var sp := t.space.value;
    var (after, e) := LocalTick(c, sp, s, t);
    assert evs + [] == evs;
    LocalGates(c, sp, s, t);
    if e.Watched? || e.Entered? {
      EvaluateNext(c.pace.Guard(), s.pushes, s.accumulated, evs, e.seen);
      if e.seen.eligible {
        var o: Edge :| EdgeReady(c, sp, t.cursor.value, o) && Fresh(after.pushes, o, t.now);
        FreshPush(evs + [e.seen], o, t.now);
      }
      if e.Entered? {
        FreshPush(evs + [e.seen], e.edge, t.now);
      }
    }
  }

  lemma StepGates(c: Setup, s: Engine, t: Tick, evs: seq<Evaluation>)
    requires c.Valid() && t.Valid() && GatesAfter(c.pace.Guard(), s.pushes, s.accumulated, evs)
    ensures var (after, e) := Step(c, s, t); Justified(c, t, after, e, evs)
  {
    if t.running && t.space.Some? {
      var sp := t.space.value;
      var r := Reconciled(c, sp, Arrived(s, t));
      if r.active != c.local {
        RemoteGates(c, sp, r, t);
        assert evs + [] == evs;
      } else {
        LocalJustified(c, r, t, evs);
      }
    }
  }

  /** The tick of each evaluation. */
  function EvaluatedTicks(effects: seq<Effect>): seq<nat> {
    if effects == [] then []
    else
      var n := |effects| - 1;
      EvaluatedTicks(effects[..n]) + if effects[n].Watched? || effects[n].Entered? then [n] else []
  }

  lemma {:induction false} EvaluatedTicksAre(effects: seq<Effect>)
    ensures |EvaluatedTicks(effects)| == |EvaluationsOf(effects)|
    ensures forall j | 0 <= j < |EvaluatedTicks(effects)| ::
      var n := EvaluatedTicks(effects)[j];
      n < |effects| && (effects[n].Watched? || effects[n].Entered?) && EvaluationsOf(effects)[j] == effects[n].seen
  {
    if effects != [] {
      var n, front := |effects| - 1, effects[..|effects| - 1];
      EvaluatedTicksAre(front);
      assert forall i | 0 <= i < n :: front[i] == effects[i];
    }
  }

  /** If the n-th effect is an evaluation counted as eligible, it was ready. */
  ghost predicate ReadyIfEligible(c: Setup, ticks: seq<Tick>, effects: seq<Effect>, n: nat)
    requires n < |effects| == |ticks|
  {
    (effects[n].Watched? || effects[n].Entered?) && effects[n].seen.eligible ==>
      ReadyAt(c, ticks[n], EvaluationsOf(effects[..n + 1]))
  }

  ghost predicate EligibleAreReady(c: Setup, ticks: seq<Tick>, effects: seq<Effect>) {
    |ticks| == |effects| && forall n: nat | n < |effects| :: ReadyIfEligible(c, ticks, effects, n)
  }

  lemma EligibleAreReadyNext(c: Setup, ticks: seq<Tick>, effects: seq<Effect>, t: Tick, e: Effect)
    requires EligibleAreReady(c, ticks, effects)
    requires (e.Watched? || e.Entered?) && e.seen.eligible ==> ReadyAt(c, t, EvaluationsOf(effects + [e]))
    ensures EligibleAreReady(c, ticks + [t], effects + [e])
  {
    var all := effects + [e];
    forall n: nat | n < |all| ensures ReadyIfEligible(c, ticks + [t], all, n) {
      if n < |effects| {
        assert ReadyIfEligible(c, ticks, effects, n);
        assert all[..n + 1] == effects[..n + 1];
      } else {
        assert all[..n + 1] == all;
      }
    }
  }

  lemma {:induction false} RunGates(c: Setup, lock: Point, ticks: seq<Tick>)
    requires c.Valid() && forall t | t in ticks :: t.Valid()
    ensures var (end, effects) := Run(c, NewEngine(c.local, lock), ticks);
            && EligibleAreReady(c, ticks, effects)
            && (Runs(effects) ==> GatesAfter(c.pace.Guard(), end.pushes, end.accumulated, EvaluationsOf(effects)))
  {
    if ticks != [] {
      var front, t := ticks[..|ticks| - 1], ticks[|ticks| - 1];
      RunGates(c, lock, front);
      var (mid, before) := Run(c, NewEngine(c.local, lock), front);
      assert ticks == front + [t];
      if Runs(before) {
        var e := Step(c, mid, t).1;
        StepGates(c, mid, t, EvaluationsOf(before));
        EvaluationsNext(before, e);
        EligibleAreReadyNext(c, front, before, t, e);
      } else {
        EligibleAreReadyNext(c, front, before, t, Stopped);
      }
    }
  }

  /** In each of the last k ticks that evaluated the edges, some edge was ready. */
  ghost predicate ReadyThroughout(c: Setup, ticks: seq<Tick>, effects: seq<Effect>)
    requires c.Valid() && |ticks| == |effects|
  {
    var idx, k := EvaluatedTicks(effects), c.pace.Guard().TicksToFire();
    && k <= |idx|
    && forall j | |idx| - k <= j < |idx| ::
         idx[j] < |effects| && ReadyAt(c, ticks[idx[j]], EvaluationsOf(effects[..idx[j] + 1]))
  }

  lemma DwellMeansReady(c: Setup, ticks: seq<Tick>, effects: seq<Effect>)
    requires c.Valid() && EligibleAreReady(c, ticks, effects) && DwellComplete(c.pace.Guard(), EvaluationsOf(effects))
    ensures ReadyThroughout(c, ticks, effects)
  {
    var idx := EvaluatedTicks(effects);
    LastTicksEligible(c.pace.Guard(), EvaluationsOf(effects));
    EvaluatedTicksAre(effects);
    forall j | |idx| - c.pace.Guard().TicksToFire() <= j < |idx| ensures ReadyAt(c, ticks[idx[j]], EvaluationsOf(effects[..idx[j] + 1])) {
      assert ReadyIfEligible(c, ticks, effects, idx[j]);
    }
  }

  /**
   A tick of a running router enters a screen only through the link at an edge
   the cursor is at, outside the dead corner, with a push toward it drained at
   most 250 ms ago; and in each of the last max(1, ceil(dwell/interval)) ticks
   that evaluated the edges, this one among them, some edge was ready like that.
   */
  lemma {:induction false} EnteringEarned(c: Setup, lock: Point, ticks: seq<Tick>, t: Tick)
    requires c.Valid() && (forall u | u in ticks :: u.Valid()) && t.Valid()
    requires Runs(Run(c, NewEngine(c.local, lock), ticks).1)
    ensures var (s, effects) := Run(c, NewEngine(c.local, lock), ticks);
            var (after, e) := Step(c, s, t);
            e.Entered? ==>
              && t.space.Some? && t.cursor.Some?
              && Leads(c, t.space.value, t.cursor.value, e.edge, e.screen) && after.active == e.screen
              && PushedRecently(EvaluationsOf(effects + [e]), e.edge, t.now)
              && ReadyThroughout(c, ticks + [t], effects + [e])
  {
    var (s, effects) := Run(c, NewEngine(c.local, lock), ticks);
    var e := Step(c, s, t).1;
    RunGates(c, lock, ticks);
    StepGates(c, s, t, EvaluationsOf(effects));
    EvaluationsNext(effects, e);
    EligibleAreReadyNext(c, ticks, effects, t, e);
    if e.Entered? {
      DwellMeansReady(c, ticks + [t], effects + [e]);
    }
  }

  // ----- positions -----

  function SentBy(e: Effect): Option<Point> {
    if e.Entered? || e.Switched? || e.Moved? then e.sent else None
  }

  /** On a real monitor of the screen if one is known, and otherwise in its rect. */
  ghost predicate OnScreen(sp: MultiScreenSpace, t: Tick, screen: string, p: Point) {
    && screen in sp.screens
    && (if SomeNonDegenerate(t.MonitorsOf(screen)) then OnSome(p, t.MonitorsOf(screen))
        else sp.screens[screen].Contains(p.0, p.1))
  }

  lemma PlacedOnScreen(sp: MultiScreenSpace, t: Tick, cursor: ScreenCursor)
    requires sp.Inside(cursor)
    ensures OnScreen(sp, t, cursor.screen, (Placed(cursor, t).x, Placed(cursor, t).y))
  {
    ClampPointIsProjection(cursor.x, cursor.y, t.MonitorsOf(cursor.screen));
  }

  lemma CrossingOnScreen(sp: MultiScreenSpace, s: Engine, t: Tick, seen: Evaluation, local: string, e: Edge, p: Point)
    requires sp.Valid()
    ensures var (after, effect) := Crossing(sp, s, t, seen, local, e, p);
            effect.Entered? ==> after.active in sp.screens && OnScreen(sp, t, after.active, (after.cursor.x, after.cursor.y))
  {
    var entry := sp.EnterNeighbor(local, e, p.0, p.1);
    if entry.Some? {
      EnterInside(sp, sp.screens[local], sp.screens[entry.value.screen], e, p.0, p.1);
      PlacedOnScreen(sp, t, entry.value);
    }
  }

  lemma RemoteOnScreen(c: Setup, sp: MultiScreenSpace, s: Engine, t: Tick)
    requires sp.Valid() && s.cursor.screen == s.active && s.active in sp.screens
    ensures var (after, e) := RemoteTick(c, sp, s, t);
            SentBy(e).Some? ==> OnScreen(sp, t, after.active, SentBy(e).value)
  {
    var d := (SumX(s.queue), SumY(s.queue));
    MultiDeltaStaysInside(sp, s.cursor, d.0, d.1);
    PlacedOnScreen(sp, t, sp.ApplyDelta(s.cursor, d.0, d.1).0);
  }

  lemma {:induction false} SentOnScreen(c: Setup, s: Engine, t: Tick)
    requires c.Valid() && t.Valid() && CursorHere(c, s)
    ensures var (after, e) := Step(c, s, t);
            SentBy(e).Some? ==> t.space.Some? && OnScreen(t.space.value, t, after.active, SentBy(e).value)
  {
    if t.running && t.space.Some? {
      var sp := t.space.value;
      var r := Reconciled(c, sp, Arrived(s, t));
      if r.active != c.local {
        RemoteOnScreen(c, sp, r, t);
      } else if t.cursor.Some? && c.local in sp.screens {
        LocalOnScreen(c, sp, r, t);
      }
    }
  }

  lemma LocalOnScreen(c: Setup, sp: MultiScreenSpace, s: Engine, t: Tick)
    requires c.Valid() && sp.Valid() && t.cursor.Some? && c.local in sp.screens
    ensures var (after, e) := LocalTick(c, sp, s, t);
            SentBy(e).Some? ==> OnScreen(sp, t, after.active, SentBy(e).value)
  {
    var p, r := t.cursor.value, sp.screens[c.local];
    var pushes := Recorded(s.pushes, SumX(s.queue), SumY(s.queue), t.now);
    var e := FirstReady(c, sp, pushes, t.now, p, r);
    var (accumulated, fire) := c.pace.Guard().Step(s.accumulated, e.Some? && !NearCorner(p, r, c.deadCorner, e.value));
    if fire {
      var seen := Evaluation(true, (SumX(s.queue), SumY(s.queue)), t.now);
      CrossingOnScreen(sp, s.(queue := [], pushes := pushes, accumulated := accumulated), t, seen, c.local, e.value, p);
    }
  }

  /** The effect of the n-th tick of a run. */
  lemma {:induction false} EffectAt(c: Setup, s: Engine, ticks: seq<Tick>, n: nat)
    requires c.Valid() && (forall t | t in ticks :: t.Valid()) && n < |ticks|
    ensures Run(c, s, ticks).1[n] == if RunsAt(c, s, ticks, n) then Step(c, StateAt(c, s, ticks, n), ticks[n]).1 else Stopped
    decreases |ticks|
  {
    var last := |ticks| - 1;
    if n < last {
      var front := ticks[..last];
      assert front[..n] == ticks[..n] && front[n] == ticks[n];
      EffectAt(c, s, front, n);
    } else {
      assert ticks[..n] == ticks[..last];
    }
  }

  /**
   Over every run each position sent is on the screen then active: on one of its
   real monitors if one is known, and otherwise in its rect.
   */
  lemma {:induction false} RunSentOnScreen(c: Setup, s: Engine, ticks: seq<Tick>, n: nat)
    requires c.Valid() && (forall t | t in ticks :: t.Valid()) && CursorHere(c, s) && n < |ticks|
    ensures var sent := SentBy(Run(c, s, ticks).1[n]);
            sent.Some? ==> ticks[n].space.Some?
                           && OnScreen(ticks[n].space.value, ticks[n], StateAt(c, s, ticks, n + 1).active, sent.value)
  {
    EffectAt(c, s, ticks, n);
    CursorStaysHere(c, s, ticks, n);
    StateAtNext(c, s, ticks, n);
    SentOnScreen(c, StateAt(c, s, ticks, n), ticks[n]);
  }

  // ----- the link watchdog -----

  /** Every tick on a remote screen looks at its session; entering and giving up reset. */
  function LooksOf(e: Effect): seq<Look> {
    if e.Entered? then [Look(true, e.seen.now)]
    else if e.LinkLost? then [Look(true, e.now)]
    else if e.Rested? || e.Reverted? || e.Home? || e.Switched? || e.Moved? then [Look(e.alive, e.now)]
    else []
  }

  function AllLooks(effects: seq<Effect>): seq<Look> {
    if effects == [] then [] else AllLooks(effects[..|effects| - 1]) + LooksOf(effects[|effects| - 1])
  }

  lemma RemoteWatches(c: Setup, sp: MultiScreenSpace, s: Engine, t: Tick)
    requires sp.Valid()
    ensures var (after, e) := RemoteTick(c, sp, s, t);
            var down := Armed(s.downSince, Look(s.active in t.senders, t.now));
            && (e.LinkLost? <==> Expired(down, t.now, LINK_LOST_MS))
            && (e.LinkLost? ==> after.active == c.local && after.downSince == None)
            && (!e.LinkLost? ==> after.downSince == down && LooksOf(e) == [Look(s.active in t.senders, t.now)])
  {
  }

  lemma LocalWatches(c: Setup, sp: MultiScreenSpace, s: Engine, t: Tick)
    requires c.Valid()
    ensures var (after, e) := LocalTick(c, sp, s, t);
            && (e.Entered? ==> after.downSince == None)
            && (!e.Entered? ==> after.downSince == s.downSince && LooksOf(e) == [])
            && !e.LinkLost?
  {
  }

  /** The active screen is remote and still there, so the tick looks at its session. */
  predicate Looks(c: Setup, s: Engine, t: Tick) {
    t.running && t.space.Some? && s.active != c.local && s.active in t.space.value.screens
  }

  lemma StepWatches(c: Setup, s: Engine, t: Tick, looks: seq<Look>)
    requires c.Valid() && t.Valid() && s.downSince == ArmedAfter(looks)
    ensures var (after, e) := Step(c, s, t);
            && after.downSince == ArmedAfter(looks + LooksOf(e))
            && (e.LinkLost? <==>
                  (Looks(c, s, t)
                   && Expired(ArmedAfter(looks + [Look(s.active in t.senders, t.now)]), t.now, LINK_LOST_MS)))
  {
    var e := Step(c, s, t).1;
    assert looks + [] == looks;
    assert forall l: Look :: (looks + [l])[..|looks|] == looks;
    if t.running && t.space.Some? {
      var sp := t.space.value;
      var r := Reconciled(c, sp, Arrived(s, t));
      if r.active == c.local {
        LocalWatches(c, sp, r, t);
      } else {
        RemoteWatches(c, sp, r, t);
      }
    }
  }

  lemma LooksNext(effects: seq<Effect>, e: Effect)
    ensures AllLooks(effects + [e]) == AllLooks(effects) + LooksOf(e)
  {
    assert (effects + [e])[..|effects|] == effects;
  }

  lemma {:induction false} RunWatches(c: Setup, s: Engine, ticks: seq<Tick>)
    requires c.Valid() && (forall t | t in ticks :: t.Valid()) && s.downSince == None
    ensures var (end, effects) := Run(c, s, ticks); end.downSince == ArmedAfter(AllLooks(effects))
  {
    if ticks != [] {
      var front, last := ticks[..|ticks| - 1], ticks[|ticks| - 1];
      RunWatches(c, s, front);
      var (mid, before) := Run(c, s, front);
      if Runs(before) {
        StepWatches(c, mid, last, AllLooks(before));
        LooksNext(before, Step(c, mid, last).1);
      } else {
        LooksNext(before, Stopped);
        assert AllLooks(before) + [] == AllLooks(before);
      }
    }
  }

  /**
   The router gives a remote screen up exactly if every look at the then active
   session in the last 1.5 s or more, since the last entry, found none.
   */
  lemma LinkLostIff(c: Setup, s: Engine, ticks: seq<Tick>, t: Tick)
    requires c.Valid() && (forall u | u in ticks :: u.Valid()) && t.Valid() && s.downSince == None
    ensures var (mid, effects) := Run(c, s, ticks);
            var looks := AllLooks(effects) + [Look(mid.active in t.senders, t.now)];
            Step(c, mid, t).1.LinkLost?
            <==> Looks(c, mid, t) && exists i: nat :: DownFrom(looks, i) && t.now - looks[i].now >= LINK_LOST_MS
  {
    var (mid, effects) := Run(c, s, ticks);
    RunWatches(c, s, ticks);
    StepWatches(c, mid, t, AllLooks(effects));
    ExpiredIff(AllLooks(effects) + [Look(mid.active in t.senders, t.now)], t.now, LINK_LOST_MS);
  }

  // ----- the loop -----

  class RouterLoop {
    const setup: Setup
    const guard: SwitchGuard
    const gate: PushGate
    var active: string
    var cursor: ScreenCursor
    var slot: Option<string>
    var control: bool
    var mouseHook: bool
    var keyHook: bool
    var confined: bool
    var anchored: bool
    var downSince: Option<int>
    var queue: seq<(int, int)>

    ghost predicate Valid()
      reads this, guard, gate, gate.last
    {
      setup.Valid() && gate.Valid() && guard.config == setup.pace.Guard()
    }

    ghost function State(): Engine
      requires gate.Valid()
      reads this, guard, gate, gate.last
    {
      Engine(active, cursor, Grip(slot, control, mouseHook, keyHook, confined, anchored), downSince, queue,
             gate.last[..], guard.accumulatedMs)
    }

    constructor (setup: Setup, lock: Point)
      requires setup.Valid()
      ensures Valid() && fresh(guard) && fresh(gate) && fresh(gate.last)
      ensures this.setup == setup && State() == NewEngine(setup.local, lock)
    {
      this.setup := setup;
      guard := new SwitchGuard(setup.pace);
      gate := new PushGate();
      active, cursor := setup.local, ScreenCursor(setup.local, lock.0, lock.1);
      slot, control, mouseHook, keyHook, confined, anchored := None, false, false, false, false, false;
      downSince, queue := None, [];
    }

    method LetGo()
      requires Valid()
      modifies this`active, this`slot, this`control, this`mouseHook, this`keyHook, this`confined, this`anchored
      ensures Valid() && State() == BackHome(setup, old(State()))
    {
      active, slot, control, mouseHook, keyHook, confined, anchored := setup.local, None, false, false, false, false, false;
    }

    method Drain() returns (dx: int, dy: int)
      modifies this`queue
      ensures queue == [] && dx == SumX(old(queue)) && dy == SumY(old(queue))
    {
      dx, dy := AddUp(queue);
      queue := [];
    }

    method FindEdge(sp: MultiScreenSpace, p: Point, r: Rect, now: int) returns (found: Option<Edge>)
      requires gate.Valid()
      ensures found == FirstReady(setup, sp, gate.last[..], now, p, r)
    {
      var order := [Edge.Right, Edge.Left, Edge.Top, Edge.Bottom];
      for i := 0 to 4
        invariant forall j | 0 <= j < i :: !Ready(setup, sp, gate.last[..], now, p, r, order[j])
      {
        var e := order[i];
        if AtEdge(p, r, setup.edgeMargin, e) && gate.IsFresh(e, now) && Neighbor(sp.links, setup.local, e).Some? {
          assert order[0] == Edge.Right && order[1] == Edge.Left && order[2] == Edge.Top;
          return Some(e);
        }
      }
      found := None;
      assert !Ready(setup, sp, gate.last[..], now, p, r, order[0]) && !Ready(setup, sp, gate.last[..], now, p, r, order[1])
          && !Ready(setup, sp, gate.last[..], now, p, r, order[2]) && !Ready(setup, sp, gate.last[..], now, p, r, order[3]);
    }

    method PlaceCursor(t: Tick)
      modifies this`cursor
      ensures cursor == Placed(old(cursor), t)
    {
      var p := ClampToRects(cursor.x, cursor.y, t.MonitorsOf(cursor.screen));
      cursor := ScreenCursor(cursor.screen, p.0, p.1);
    }

    /** Publish the anchor, bind the session, take control, hooks and the clip. */
    method TakeGrip(t: Tick)
      modifies this`slot, this`control, this`mouseHook, this`keyHook, this`confined, this`anchored
      ensures slot == t.SenderOf(active) && control && anchored
      ensures mouseHook == (old(mouseHook) || t.outside.mouseOpens)
      ensures keyHook == (old(keyHook) || t.outside.keyOpens)
      ensures confined == (old(confined) || t.outside.confines)
    {
      anchored, slot, control := true, t.SenderOf(active), true;
      mouseHook, keyHook := mouseHook || t.outside.mouseOpens, keyHook || t.outside.keyOpens;
      confined := confined || t.outside.confines;
    }

    method Enter(sp: MultiScreenSpace, t: Tick, seen: Evaluation, e: Edge, p: Point) returns (effect: Effect)
      requires Valid()
      modifies this
      ensures Valid() && (State(), effect) == Crossing(sp, old(State()), t, seen, setup.local, e, p)
    {
      var entry := sp.EnterNeighbor(setup.local, e, p.0, p.1);
      if entry.None? {
        return Watched(seen);
      }
      active, cursor := entry.value.screen, entry.value;
      PlaceCursor(t);
      downSince := None;
      TakeGrip(t);
      effect := Entered(seen, e, active, SentTo(cursor, t));
    }

    method FollowLocal(sp: MultiScreenSpace, t: Tick) returns (effect: Effect)
      requires Valid()
      modifies this, guard, gate.last
      ensures Valid() && (State(), effect) == LocalTick(setup, sp, old(State()), t)
    {
      if t.cursor.None? {
        return Idle;
      }
      var p := t.cursor.value;
      var dx, dy := Drain();
      gate.RecordDelta(dx, dy, t.now);
      if setup.local !in sp.screens {
        return Stopped;
      }
      var r := sp.screens[setup.local];
      var found := FindEdge(sp, p, r, t.now);
      var nearCorner := found.Some? && NearCorner(p, r, setup.deadCorner, found.value);
      var fire := guard.Update(found.Some?, nearCorner);
      var seen := Evaluation(found.Some? && !nearCorner, (dx, dy), t.now);
      if fire {
        effect := Enter(sp, t, seen, found.value, p);
      } else {
        effect := Watched(seen);
      }
    }

    method Switch(sp: MultiScreenSpace, t: Tick, alive: bool, next: ScreenCursor) returns (effect: Effect)
      requires Valid()
      modifies this
      ensures Valid() && (State(), effect) == Switching(setup, sp, old(State()), t, alive, next)
    {
      var previous := cursor;
      cursor := next;
      if cursor.screen != setup.local && t.composing {
        cursor := previous;
        effect := Reverted(t.now, alive);
      } else if cursor.screen == setup.local {
        LetGo();
        effect := Home(t.now, alive, (cursor.x, cursor.y));
      } else {
        active := cursor.screen;
        PlaceCursor(t);
        slot := t.SenderOf(active);
        anchored := Anchors(setup, sp, active);
        effect := Switched(t.now, alive, active, SentTo(cursor, t));
      }
    }

    method DriveRemote(sp: MultiScreenSpace, t: Tick) returns (effect: Effect)
      requires Valid() && sp.Valid()
      modifies this
      ensures Valid() && (State(), effect) == RemoteTick(setup, sp, old(State()), t)
    {
      var alive := active in t.senders;
      if alive {
        downSince := None;
      } else if downSince.None? {
        downSince := Some(t.now);
      }
      if downSince.Some? && t.now - downSince.value >= LINK_LOST_MS {
        downSince := None;
        LetGo();
        return LinkLost(t.now, alive);
      }
      var dx, dy := Drain();
      if dx == 0 && dy == 0 {
        return Rested(t.now, alive);
      }
      var (next, switch) := sp.ApplyDelta(cursor, dx, dy);
      if switch.Some? {
        effect := Switch(sp, t, alive, next);
      } else {
        effect := Steer(sp, t, alive, next);
      }
    }

    method Steer(sp: MultiScreenSpace, t: Tick, alive: bool, next: ScreenCursor) returns (effect: Effect)
      requires Valid()
      modifies this
      ensures Valid() && (State(), effect) == Steering(setup, sp, old(State()), t, alive, next)
    {
      cursor := next;
      if alive {
        PlaceCursor(t);
        anchored := Anchors(setup, sp, active);
        effect := Moved(t.now, alive, Some((cursor.x, cursor.y)));
      } else {
        effect := Moved(t.now, alive, None);
      }
    }

    /** What happened outside since the last tick. */
    method Arrive(t: Tick)
      modifies this`control, this`mouseHook, this`keyHook, this`confined, this`queue
      ensures control == (old(control) && !t.outside.controlGone)
      ensures mouseHook == (old(mouseHook) && !t.outside.mouseGone)
      ensures keyHook == (old(keyHook) && !t.outside.keyGone)
      ensures confined == (old(confined) && !t.outside.unconfined)
      ensures queue == old(queue) + Deltas(t.reports)
    {
      control, mouseHook := control && !t.outside.controlGone, mouseHook && !t.outside.mouseGone;
      keyHook, confined := keyHook && !t.outside.keyGone, confined && !t.outside.unconfined;
      queue := queue + Deltas(t.reports);
    }

    method TakeTick(t: Tick) returns (effect: Effect)
      requires Valid() && t.Valid()
      modifies this, guard, gate.last
      ensures Valid() && (State(), effect) == Step(setup, old(State()), t)
    {
      Arrive(t);
      if !t.running || t.space.None? {
        return Stopped;
      }
      var sp := t.space.value;
      if active != setup.local && active !in sp.screens {
        LetGo();
      }
      if active == setup.local {
        effect := FollowLocal(sp, t);
      } else {
        effect := DriveRemote(sp, t);
      }
    }

    /** Behind the loop; the slot is local to it and is not cleared. */
    method Leave()
      modifies this`control, this`mouseHook, this`keyHook, this`confined, this`anchored
      ensures !control && !mouseHook && !keyHook && !confined && !anchored
    {
      confined, mouseHook, keyHook, anchored, control := false, false, false, false, false;
    }
  }

  lemma RunNext(c: Setup, s: Engine, ticks: seq<Tick>, i: nat)
    requires c.Valid() && (forall t | t in ticks :: t.Valid()) && i < |ticks|
    requires Runs(Run(c, s, ticks[..i]).1)
    ensures var (mid, before) := Run(c, s, ticks[..i]);
            Run(c, s, ticks[..i + 1]) == (Step(c, mid, ticks[i]).0, before + [Step(c, mid, ticks[i]).1])
  {
    assert ticks[..i + 1][..i] == ticks[..i];
  }

  /**
   A whole run of the router. Wherever it ends, nothing stays confined, hooked,
   published or under remote control.
   */
  method Route(setup: Setup, lock: Point, ticks: seq<Tick>) returns (effects: seq<Effect>, end: Grip)
    requires setup.Valid() && forall t | t in ticks :: t.Valid()
    ensures |effects| <= |ticks|
    ensures effects == Run(setup, NewEngine(setup.local, lock), ticks[..|effects|]).1
    ensures |effects| < |ticks| ==> effects != [] && effects[|effects| - 1].Stopped?
    ensures forall i | 0 <= i < |effects| - 1 :: !effects[i].Stopped?
    ensures !end.control && !end.mouseHook && !end.keyHook && !end.confined && !end.anchored
  {
    var loop := new RouterLoop(setup, lock);
    effects := [];
    var i := 0;
    while i < |ticks| && (effects == [] || !effects[|effects| - 1].Stopped?)
      invariant 0 <= i <= |ticks| && |effects| == i
      invariant loop.Valid() && loop.setup == setup
      invariant fresh(loop) && fresh(loop.guard) && fresh(loop.gate) && fresh(loop.gate.last)
      invariant (loop.State(), effects) == Run(setup, NewEngine(setup.local, lock), ticks[..i])
      invariant forall j | 0 <= j < i - 1 :: !effects[j].Stopped?
    {
      RunNext(setup, NewEngine(setup.local, lock), ticks, i);
      var e := loop.TakeTick(ticks[i]);
      effects := effects + [e];
      i := i + 1;
    }
    loop.Leave();
    end := Grip(loop.slot, loop.control, loop.mouseHook, loop.keyHook, loop.confined, loop.anchored);
  }
}
