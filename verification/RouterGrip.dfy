/**
 What the router holds, and where the cursor goes, tick by tick and over runs
 (`run_router`, apps/tailkvm-ui/src-tauri/src/router.rs), read off the reports,
 the live sessions and the effects of the ticks.
 */
module RouterGrip {
  import opened Basics
  import opened ScreenSpace
  import opened LayoutGraph
  import opened Gates
  import opened Router

  // ----- what is held after a tick -----

  predicate Binds(e: Effect) {
    e.Entered? || e.Switched?
  }

  function BoundTo(e: Effect): string
    requires Binds(e)
  {
    e.screen
  }

  /** Control came home in this tick. */
  predicate CameHome(c: Setup, s: Engine, after: Engine, e: Effect) {
    after.active != s.active && !Binds(e)
  }

  /** Held before and not taken away since. */
  function StillHeld(held: bool, gone: bool): bool {
    held && !gone
  }

  /** A tick that enters or switches to a screen binds its session if that is live; coming home drops it; otherwise it stays. */
  ghost predicate HoldsSlot(c: Setup, s: Engine, t: Tick, after: Engine, e: Effect) {
    && (if Binds(e) then after.active == BoundTo(e) else after.active == s.active || after.active == c.local)
    && after.grip.slot == (if Binds(e) then (if after.active in t.senders then Some(after.active) else None)
                           else if CameHome(c, s, after, e) then None else s.grip.slot)
  }

  /**
   Entering takes control, hooks and the clip if they can be had; coming home
   drops them; otherwise they stay, but for what was taken away.
   */
  ghost predicate HoldsInput(c: Setup, s: Engine, t: Tick, after: Engine, e: Effect) {
    var was, g, o := s.grip, after.grip, t.outside;
    if e.Entered? then
      && g.control
      && (g.mouseHook <==> o.mouseOpens || (s.active == c.local && StillHeld(was.mouseHook, o.mouseGone)))
      && (g.keyHook <==> o.keyOpens || (s.active == c.local && StillHeld(was.keyHook, o.keyGone)))
      && (g.confined <==> o.confines || (s.active == c.local && StillHeld(was.confined, o.unconfined)))
    else if CameHome(c, s, after, e) then !g.control && !g.mouseHook && !g.keyHook && !g.confined
    else
      && g.control == StillHeld(was.control, o.controlGone)
      && g.mouseHook == StillHeld(was.mouseHook, o.mouseGone)
      && g.keyHook == StillHeld(was.keyHook, o.keyGone)
      && g.confined == StillHeld(was.confined, o.unconfined)
  }

  /** The anchor is published on entry, dropped on coming home, and otherwise renewed with every position sent. */
  ghost predicate HoldsAnchor(c: Setup, s: Engine, t: Tick, after: Engine, e: Effect) {
    if e.Entered? then after.grip.anchored
    else if CameHome(c, s, after, e) then !after.grip.anchored
    else if e.Switched? || (e.Moved? && e.alive) then
      t.space.Some? && (after.grip.anchored <==> c.local in t.space.value.screens)
    else after.grip.anchored == s.grip.anchored
  }

  ghost predicate Holds(c: Setup, s: Engine, t: Tick, after: Engine, e: Effect) {
    HoldsSlot(c, s, t, after, e) && HoldsInput(c, s, t, after, e) && HoldsAnchor(c, s, t, after, e)
  }

  /** The grip after a remote tick, the one before it being what others left of it. */
  predicate RemoteGrip(c: Setup, sp: MultiScreenSpace, s: Engine, t: Tick, after: Engine, e: Effect) {
    && !e.Entered?
    && (if e.Switched? then
          && after.active == e.screen && after.active != c.local
          && after.grip == s.grip.(slot := t.SenderOf(e.screen), anchored := c.local in sp.screens)
        else if after.active == c.local then after.grip == NO_GRIP
        else after.active == s.active
             && after.grip == if e.Moved? && e.alive then s.grip.(anchored := c.local in sp.screens) else s.grip)
  }

  lemma RemoteHolds(c: Setup, sp: MultiScreenSpace, s: Engine, t: Tick)
    requires sp.Valid() && CursorHere(c, s) && s.active != c.local && s.active in sp.screens
    ensures var (after, e) := RemoteTick(c, sp, s, t); RemoteGrip(c, sp, s, t, after, e)
  {
    var d := (SumX(s.queue), SumY(s.queue));
    MultiDeltaStaysInside(sp, s.cursor, d.0, d.1);
  }

  predicate LocalGrip(c: Setup, s: Engine, t: Tick, after: Engine, e: Effect) {
    && !e.Switched? && !e.Moved?
    && (if e.Entered? then after.active == e.screen && after.grip == Taken(s.grip, e.screen, t)
        else after.active == c.local && after.grip == s.grip)
  }

  lemma LocalHolds(c: Setup, sp: MultiScreenSpace, s: Engine, t: Tick)
    requires c.Valid() && s.active == c.local
    ensures var (after, e) := LocalTick(c, sp, s, t); LocalGrip(c, s, t, after, e)
  {
  }

  lemma HoldsRemotely(c: Setup, sp: MultiScreenSpace, s: Engine, t: Tick, after: Engine, e: Effect)
    requires t.space == Some(sp) && s.active != c.local && RemoteGrip(c, sp, Arrived(s, t), t, after, e)
    ensures HoldsSlot(c, s, t, after, e) && HoldsAnchor(c, s, t, after, e)
  {
  }

  lemma HoldsInputRemotely(c: Setup, sp: MultiScreenSpace, s: Engine, t: Tick, after: Engine, e: Effect)
    requires s.active != c.local && RemoteGrip(c, sp, Arrived(s, t), t, after, e)
    ensures HoldsInput(c, s, t, after, e)
  {
  }

  lemma HoldsLocally(c: Setup, sp: MultiScreenSpace, s: Engine, t: Tick, after: Engine, e: Effect)
    requires s.active == c.local || s.active !in sp.screens
    requires LocalGrip(c, Reconciled(c, sp, Arrived(s, t)), t, after, e) && (e.Entered? ==> e.screen in sp.screens)
    ensures HoldsSlot(c, s, t, after, e) && HoldsAnchor(c, s, t, after, e)
  {
  }

  lemma HoldsInputLocally(c: Setup, sp: MultiScreenSpace, s: Engine, t: Tick, after: Engine, e: Effect)
    requires s.active == c.local || s.active !in sp.screens
    requires LocalGrip(c, Reconciled(c, sp, Arrived(s, t)), t, after, e) && (e.Entered? ==> e.screen in sp.screens)
    ensures HoldsInput(c, s, t, after, e)
  {
  }

  lemma EntersKnown(c: Setup, sp: MultiScreenSpace, s: Engine, t: Tick)
    requires c.Valid()
    ensures var e := LocalTick(c, sp, s, t).1; e.Entered? ==> e.screen in sp.screens
  {
  }

  lemma {:induction false} StepHolds(c: Setup, s: Engine, t: Tick)
    requires c.Valid() && t.Valid() && CursorHere(c, s)
    ensures var (after, e) := Step(c, s, t); Holds(c, s, t, after, e)
  {
    if t.running && t.space.Some? {
      var sp := t.space.value;
      var (after, e) := Step(c, s, t);
      var r := Reconciled(c, sp, Arrived(s, t));
      if r.active == c.local {
        LocalHolds(c, sp, r, t);
        EntersKnown(c, sp, r, t);
        HoldsLocally(c, sp, s, t, after, e);
        HoldsInputLocally(c, sp, s, t, after, e);
      } else {
        RemoteHolds(c, sp, r, t);
        HoldsRemotely(c, sp, s, t, after, e);
        HoldsInputRemotely(c, sp, s, t, after, e);
      }
    }
  }

  // ----- over a run -----

  /** A run tick by tick: the state before each, what it did, and whether the loop still ran. */
  datatype History = History(state: nat -> Engine, effect: nat -> Effect, live: nat -> bool)

  function HistoryOf(c: Setup, s: Engine, ticks: seq<Tick>): History
    requires c.Valid() && forall t | t in ticks :: t.Valid()
  {
    History((n: nat) => if n <= |ticks| then StateAt(c, s, ticks, n) else s,
            (n: nat) => if n < |ticks| then Run(c, s, ticks).1[n] else Stopped,
            (n: nat) => n <= |ticks| && RunsAt(c, s, ticks, n))
  }

  /** One tick of a history: it holds what it should; behind the end of the loop nothing happens. */
  ghost predicate TickHolds(c: Setup, t: Tick, h: History, k: nat) {
    if h.live(k) then
      Holds(c, h.state(k), t, h.state(k + 1), h.effect(k)) && (h.state(k).active == c.local ==> !h.effect(k).Switched?)
    else h.state(k + 1) == h.state(k) && h.effect(k).Stopped?
  }

  lemma LocalNeverSwitches(c: Setup, s: Engine, t: Tick)
    requires c.Valid() && t.Valid() && s.active == c.local
    ensures !Step(c, s, t).1.Switched?
  {
  }

  lemma {:induction false} HistoryHolds(c: Setup, s: Engine, ticks: seq<Tick>, k: nat)
    requires c.Valid() && (forall t | t in ticks :: t.Valid()) && k < |ticks| && CursorHere(c, s)
    ensures TickHolds(c, ticks[k], HistoryOf(c, s, ticks), k)
  {
    EffectAt(c, s, ticks, k);
    StateAtNext(c, s, ticks, k);
    CursorStaysHere(c, s, ticks, k);
    StepHolds(c, StateAt(c, s, ticks, k), ticks[k]);
    if StateAt(c, s, ticks, k).active == c.local {
      LocalNeverSwitches(c, StateAt(c, s, ticks, k), ticks[k]);
    }
  }

  lemma HistoryStarts(c: Setup, s: Engine, ticks: seq<Tick>)
    requires c.Valid() && (forall t | t in ticks :: t.Valid())
    ensures HistoryOf(c, s, ticks).state(0) == s
  {
    assert ticks[..0] == [];
  }

  /** From a new engine every tick holds what it should. */
  ghost predicate Holding(c: Setup, ticks: seq<Tick>, h: History) {
    h.state(0).active == c.local && forall k: nat | k < |ticks| :: TickHolds(c, ticks[k], h, k)
  }

  lemma RunHolds(c: Setup, lock: Point, ticks: seq<Tick>)
    requires c.Valid() && (forall t | t in ticks :: t.Valid())
    ensures Holding(c, ticks, HistoryOf(c, NewEngine(c.local, lock), ticks))
  {
    var s := NewEngine(c.local, lock);
    HistoryStarts(c, s, ticks);
    forall k: nat | k < |ticks| ensures TickHolds(c, ticks[k], HistoryOf(c, s, ticks), k) {
      HistoryHolds(c, s, ticks, k);
    }
  }

  /** The m-th tick bound the session of the screen active before the n-th, if live, and nothing changed since. */
  ghost predicate BoundBy(ticks: seq<Tick>, h: History, m: nat, n: nat)
    requires m < |ticks|
  {
    var at := h.state(n);
    && Binds(h.effect(m)) && BoundTo(h.effect(m)) == at.active
    && (forall k: nat | m < k < n :: !Binds(h.effect(k)) && h.state(k + 1).active == at.active)
    && at.grip.slot == if at.active in ticks[m].senders then Some(at.active) else None
  }

  lemma RemoteBefore(c: Setup, t: Tick, h: History, k: nat)
    requires TickHolds(c, t, h, k) && h.state(k + 1).active != c.local && !h.effect(k).Entered?
    ensures h.state(k).active != c.local
  {
  }

  lemma {:induction false} FindBinding(c: Setup, ticks: seq<Tick>, h: History, n: nat) returns (m: nat)
    requires Holding(c, ticks, h) && n <= |ticks| && h.state(n).active != c.local
    ensures m < n && BoundBy(ticks, h, m, n)
  {
    assert n > 0 && TickHolds(c, ticks[n - 1], h, n - 1);
    if Binds(h.effect(n - 1)) {
      m := n - 1;
      BoundNow(c, ticks, h, m);
    } else {
      RemoteBefore(c, ticks[n - 1], h, n - 1);
      m := FindBinding(c, ticks, h, n - 1);
      BoundOn(c, ticks, h, m, n - 1);
    }
  }

  lemma BoundNow(c: Setup, ticks: seq<Tick>, h: History, n: nat)
    requires n < |ticks| && TickHolds(c, ticks[n], h, n) && Binds(h.effect(n))
    ensures BoundBy(ticks, h, n, n + 1)
  {
  }

  lemma BoundOn(c: Setup, ticks: seq<Tick>, h: History, m: nat, n: nat)
    requires m < n < |ticks| && BoundBy(ticks, h, m, n) && TickHolds(c, ticks[n], h, n)
    requires h.state(n + 1).active != c.local && !Binds(h.effect(n))
    ensures BoundBy(ticks, h, m, n + 1)
  {
    assert h.state(n + 1).active == h.state(n).active && h.state(n + 1).grip.slot == h.state(n).grip.slot;
  }

  /**
   Over every run: while a remote screen is active, the slot is what was bound
   when it was entered or switched to - its session if that was live, and no other.
   */
  lemma {:induction false} BoundSince(c: Setup, lock: Point, ticks: seq<Tick>, n: nat) returns (m: nat)
    requires c.Valid() && (forall t | t in ticks :: t.Valid()) && n <= |ticks|
    requires HistoryOf(c, NewEngine(c.local, lock), ticks).state(n).active != c.local
    ensures m < n && BoundBy(ticks, HistoryOf(c, NewEngine(c.local, lock), ticks), m, n)
  {
    RunHolds(c, lock, ticks);
    m := FindBinding(c, ticks, HistoryOf(c, NewEngine(c.local, lock), ticks), n);
  }

  /** No tick of the loop from the m-th on, before the n-th, finds this taken away. */
  ghost predicate NeverGone(ticks: seq<Tick>, h: History, m: nat, n: nat, what: Outside -> bool)
    requires n <= |ticks|
  {
    forall k: nat | m <= k < n && h.live(k) :: !what(ticks[k].outside)
  }

  /** Behind the m-th tick the router stays away from the local screen and enters no screen from there. */
  ghost predicate AwaySince(c: Setup, h: History, m: nat, n: nat) {
    forall k: nat | m < k < n :: !h.effect(k).Entered? && h.state(k + 1).active != c.local
  }

  /** What a grip had behind one tick it has behind a later one, but for what was taken away. */
  ghost predicate KeptSince(ticks: seq<Tick>, h: History, m: nat, n: nat, has: Grip -> bool, gone: Outside -> bool)
    requires m < n <= |ticks|
  {
    has(h.state(n).grip) <==> has(h.state(m + 1).grip) && NeverGone(ticks, h, m + 1, n, gone)
  }

  ghost predicate HeldSince(ticks: seq<Tick>, h: History, m: nat, n: nat)
    requires m < n <= |ticks|
  {
    && KeptSince(ticks, h, m, n, (g: Grip) => g.control, (o: Outside) => o.controlGone)
    && KeptSince(ticks, h, m, n, (g: Grip) => g.mouseHook, (o: Outside) => o.mouseGone)
    && KeptSince(ticks, h, m, n, (g: Grip) => g.keyHook, (o: Outside) => o.keyGone)
    && KeptSince(ticks, h, m, n, (g: Grip) => g.confined, (o: Outside) => o.unconfined)
  }

  /** The local screen is in the space of each of these ticks. */
  predicate LocalKnown(c: Setup, ticks: seq<Tick>, m: nat, n: nat)
    requires n <= |ticks|
  {
    forall k: nat | m <= k < n && ticks[k].space.Some? :: c.local in ticks[k].space.value.screens
  }

  /** What an entry takes. */
  ghost predicate TakesGrip(t: Tick, after: Engine) {
    && after.grip.control && after.grip.anchored
    && (t.outside.mouseOpens ==> after.grip.mouseHook) && (t.outside.keyOpens ==> after.grip.keyHook)
    && (t.outside.confines ==> after.grip.confined)
  }

  ghost predicate EnteredBy(c: Setup, ticks: seq<Tick>, h: History, m: nat, n: nat)
    requires m < n <= |ticks|
  {
    && h.effect(m).Entered? && TakesGrip(ticks[m], h.state(m + 1)) && AwaySince(c, h, m, n)
    && (LocalKnown(c, ticks, m + 1, n) ==> h.state(n).grip.anchored)
  }

  lemma {:induction false} FindEntry(c: Setup, ticks: seq<Tick>, h: History, n: nat) returns (m: nat)
    requires Holding(c, ticks, h) && n <= |ticks| && h.state(n).active != c.local
    ensures m < n && EnteredBy(c, ticks, h, m, n) && HeldSince(ticks, h, m, n)
  {
    assert n > 0 && TickHolds(c, ticks[n - 1], h, n - 1);
    if h.effect(n - 1).Entered? {
      m := n - 1;
      HeldNow(c, ticks, h, m);
    } else {
      RemoteBefore(c, ticks[n - 1], h, n - 1);
      m := FindEntry(c, ticks, h, n - 1);
      HeldOn(c, ticks, h, m, n - 1);
      AwayOn(c, ticks, h, m, n - 1);
    }
  }

  lemma HeldNow(c: Setup, ticks: seq<Tick>, h: History, n: nat)
    requires n < |ticks| && TickHolds(c, ticks[n], h, n) && h.effect(n).Entered?
    ensures EnteredBy(c, ticks, h, n, n + 1) && HeldSince(ticks, h, n, n + 1)
  {
  }

  lemma KeptOn(ticks: seq<Tick>, h: History, m: nat, n: nat, has: Grip -> bool, gone: Outside -> bool)
    requires m < n < |ticks| && KeptSince(ticks, h, m, n, has, gone)
    requires has(h.state(n + 1).grip) <==> has(h.state(n).grip) && !(h.live(n) && gone(ticks[n].outside))
    ensures KeptSince(ticks, h, m, n + 1, has, gone)
  {
    assert NeverGone(ticks, h, m + 1, n + 1, gone) <==> NeverGone(ticks, h, m + 1, n, gone) && !(h.live(n) && gone(ticks[n].outside));
  }

  /** Nothing is gained or lost in the tick but what was taken away. */
  lemma TickKeeps(c: Setup, t: Tick, h: History, n: nat)
    requires TickHolds(c, t, h, n) && h.state(n + 1).active != c.local && !h.effect(n).Entered?
    ensures var was, g, live := h.state(n).grip, h.state(n + 1).grip, h.live(n);
            && (g.control <==> was.control && !(live && t.outside.controlGone))
            && (g.mouseHook <==> was.mouseHook && !(live && t.outside.mouseGone))
            && (g.keyHook <==> was.keyHook && !(live && t.outside.keyGone))
            && (g.confined <==> was.confined && !(live && t.outside.unconfined))
  {
  }

  lemma AwayOn(c: Setup, ticks: seq<Tick>, h: History, m: nat, n: nat)
    requires m < n < |ticks| && EnteredBy(c, ticks, h, m, n) && TickHolds(c, ticks[n], h, n)
    requires h.state(n + 1).active != c.local && !h.effect(n).Entered?
    ensures EnteredBy(c, ticks, h, m, n + 1)
  {
    assert LocalKnown(c, ticks, m + 1, n + 1) ==> LocalKnown(c, ticks, m + 1, n);
  }

  lemma HeldOn(c: Setup, ticks: seq<Tick>, h: History, m: nat, n: nat)
    requires m < n < |ticks| && HeldSince(ticks, h, m, n) && TickHolds(c, ticks[n], h, n)
    requires h.state(n + 1).active != c.local && !h.effect(n).Entered?
    ensures HeldSince(ticks, h, m, n + 1)
  {
    TickKeeps(c, ticks[n], h, n);
    KeptOn(ticks, h, m, n, (g: Grip) => g.control, (o: Outside) => o.controlGone);
    KeptOn(ticks, h, m, n, (g: Grip) => g.mouseHook, (o: Outside) => o.mouseGone);
    KeptOn(ticks, h, m, n, (g: Grip) => g.keyHook, (o: Outside) => o.keyGone);
    KeptOn(ticks, h, m, n, (g: Grip) => g.confined, (o: Outside) => o.unconfined);
  }

  /**
   Over every run: while a remote screen is active, control, hooks and
   confinement are what the last entry took, exactly as long as no other thread
   took them away; the anchor stays as long as the local screen is known.
   */
  lemma {:induction false} HeldSinceEntry(c: Setup, lock: Point, ticks: seq<Tick>, n: nat) returns (m: nat)
    requires c.Valid() && (forall t | t in ticks :: t.Valid()) && n <= |ticks|
    requires HistoryOf(c, NewEngine(c.local, lock), ticks).state(n).active != c.local
    ensures m < n && EnteredBy(c, ticks, HistoryOf(c, NewEngine(c.local, lock), ticks), m, n)
    ensures HeldSince(ticks, HistoryOf(c, NewEngine(c.local, lock), ticks), m, n)
  {
    RunHolds(c, lock, ticks);
    m := FindEntry(c, ticks, HistoryOf(c, NewEngine(c.local, lock), ticks), n);
  }
}
