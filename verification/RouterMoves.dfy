/**
 Where the router puts the cursor, tick by tick and over runs (`run_router`,
 apps/tailkvm-ui/src-tauri/src/router.rs), read off the deltas and the layout.
 */
module RouterMoves {
  import opened Basics
  import opened ScreenSpace
  import opened LayoutGraph
  import opened Gates
  import opened Watchdog
  import opened Router
  import opened RouterGrip

  /** The deltas a tick drains. */
  function Drained(s: Engine, t: Tick): Point {
    (SumX(s.queue + Deltas(t.reports)), SumY(s.queue + Deltas(t.reports)))
  }

  /** The unclamped target of a tick under remote control. */
  function Target(s: Engine, t: Tick): Point {
    (s.cursor.x + Drained(s, t).0, s.cursor.y + Drained(s, t).1)
  }

  lemma PlacedOnMonitors(cursor: ScreenCursor, t: Tick)
    ensures var p := Placed(cursor, t);
            p.screen == cursor.screen && OnMonitors((cursor.x, cursor.y), (p.x, p.y), t.MonitorsOf(cursor.screen))
  {
    ClampsOntoMonitors(cursor.x, cursor.y, t.MonitorsOf(cursor.screen));
  }

  function At(c: ScreenCursor): Point {
    (c.x, c.y)
  }

  /** A position is handed over exactly to a live session. */
  predicate SendsIfLive(t: Tick, screen: string, at: Point, sent: Option<Point>) {
    sent == if screen in t.senders then Some(at) else None
  }

  /**
   Steering: to the pixel of the screen nearest to the target, and from there, for
   a live session, onto its monitors.
   */
  ghost predicate SteersTo(from: Rect, target: Point, s: Engine, t: Tick, after: Engine, sent: Option<Point>) {
    && after.cursor.screen == s.active
    && (exists q: Point ::
          && NearestPixel(from, q, target) && (from.Contains(target.0, target.1) ==> q == target)
          && (if s.active in t.senders then OnMonitors(q, At(after.cursor), t.MonitorsOf(s.active)) else At(after.cursor) == q))
    && SendsIfLive(t, s.active, At(after.cursor), sent)
  }

  /**
   Leaving: home, to the place of entry there, through a link to the local screen;
   through one to another remote screen, unless a composition is open, to the
   place of entry there, put on its monitors.
   */
  ghost predicate LeavesTo(c: Setup, s: Engine, t: Tick, entry: ScreenCursor, after: Engine, e: Effect) {
    if entry.screen == c.local then e.Home? && after.active == c.local && after.cursor == entry && e.landing == At(entry)
    else if t.composing then e.Reverted? && after.cursor == s.cursor && after.active == s.active
    else
      && e.Switched? && after.active == after.cursor.screen == e.screen == entry.screen
      && OnMonitors(At(entry), At(after.cursor), t.MonitorsOf(entry.screen))
      && SendsIfLive(t, entry.screen, At(after.cursor), e.sent)
  }

  /** The target lies beyond an edge behind which there is a known screen. */
  ghost predicate Departs(sp: MultiScreenSpace, screen: string, target: Point)
    requires screen in sp.screens
  {
    exists out: Edge :: LeavesBy(sp.screens[screen], out, target.0, target.1) && sp.Across(screen, Some(out)).Some?
  }

  /** A remote tick whose link is not lost rests without deltas, and otherwise leaves or steers. */
  ghost predicate Drives(c: Setup, sp: MultiScreenSpace, s: Engine, t: Tick, after: Engine, e: Effect)
    requires s.active in sp.screens
  {
    var x, y, from := Target(s, t).0, Target(s, t).1, sp.screens[s.active];
    if Drained(s, t) == (0, 0) then e.Rested? && after.cursor == s.cursor && after.active == s.active
    else if Departs(sp, s.active, (x, y)) then
      forall out: Edge | LeavesBy(from, out, x, y) ::
        var entry := sp.EnterNeighbor(s.active, out, x, y);
        entry.Some? && LeavesTo(c, s, t, entry.value, after, e)
    else e.Moved? && after.active == s.active && SteersTo(from, (x, y), s, t, after, e.sent)
  }

  /** How a remote tick comes to its effect, from where its deltas lead. */
  predicate Follows(c: Setup, s: Engine, t: Tick, next: ScreenCursor, switched: bool, after: Engine, e: Effect) {
    if Drained(s, t) == (0, 0) then e.Rested? && after.cursor == s.cursor && after.active == s.active
    else if switched then
      if next.screen == c.local then e.Home? && after.active == c.local && after.cursor == next && e.landing == At(next)
      else if t.composing then e.Reverted? && after.cursor == s.cursor && after.active == s.active
      else
        && e.Switched? && after.cursor == Placed(next, t) && after.active == e.screen == next.screen
        && SendsIfLive(t, next.screen, At(after.cursor), e.sent)
    else
      && e.Moved? && after.active == s.active
      && after.cursor == (if s.active in t.senders then Placed(next, t) else next)
      && SendsIfLive(t, s.active, At(after.cursor), e.sent)
  }

  lemma RemoteFollows(c: Setup, sp: MultiScreenSpace, s: Engine, t: Tick)
    requires sp.Valid()
    ensures var (after, e) := RemoteTick(c, sp, Arrived(s, t), t);
            var (next, switch) := sp.ApplyDelta(s.cursor, Drained(s, t).0, Drained(s, t).1);
            !e.LinkLost? ==> Follows(c, s, t, next, switch.Some?, after, e)
  {
  }

  lemma Steers(sp: MultiScreenSpace, s: Engine, t: Tick, next: ScreenCursor, after: Engine, sent: Option<Point>)
    requires sp.Valid() && s.active in sp.screens && next.screen == s.active
    requires NearestPixel(sp.screens[s.active], At(next), Target(s, t))
    requires sp.screens[s.active].Contains(Target(s, t).0, Target(s, t).1) ==> At(next) == Target(s, t)
    requires after.cursor == (if s.active in t.senders then Placed(next, t) else next) && SendsIfLive(t, s.active, At(after.cursor), sent)
    ensures SteersTo(sp.screens[s.active], Target(s, t), s, t, after, sent)
  {
    PlacedOnMonitors(next, t);
    var q := At(next);
    assert NearestPixel(sp.screens[s.active], q, Target(s, t));
  }

  lemma Leaves(c: Setup, s: Engine, t: Tick, next: ScreenCursor, after: Engine, e: Effect)
    requires Drained(s, t) != (0, 0) && Follows(c, s, t, next, true, after, e)
    ensures LeavesTo(c, s, t, next, after, e)
  {
    PlacedOnMonitors(next, t);
  }

  /** Where the deltas lead, through a link or not. */
  ghost predicate Leads(sp: MultiScreenSpace, s: Engine, target: Point, next: ScreenCursor, switched: bool)
    requires s.active in sp.screens
  {
    && (switched <==> Departs(sp, s.active, target))
    && (switched ==> forall out: Edge | LeavesBy(sp.screens[s.active], out, target.0, target.1) ::
                       sp.EnterNeighbor(s.active, out, target.0, target.1) == Some(next))
    && (!switched ==> next.screen == s.active && NearestPixel(sp.screens[s.active], At(next), target))
    && (sp.screens[s.active].Contains(target.0, target.1) ==> At(next) == target)
  }

  lemma DeltaLeads(sp: MultiScreenSpace, s: Engine, d: Point)
    requires sp.Valid() && s.cursor.screen == s.active && s.active in sp.screens
    ensures var (next, switch) := sp.ApplyDelta(s.cursor, d.0, d.1);
            Leads(sp, s, (s.cursor.x + d.0, s.cursor.y + d.1), next, switch.Some?)
  {
    MultiStepGoes(sp, s.cursor, d.0, d.1);
  }

  lemma DrivesFrom(c: Setup, sp: MultiScreenSpace, s: Engine, t: Tick, next: ScreenCursor, switched: bool, after: Engine, e: Effect)
    requires sp.Valid() && s.active in sp.screens
    requires Follows(c, s, t, next, switched, after, e) && Leads(sp, s, Target(s, t), next, switched)
    ensures Drives(c, sp, s, t, after, e)
  {
    if Drained(s, t) != (0, 0) {
      if switched {
        Leaves(c, s, t, next, after, e);
      } else {
        Steers(sp, s, t, next, after, e.sent);
      }
    }
  }

  lemma RemoteDrives(c: Setup, sp: MultiScreenSpace, s: Engine, t: Tick)
    requires sp.Valid() && CursorHere(c, s) && s.active != c.local && s.active in sp.screens
    ensures var (after, e) := RemoteTick(c, sp, Arrived(s, t), t);
            !e.LinkLost? ==> Drives(c, sp, s, t, after, e)
  {
    var (next, switch) := sp.ApplyDelta(s.cursor, Drained(s, t).0, Drained(s, t).1);
    DeltaLeads(sp, s, Drained(s, t));
    RemoteFollows(c, sp, s, t);
    forall after: Engine, e: Effect | Follows(c, s, t, next, switch.Some?, after, e) ensures Drives(c, sp, s, t, after, e) {
      DrivesFrom(c, sp, s, t, next, switch.Some?, after, e);
    }
  }

  /** Every tick that looks at a session and keeps the link drives the cursor like that. */
  lemma {:induction false} StepDrives(c: Setup, s: Engine, t: Tick)
    requires c.Valid() && t.Valid() && CursorHere(c, s) && Looks(c, s, t)
    ensures var (after, e) := Step(c, s, t);
            !e.LinkLost? ==> Drives(c, t.space.value, s, t, after, e)
  {
    RemoteDrives(c, t.space.value, s, t);
  }

  /** Entering puts the cursor at the place of entry for where it was, on the monitors there. */
  lemma {:induction false} StepEnters(c: Setup, s: Engine, t: Tick)
    requires c.Valid() && t.Valid()
    ensures var (after, e) := Step(c, s, t);
            e.Entered? ==>
              && t.space.Some? && t.cursor.Some?
              && var entry := t.space.value.EnterNeighbor(c.local, e.edge, t.cursor.value.0, t.cursor.value.1);
                 && entry.Some? && after.active == after.cursor.screen == e.screen == entry.value.screen
                 && OnMonitors(At(entry.value), At(after.cursor), t.MonitorsOf(e.screen))
                 && SendsIfLive(t, e.screen, At(after.cursor), e.sent)
  {
    if t.running && t.space.Some? {
      var r := Reconciled(c, t.space.value, Arrived(s, t));
      if r.active == c.local {
        LocalEnters(c, t.space.value, r, t);
      }
    }
  }

  lemma LocalEnters(c: Setup, sp: MultiScreenSpace, s: Engine, t: Tick)
    requires c.Valid()
    ensures var (after, e) := LocalTick(c, sp, s, t);
            e.Entered? ==>
              && t.cursor.Some?
              && var entry := sp.EnterNeighbor(c.local, e.edge, t.cursor.value.0, t.cursor.value.1);
                 && entry.Some? && after.active == after.cursor.screen == e.screen == entry.value.screen
                 && OnMonitors(At(entry.value), At(after.cursor), t.MonitorsOf(e.screen))
                 && SendsIfLive(t, e.screen, At(after.cursor), e.sent)
  {
    var (after, e) := LocalTick(c, sp, s, t);
    if e.Entered? {
      var entry := sp.EnterNeighbor(c.local, e.edge, t.cursor.value.0, t.cursor.value.1);
      assert entry.Some? && after.cursor == Placed(entry.value, t);
      PlacedOnMonitors(entry.value, t);
    }
  }

  /** When the loop ends, and when it does nothing for want of a cursor position. */
  lemma {:induction false} StopsIff(c: Setup, s: Engine, t: Tick)
    requires c.Valid() && t.Valid()
    ensures var (after, e) := Step(c, s, t);
            && (e.Stopped? <==>
                  !t.running || t.space.None? || (!Looks(c, s, t) && t.cursor.Some? && c.local !in t.space.value.screens))
            && (e.Idle? <==> t.running && t.space.Some? && !Looks(c, s, t) && t.cursor.None?)
  {
  }

  function Rank(e: Edge): nat {
    match e
    case Right => 0
    case Left => 1
    case Top => 2
    case Bottom => 3
  }

  /** Of several ready edges the first counts, in the order right, left, top, bottom. */
  lemma FirstReadyIff(c: Setup, sp: MultiScreenSpace, pushes: Pushes, now: int, p: Point, r: Rect, e: Edge)
    ensures FirstReady(c, sp, pushes, now, p, r) == Some(e) <==>
            Ready(c, sp, pushes, now, p, r, e) && forall o: Edge | Rank(o) < Rank(e) :: !Ready(c, sp, pushes, now, p, r, o)
  {
  }

  // ----- over a run -----

  /** The tick takes the cursor to its target uncut: on the screen, and on a monitor where one is known. */
  predicate Uncut(s: Engine, t: Tick) {
    Drained(s, t) == (0, 0)
    || (&& t.space.Some? && s.active in t.space.value.screens
        && t.space.value.screens[s.active].Contains(Target(s, t).0, Target(s, t).1)
        && (OnSome(Target(s, t), t.MonitorsOf(s.active)) || !SomeNonDegenerate(t.MonitorsOf(s.active))))
  }

  /** Such a tick moves the cursor by exactly what it drains, and says so to a live session. */
  ghost predicate Carries(s: Engine, t: Tick, after: Engine, e: Effect) {
    && after.active == s.active && after.queue == [] && after.cursor == ScreenCursor(s.active, Target(s, t).0, Target(s, t).1)
    && (Drained(s, t) != (0, 0) && s.active in t.senders ==> SentBy(e) == Some(Target(s, t)))
  }

  lemma {:induction false} UncutTick(c: Setup, s: Engine, t: Tick)
    requires c.Valid() && t.Valid() && CursorHere(c, s) && Looks(c, s, t) && Uncut(s, t)
    ensures var (after, e) := Step(c, s, t); !e.LinkLost? ==> Carries(s, t, after, e)
  {
    StepDrives(c, s, t);
    var sp := t.space.value;
    var (x, y) := Target(s, t);
    var from := sp.screens[s.active];
    if from.Contains(x, y) {
      assert forall out: Edge :: Depth(from, out, x, y) >= 0;
      assert !Departs(sp, s.active, (x, y));
    }
  }

  /** Behind an entry or a switch nothing waits, and the cursor is where it was sent. */
  ghost predicate Settles(after: Engine, e: Effect) {
    Binds(e) ==> after.queue == [] && (SentBy(e).Some? ==> SentBy(e) == Some(At(after.cursor)))
  }

  lemma BindingSettles(c: Setup, s: Engine, t: Tick)
    requires c.Valid() && t.Valid()
    ensures var (after, e) := Step(c, s, t); Settles(after, e)
  {
  }

  /** The tick keeps the link and takes the cursor to its target. */
  ghost predicate OnTrackAt(c: Setup, t: Tick, h: History, k: nat) {
    h.live(k) && Looks(c, h.state(k), t) && Uncut(h.state(k), t) && !h.effect(k).LinkLost?
  }

  ghost predicate TickCarries(c: Setup, t: Tick, h: History, k: nat) {
    && (OnTrackAt(c, t, h, k) ==> Carries(h.state(k), t, h.state(k + 1), h.effect(k)))
    && Settles(h.state(k + 1), h.effect(k))
  }

  lemma {:induction false} HistoryCarries(c: Setup, s: Engine, ticks: seq<Tick>, k: nat)
    requires c.Valid() && (forall t | t in ticks :: t.Valid()) && k < |ticks| && CursorHere(c, s)
    ensures TickCarries(c, ticks[k], HistoryOf(c, s, ticks), k)
  {
    EffectAt(c, s, ticks, k);
    StateAtNext(c, s, ticks, k);
    CursorStaysHere(c, s, ticks, k);
    var at := StateAt(c, s, ticks, k);
    BindingSettles(c, at, ticks[k]);
    if Looks(c, at, ticks[k]) && Uncut(at, ticks[k]) {
      UncutTick(c, at, ticks[k]);
    }
  }

  ghost predicate OnTrack(c: Setup, ticks: seq<Tick>, h: History, m: nat, n: nat)
    requires n <= |ticks|
  {
    forall k: nat | m <= k < n :: OnTrackAt(c, ticks[k], h, k)
  }

  /** What these ticks bring. */
  function Brings(t: Tick): Point {
    (SumX(Deltas(t.reports)), SumY(Deltas(t.reports)))
  }

  function Brought(ticks: seq<Tick>, m: nat, n: nat): Point
    requires m <= n <= |ticks|
  {
    if m == n then (0, 0)
    else var before, d := Brought(ticks, m, n - 1), Brings(ticks[n - 1]); (before.0 + d.0, before.1 + d.1)
  }

  lemma NothingWaits(s: Engine, t: Tick)
    requires s.queue == []
    ensures Drained(s, t) == Brings(t)
  {
    assert [] + Deltas(t.reports) == Deltas(t.reports);
  }

  /** The cursor has moved by this much, on the same screen, and nothing waits. */
  predicate MovedBy(from: Engine, to: Engine, d: Point) {
    to.active == from.active && to.queue == [] && to.cursor == ScreenCursor(from.active, from.cursor.x + d.0, from.cursor.y + d.1)
  }

  lemma {:induction false} AddUp(c: Setup, ticks: seq<Tick>, h: History, m: nat, n: nat)
    requires m < n <= |ticks| && OnTrack(c, ticks, h, m, n) && h.state(m).queue == []
    requires forall k: nat | m <= k < n :: TickCarries(c, ticks[k], h, k)
    ensures MovedBy(h.state(m), h.state(n), Brought(ticks, m, n))
    ensures Brings(ticks[n - 1]) != (0, 0) && h.state(m).active in ticks[n - 1].senders
            ==> SentBy(h.effect(n - 1)) == Some(At(h.state(n).cursor))
    decreases n
  {
    assert TickCarries(c, ticks[n - 1], h, n - 1) && OnTrackAt(c, ticks[n - 1], h, n - 1);
    if m < n - 1 {
      AddUp(c, ticks, h, m, n - 1);
    } else {
      assert Brought(ticks, m, m) == (0, 0);
    }
    NothingWaits(h.state(n - 1), ticks[n - 1]);
  }

  /** What the history says of the ticks behind the m-th, which entered or switched. */
  ghost predicate Tracked(ticks: seq<Tick>, h: History, m: nat, n: nat)
    requires m + 1 < n <= |ticks|
  {
    && (SentBy(h.effect(m)).Some? ==> SentBy(h.effect(m)) == Some(At(h.state(m + 1).cursor)))
    && MovedBy(h.state(m + 1), h.state(n), Brought(ticks, m + 1, n))
    && (Brings(ticks[n - 1]) != (0, 0) && h.state(n).active in ticks[n - 1].senders ==>
          SentBy(h.effect(n - 1)) == Some(At(h.state(n).cursor)))
  }

  lemma Track(c: Setup, ticks: seq<Tick>, h: History, m: nat, n: nat)
    requires m + 1 < n <= |ticks| && Binds(h.effect(m)) && OnTrack(c, ticks, h, m + 1, n)
    requires forall k: nat | m <= k < n :: TickCarries(c, ticks[k], h, k)
    ensures Tracked(ticks, h, m, n)
  {
    assert TickCarries(c, ticks[m], h, m);
    AddUp(c, ticks, h, m + 1, n);
  }

  /**
   Over every run, from an entry or a switch on and as long as no target is cut:
   the cursor is the point sent then plus the sum of the deltas brought since, and
   that is what is sent to a live session.
   */
  lemma {:induction false} TrackFromEntry(c: Setup, s: Engine, ticks: seq<Tick>, m: nat, n: nat)
    requires c.Valid() && (forall t | t in ticks :: t.Valid()) && m + 1 < n <= |ticks| && CursorHere(c, s)
    requires var h := HistoryOf(c, s, ticks); Binds(h.effect(m)) && OnTrack(c, ticks, h, m + 1, n)
    ensures Tracked(ticks, HistoryOf(c, s, ticks), m, n)
  {
    var h := HistoryOf(c, s, ticks);
    forall k: nat | m <= k < n ensures TickCarries(c, ticks[k], h, k) {
      HistoryCarries(c, s, ticks, k);
    }
    Track(c, ticks, h, m, n);
  }
}
