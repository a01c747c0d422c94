/**
 The keyboard forwarding thread with composition mode
 (`start_keyboard_hook_forwarding`,
 apps/tailkvm-ui/src-tauri/src/forwarding.rs). Everything the thread reads from
 outside - flags, clocks, the live composition flag, hook events, the outcome of
 opening the capture window - is chosen anew in every turn.
 */
module KeyboardLoop {
  import opened Basics
  import opened Protocol
  import opened HeldInput
  import opened KeyRouting
  import opened Watchdog

  const STALE_TARGET_MS := 3000

  /** The session behind the sender: alive, closed, or none bound at the moment. */
  datatype Target = Live | Closed | Unbound

  datatype HookEvent = Timeout | Disconnected | Failsafe | KeyChange(key: Key, down: bool)

  datatype Turn = Turn(
    owned: bool,
    present: bool,
    now: int,
    committed: seq<string>,
    composingAtHead: bool,
    hookLost: bool,
    event: HookEvent,
    resolving: bool,
    composing: bool,
    captureOpens: bool,
    caps: bool,
    target: Target)

  datatype Stop = NotOwned | TargetVanished | HookLost | HookGone | EmergencyStop | SendFailed

  /** `resolve_key_text`: the text of a key under shift and caps lock. */
  type Resolver = (Key, bool, bool) -> Option<string>

  datatype Modifiers = Modifiers(ctrl: bool, alt: bool, win: bool, shift: bool)

  datatype Ime = Ime(mode: ImeMode, captureOpen: bool, passthrough: bool, toggleHeld: bool)

  /** The tracked keys, and the messages that reached the peer or did not. */
  datatype Wire = Wire(pressed: seq<Key>, delivered: seq<WireMessage>, lost: seq<WireMessage>)

  datatype Loop = Loop(wire: Wire, ime: Ime, modifiers: Modifiers, absentSince: Option<int>)

  function NewLoop(modifiers: Modifiers): Loop {
    Loop(Wire([], [], []), Ime(Off, false, false, false), modifiers, None)
  }

  // ----- sending -----

  function KeyMessage(k: Key, down: bool): WireMessage {
    KeyboardKey(k.vk, k.scanCode, down, k.extended)
  }

  function Ups(keys: seq<Key>): (ms: seq<WireMessage>)
    ensures |ms| == |keys| && forall i | 0 <= i < |ms| :: ms[i] == KeyMessage(keys[i], false)
  {
    seq(|keys|, i requires 0 <= i < |keys| => KeyMessage(keys[i], false))
  }

  function Texts(committed: seq<string>): seq<WireMessage> {
    if committed == [] then []
    else
      var last := committed[|committed| - 1];
      Texts(committed[..|committed| - 1]) + if last == "" then [] else [KeyboardText(last)]
  }

  /** Messages reach the peer only while the target is alive. */
  function Sent(w: Wire, target: Target, ms: seq<WireMessage>): Wire {
    if target.Live? then w.(delivered := w.delivered + ms) else w.(lost := w.lost + ms)
  }

  function Released(w: Wire, target: Target): Wire {
    Sent(w, target, Ups(w.pressed)).(pressed := [])
  }

  function Tracked(w: Wire, k: Key, down: bool): Wire {
    w.(pressed := Track(w.pressed, k, down))
  }

  // ----- one turn -----

  predicate Opens(mode: ImeMode, composing: bool) {
    mode.Armed? && composing
  }

  /** Committed text goes out, then the live composition flag is looked at. */
  function AtHead(s: Loop, t: Turn): Loop {
    var w := Sent(s.wire, t.target, Texts(t.committed));
    s.(wire := if Opens(s.ime.mode, t.composingAtHead) then Released(w, t.target) else w,
       ime := s.ime.(mode := s.ime.mode.ObserveComposition(t.composingAtHead)))
  }

  function AfterModifier(m: Modifiers, vk: nat, down: bool): Modifiers {
    match ModifierKind(vk)
    case Some(Ctrl) => m.(ctrl := down)
    case Some(Alt) => m.(alt := down)
    case Some(Win) => m.(win := down)
    case Some(Shift) => m.(shift := down)
    case None => m
  }

  datatype Action = Forward | TypeText(text: string) | Flip | EndPress | Ignore

  function RouteOf(m: Modifiers, k: Key): KeyRoute {
    ClassifyKey(k.vk, m.ctrl, m.alt, m.win)
  }

  /** What to do about a key event; `s` has the modifiers after the event. */
  function ActionOf(f: Resolver, s: Loop, t: Turn, k: Key, down: bool): Action {
    if !t.resolving then Forward
    else ResolvedAction(f, s, t, k, down, RouteOf(s.modifiers, k))
  }

  function ResolvedAction(f: Resolver, s: Loop, t: Turn, k: Key, down: bool, route: KeyRoute): Action {
    if route.ImeLocal? then
      if !IsImeToggleKey(k.vk) then Ignore
      else if !down then EndPress
      else if s.ime.toggleHeld then Ignore
      else Flip
    else if s.ime.mode.IsOn() then
      if !t.composing && route.Physical? then Forward else Ignore
    else if route.Physical? then Forward
    else if down then
      var text := f(k, s.modifiers.shift, t.caps);
      if text.Some? then TypeText(text.value) else Forward
    else if k in s.wire.pressed then Forward
    else Ignore
  }

  /** A toggle turns the mode off, or tries to open the capture window. */
  function Flipped(s: Loop, t: Turn): Loop {
    if !s.ime.mode.OnToggle().Armed? then s.(ime := Ime(Off, false, false, true))
    else if t.captureOpens then s.(wire := Released(s.wire, t.target), ime := Ime(ImeMode.Armed, true, true, true))
    else s.(ime := s.ime.(mode := s.ime.mode.OnEntryFailure(), toggleHeld := true))
  }

  /** The state before sending, and the message. */
  function Acted(s: Loop, t: Turn, k: Key, down: bool, a: Action): (Loop, Option<WireMessage>) {
    match a
    case Forward => (s.(wire := Tracked(s.wire, k, down)), Some(KeyMessage(k, down)))
    case TypeText(text) => (s, Some(KeyboardText(text)))
    case Flip => (Flipped(s, t), None)
    case EndPress => (s.(ime := s.ime.(toggleHeld := false)), None)
    case Ignore => (s, None)
  }

  function Finished(s: Loop, target: Target, m: Option<WireMessage>): (Loop, Option<Stop>) {
    if m.None? then (s, None)
    else (s.(wire := Sent(s.wire, target, [m.value])), if target.Closed? then Some(SendFailed) else None)
  }

  function WithModifier(s: Loop, k: Key, down: bool): Loop {
    s.(modifiers := AfterModifier(s.modifiers, k.vk, down))
  }

  function AtKey(f: Resolver, s: Loop, t: Turn, k: Key, down: bool): (Loop, Option<Stop>) {
    var m := WithModifier(s, k, down);
    var (r, message) := Acted(m, t, k, down, ActionOf(f, m, t, k, down));
    Finished(r, t.target, message)
  }

  function AtEvent(f: Resolver, s: Loop, t: Turn): (Loop, Option<Stop>) {
    match t.event
    case Timeout => (s, None)
    case Disconnected => (s, Some(HookGone))
    case Failsafe => (s, Some(EmergencyStop))
    case KeyChange(k, down) => AtKey(f, s, t, k, down)
  }

  function Watched(s: Loop, t: Turn): Loop {
    s.(absentSince := Watchdog.Armed(s.absentSince, Look(t.present, t.now)))
  }

  function Step(f: Resolver, s: Loop, t: Turn): (Loop, Option<Stop>) {
    if !t.owned then (s, Some(NotOwned))
    else
      var w := Watched(s, t);
      if Expired(w.absentSince, t.now, STALE_TARGET_MS) then (w, Some(TargetVanished))
      else if t.hookLost then (AtHead(w, t), Some(HookLost))
      else AtEvent(f, AtHead(w, t), t)
  }

  /** The turns of a run up to the one that stops it. */
  function Run(f: Resolver, s: Loop, turns: seq<Turn>): (Loop, Option<Stop>) {
    if turns == [] then (s, None)
    else
      var (r, stop) := Run(f, s, turns[..|turns| - 1]);
      if stop.Some? then (r, stop) else Step(f, r, turns[|turns| - 1])
  }

  /** What the thread does behind the loop; it may have been superseded. */
  function Left(s: Loop, current: bool, target: Target): Loop {
    s.(wire := Released(s.wire, target),
       ime := s.ime.(captureOpen := false, passthrough := s.ime.passthrough && !(s.ime.captureOpen && current)))
  }

  // ----- the peer -----

  /** The keys the peer holds down after some messages. */
  function PeerHeld(ms: seq<WireMessage>): set<Key> {
    if ms == [] then {}
    else
      var before, m := PeerHeld(ms[..|ms| - 1]), ms[|ms| - 1];
      if !m.KeyboardKey? then before
      else if m.down then before + {Key(m.vk, m.scanCode, m.extended)}
      else before - {Key(m.vk, m.scanCode, m.extended)}
  }

  lemma PeerHeldNext(ms: seq<WireMessage>, m: WireMessage)
    ensures PeerHeld(ms + [m])
         == if !m.KeyboardKey? then PeerHeld(ms)
            else if m.down then PeerHeld(ms) + {Key(m.vk, m.scanCode, m.extended)}
            else PeerHeld(ms) - {Key(m.vk, m.scanCode, m.extended)}
  {
    assert (ms + [m])[..|ms|] == ms;
  }

  lemma {:induction false} PeerHeldTexts(ms: seq<WireMessage>, committed: seq<string>)
    ensures PeerHeld(ms + Texts(committed)) == PeerHeld(ms)
  {
    if committed == [] {
      assert ms + [] == ms;
    } else {
      var front, last := committed[..|committed| - 1], committed[|committed| - 1];
      PeerHeldTexts(ms, front);
      if last != "" {
        PeerHeldNext(ms + Texts(front), KeyboardText(last));
        assert ms + Texts(committed) == ms + Texts(front) + [KeyboardText(last)];
      } else {
        assert Texts(committed) == Texts(front);
      }
    }
  }

  lemma {:induction false} PeerHeldUps(ms: seq<WireMessage>, keys: seq<Key>)
    ensures PeerHeld(ms + Ups(keys)) == PeerHeld(ms) - (set k | k in keys)
  {
    if keys == [] {
      assert ms + Ups(keys) == ms;
    } else {
      var front, last := keys[..|keys| - 1], keys[|keys| - 1];
      PeerHeldUps(ms, front);
      PeerHeldNext(ms + Ups(front), KeyMessage(last, false));
      assert Ups(keys) == Ups(front) + [KeyMessage(last, false)];
      assert ms + Ups(keys) == ms + Ups(front) + [KeyMessage(last, false)];
      assert keys == front + [last];
    }
  }

  predicate IsAbout(m: WireMessage, k: Key) {
    m.KeyboardKey? && Key(m.vk, m.scanCode, m.extended) == k
  }

  /** A message about the key did not reach the peer. */
  predicate Lost(w: Wire, k: Key) {
    exists m | m in w.lost :: IsAbout(m, k)
  }

  /**
   The peer holds exactly the tracked keys, each tracked once - all but those
   about which a message was lost.
   */
  ghost predicate InStep(w: Wire) {
    NoDuplicates(w.pressed) && forall k | !Lost(w, k) :: k in PeerHeld(w.delivered) <==> k in w.pressed
  }

  lemma LostStays(w: Wire, target: Target, ms: seq<WireMessage>, k: Key)
    ensures Lost(w, k) ==> Lost(Sent(w, target, ms), k)
    ensures !target.Live? && (exists m | m in ms :: IsAbout(m, k)) ==> Lost(Sent(w, target, ms), k)
  {
  }

  /** After all keys were released the peer holds none about which nothing was lost. */
  lemma ReleasedInStep(w: Wire, target: Target)
    requires InStep(w)
    ensures InStep(Released(w, target))
    ensures forall k | !Lost(Released(w, target), k) :: k !in PeerHeld(Released(w, target).delivered)
  {
    PeerHeldUps(w.delivered, w.pressed);
    forall k | !Lost(Released(w, target), k) ensures k !in PeerHeld(Released(w, target).delivered) {
      LostStays(w, target, Ups(w.pressed), k);
      if !target.Live? && k in w.pressed {
        var i :| 0 <= i < |w.pressed| && w.pressed[i] == k;
        assert Ups(w.pressed)[i] in Ups(w.pressed) && IsAbout(Ups(w.pressed)[i], k);
      }
    }
  }

  lemma ForwardedInStep(w: Wire, target: Target, k: Key, down: bool)
    requires InStep(w)
    ensures InStep(Sent(Tracked(w, k, down), target, [KeyMessage(k, down)]))
  {
    var after := Sent(Tracked(w, k, down), target, [KeyMessage(k, down)]);
    TrackIsASet(w.pressed, k, down);
    PeerHeldNext(w.delivered, KeyMessage(k, down));
    assert IsAbout(KeyMessage(k, down), k);
    forall x | !Lost(after, x) ensures x in PeerHeld(after.delivered) <==> x in after.pressed {
      LostStays(Tracked(w, k, down), target, [KeyMessage(k, down)], x);
      if !target.Live? {
        assert KeyMessage(k, down) in after.lost;
      }
    }
  }

  /** Messages that are not about keys change nothing. */
  lemma KeylessInStep(w: Wire, target: Target, ms: seq<WireMessage>)
    requires InStep(w) && PeerHeld(w.delivered + ms) == PeerHeld(w.delivered)
    ensures InStep(Sent(w, target, ms))
  {
    forall k | !Lost(Sent(w, target, ms), k) ensures k in PeerHeld(Sent(w, target, ms).delivered) <==> k in w.pressed {
      LostStays(w, target, ms, k);
    }
  }

  lemma ActedInStep(s: Loop, t: Turn, k: Key, down: bool, a: Action)
    requires InStep(s.wire)
    ensures var (r, m) := Acted(s, t, k, down, a); InStep(Finished(r, t.target, m).0.wire)
  {
    match a
    case Forward => ForwardedInStep(s.wire, t.target, k, down);
    case TypeText(text) =>
      PeerHeldNext(s.wire.delivered, KeyboardText(text));
      KeylessInStep(s.wire, t.target, [KeyboardText(text)]);
    case Flip => ReleasedInStep(s.wire, t.target);
    case EndPress =>
    case Ignore =>
  }

  lemma HeadInStep(s: Loop, t: Turn)
    requires InStep(s.wire)
    ensures InStep(AtHead(s, t).wire)
  {
    PeerHeldTexts(s.wire.delivered, t.committed);
    KeylessInStep(s.wire, t.target, Texts(t.committed));
    ReleasedInStep(Sent(s.wire, t.target, Texts(t.committed)), t.target);
  }

  lemma StepInStep(f: Resolver, s: Loop, t: Turn)
    requires InStep(s.wire)
    ensures InStep(Step(f, s, t).0.wire)
  {
    var h := AtHead(Watched(s, t), t);
    HeadInStep(Watched(s, t), t);
    if t.event.KeyChange? {
      var k, down := t.event.key, t.event.down;
      var m := WithModifier(h, k, down);
      ActedInStep(m, t, k, down, ActionOf(f, m, t, k, down));
    }
  }

  /**
   For every stream of turns, whatever the flags and the target do, the keys the
   peer holds are exactly the tracked ones at every loop head, all but those
   about which a message was lost.
   */
  lemma {:induction false} PeerHoldsTracked(f: Resolver, s: Loop, turns: seq<Turn>)
    requires InStep(s.wire)
    ensures InStep(Run(f, s, turns).0.wire)
  {
    if turns != [] {
      var front, last := turns[..|turns| - 1], turns[|turns| - 1];
      PeerHoldsTracked(f, s, front);
      StepInStep(f, Run(f, s, front).0, last);
    }
  }

  /** Against a live target nothing is lost, so there are no exceptions. */
  lemma {:induction false} NothingLostWhileLive(f: Resolver, s: Loop, turns: seq<Turn>)
    requires InStep(s.wire) && s.wire.lost == [] && forall t | t in turns :: t.target.Live?
    ensures var w := Run(f, s, turns).0.wire;
            w.lost == [] && PeerHeld(w.delivered) == set k | k in w.pressed
  {
    PeerHoldsTracked(f, s, turns);
    LostNothing(f, s, turns);
    var w := Run(f, s, turns).0.wire;
    assert forall k :: !Lost(w, k);
  }

  lemma {:induction false} LostNothing(f: Resolver, s: Loop, turns: seq<Turn>)
    requires s.wire.lost == [] && forall t | t in turns :: t.target.Live?
    ensures Run(f, s, turns).0.wire.lost == []
  {
    if turns != [] {
      LostNothing(f, s, turns[..|turns| - 1]);
      StepLosesNothing(f, Run(f, s, turns[..|turns| - 1]).0, turns[|turns| - 1]);
    }
  }

  lemma StepLosesNothing(f: Resolver, s: Loop, t: Turn)
    requires t.target.Live?
    ensures Step(f, s, t).0.wire.lost == s.wire.lost
  {
    var h := AtHead(Watched(s, t), t);
    if t.event.KeyChange? {
      var m := WithModifier(h, t.event.key, t.event.down);
      ActedLosesNothing(m, t, t.event.key, t.event.down, ActionOf(f, m, t, t.event.key, t.event.down));
    }
  }

  lemma ActedLosesNothing(s: Loop, t: Turn, k: Key, down: bool, a: Action)
    requires t.target.Live?
    ensures var (r, m) := Acted(s, t, k, down, a); Finished(r, t.target, m).0.wire.lost == s.wire.lost
  {
  }

  /** The exit leaves the peer without keys exactly if its drain gets through or is empty. */
  lemma LeftHoldsNothingIff(s: Loop, current: bool, target: Target)
    requires InStep(s.wire) && s.wire.lost == []
    ensures PeerHeld(Left(s, current, target).wire.delivered) == {} <==> target.Live? || s.wire.pressed == []
  {
    var w := s.wire;
    PeerHeldUps(w.delivered, w.pressed);
    assert forall k :: !Lost(w, k);
    if w.pressed != [] {
      assert w.pressed[0] in PeerHeld(w.delivered);
    }
  }

  // ----- composition mode -----

  /** Capture window, mode and pass-through say the same. */
  predicate Coherent(i: Ime) {
    (i.captureOpen <==> i.mode.IsOn()) && (i.passthrough <==> i.mode.IsOn())
  }

  lemma ActedCoherent(s: Loop, t: Turn, k: Key, down: bool, a: Action)
    requires Coherent(s.ime)
    ensures var (r, m) := Acted(s, t, k, down, a); Coherent(Finished(r, t.target, m).0.ime)
  {
  }

  lemma StepCoherent(f: Resolver, s: Loop, t: Turn)
    requires Coherent(s.ime)
    ensures Coherent(Step(f, s, t).0.ime)
  {
    var h := AtHead(Watched(s, t), t);
    if t.event.KeyChange? {
      var k, down := t.event.key, t.event.down;
      var m := WithModifier(h, k, down);
      ActedCoherent(m, t, k, down, ActionOf(f, m, t, k, down));
    }
  }

  /** Over every run the capture window is open exactly in mode-on, and so is pass-through. */
  lemma {:induction false} RunCoherent(f: Resolver, s: Loop, turns: seq<Turn>)
    requires Coherent(s.ime)
    ensures Coherent(Run(f, s, turns).0.ime)
  {
    if turns != [] {
      RunCoherent(f, s, turns[..|turns| - 1]);
      StepCoherent(f, Run(f, s, turns[..|turns| - 1]).0, turns[|turns| - 1]);
    }
  }

  /**
   A key event during an open composition sends nothing if and only if
   characters are being resolved; with resolution turned off underneath the
   mode, the key goes to the peer as well.
   */
  lemma SilentWhileComposingIff(f: Resolver, s: Loop, t: Turn)
    requires s.ime.mode.IsOn() && t.composing && t.event.KeyChange? && t.target.Live?
    ensures AtEvent(f, s, t).0.wire.delivered == s.wire.delivered <==> t.resolving
  {
    var k, down := t.event.key, t.event.down;
    var m := WithModifier(s, k, down);
    var a := ActionOf(f, m, t, k, down);
    if !t.resolving {
      assert AtEvent(f, s, t).0.wire.delivered == s.wire.delivered + [KeyMessage(k, down)];
    } else {
      assert !a.Forward? && !a.TypeText?;
    }
  }

  /**
   When the key-up of a held key has been handled, the peer still holds the key
   exactly if resolution is on and the key is an IME key, or the mode is on and
   a composition is open or the key would type a character.
   */
  lemma StaysHeldIff(f: Resolver, s: Loop, t: Turn, k: Key)
    requires k in PeerHeld(s.wire.delivered) && k in s.wire.pressed && t.event == KeyChange(k, false) && t.target.Live?
    ensures var route := RouteOf(AfterModifier(s.modifiers, k.vk, false), k);
            k in PeerHeld(AtEvent(f, s, t).0.wire.delivered)
            <==> t.resolving && (route.ImeLocal? || (s.ime.mode.IsOn() && (t.composing || route.Character?)))
  {
    var m := WithModifier(s, k, false);
    var a := ActionOf(f, m, t, k, false);
    assert a.Forward? || a.EndPress? || a.Ignore?;
    if a.Forward? {
      UpReleases(s.wire, k);
    } else {
      assert AtEvent(f, s, t).0.wire == s.wire;
    }
  }

  lemma UpReleases(w: Wire, k: Key)
    ensures k !in PeerHeld(Sent(Tracked(w, k, false), Live, [KeyMessage(k, false)]).delivered)
  {
    PeerHeldNext(w.delivered, KeyMessage(k, false));
  }

  /** The turn releases the key at the peer: all keys at once, or this one. */
  predicate Frees(f: Resolver, s: Loop, t: Turn, k: Key) {
    || Opens(s.ime.mode, t.composingAtHead)
    || (t.event.KeyChange? &&
        var m := WithModifier(AtHead(Watched(s, t), t), t.event.key, t.event.down);
        var a := ActionOf(f, m, t, t.event.key, t.event.down);
        (a.Forward? && t.event == KeyChange(k, false)) || (a.Flip? && m.ime.mode.OnToggle().Armed? && t.captureOpens))
  }

  lemma ActedKeepsDown(s: Loop, t: Turn, key: Key, down: bool, a: Action, k: Key)
    requires k in PeerHeld(s.wire.delivered)
    requires !(a.Forward? && key == k && !down) && !(a.Flip? && s.ime.mode.OnToggle().Armed? && t.captureOpens)
    ensures var (r, m) := Acted(s, t, key, down, a); k in PeerHeld(Finished(r, t.target, m).0.wire.delivered)
  {
    match a
    case Forward => PeerHeldNext(s.wire.delivered, KeyMessage(key, down));
    case TypeText(text) => PeerHeldNext(s.wire.delivered, KeyboardText(text));
    case _ =>
  }

  lemma StepKeepsDown(f: Resolver, s: Loop, t: Turn, k: Key)
    requires k in PeerHeld(s.wire.delivered) && !Frees(f, s, t, k)
    ensures k in PeerHeld(Step(f, s, t).0.wire.delivered)
  {
    var h := AtHead(Watched(s, t), t);
    PeerHeldTexts(s.wire.delivered, t.committed);
    if t.event.KeyChange? {
      var m := WithModifier(h, t.event.key, t.event.down);
      ActedKeepsDown(m, t, t.event.key, t.event.down, ActionOf(f, m, t, t.event.key, t.event.down), k);
    }
  }

  /** A key the peer holds stays down over every run none of whose turns releases it. */
  lemma {:induction false} StaysDown(f: Resolver, s: Loop, turns: seq<Turn>, k: Key)
    requires k in PeerHeld(s.wire.delivered)
    requires forall n | 0 <= n < |turns| :: !Frees(f, Run(f, s, turns[..n]).0, turns[n], k)
    ensures k in PeerHeld(Run(f, s, turns).0.wire.delivered)
  {
    if turns != [] {
      var last := |turns| - 1;
      var front := turns[..last];
      forall n | 0 <= n < |front| ensures !Frees(f, Run(f, s, front[..n]).0, front[n], k) {
        assert front[..n] == turns[..n] && front[n] == turns[n];
      }
      StaysDown(f, s, front, k);
      StepKeepsDown(f, Run(f, s, front).0, turns[last], k);
    }
  }

  lemma QuietStep(f: Resolver, s: Loop, event: HookEvent, resolving: bool)
    requires !s.ime.mode.Composing? && s.absentSince == None
    ensures Step(f, s, Quiet(event, resolving)) == AtEvent(f, s, Quiet(event, resolving))
  {
    assert s.wire.delivered + [] == s.wire.delivered;
  }

  lemma RunNext(f: Resolver, s: Loop, turns: seq<Turn>, t: Turn)
    requires Run(f, s, turns).1.None?
    ensures Run(f, s, turns + [t]) == Step(f, Run(f, s, turns).0, t)
  {
    assert (turns + [t])[..|turns|] == turns;
  }

  /** Toggle key down and up on a fresh loop: the mode is on, nothing was sent. */
  lemma TurnedOn(f: Resolver, k: Key) returns (turns: seq<Turn>)
    requires IsImeToggleKey(k.vk)
    ensures turns == [Quiet(KeyChange(k, true), true), Quiet(KeyChange(k, false), true)]
    ensures Run(f, NewLoop(NO_MODIFIERS), turns)
         == (Loop(Wire([], [], []), Ime(ImeMode.Armed, true, true, false), NO_MODIFIERS, None), None)
  {
    var s, down, up := NewLoop(NO_MODIFIERS), Quiet(KeyChange(k, true), true), Quiet(KeyChange(k, false), true);
    turns := [down, up];
    QuietStep(f, s, KeyChange(k, true), true);
    assert Ups([]) == [] && s.wire.delivered + Ups([]) == [];
    var on := Loop(Wire([], [], []), Ime(ImeMode.Armed, true, true, true), NO_MODIFIERS, None);
    assert Step(f, s, down) == (on, None);
    QuietStep(f, on, KeyChange(k, false), true);
    RunOfTwo(f, s, down, up);
  }

  const NO_MODIFIERS := Modifiers(false, false, false, false)

  /** In mode-on without a composition a physical key is forwarded, a printable one is not. */
  lemma QuietKey(f: Resolver, s: Loop, k: Key, down: bool)
    requires s.ime.mode == ImeMode.Armed && s.absentSince == None
    ensures var after := s.(modifiers := AfterModifier(s.modifiers, k.vk, down));
            var route := RouteOf(after.modifiers, k);
            && (route.Physical? ==>
                  Step(f, s, Quiet(KeyChange(k, down), true))
                  == (after.(wire := Wire(Track(s.wire.pressed, k, down), s.wire.delivered + [KeyMessage(k, down)], s.wire.lost)), None))
            && (route.Character? ==> Step(f, s, Quiet(KeyChange(k, down), true)) == (after, None))
  {
    QuietStep(f, s, KeyChange(k, down), true);
  }

  const LCTRL := Key(0xA2, 0x1D, false)
  const LETTER_C := Key(0x43, 0x2E, false)

  lemma CtrlRoute(m: Modifiers, down: bool)
    ensures AfterModifier(m, LCTRL.vk, down) == m.(ctrl := down)
    ensures RouteOf(m, LCTRL).Physical?
  {
  }

  lemma LetterRoute(m: Modifiers, down: bool)
    ensures AfterModifier(m, LETTER_C.vk, down) == m
    ensures RouteOf(m, LETTER_C) == if m.ctrl || m.alt || m.win then Physical else Character
  {
  }

  /** In mode-on without a composition Ctrl is forwarded. */
  lemma CtrlStep(f: Resolver, s: Loop, down: bool)
    requires s.ime.mode == ImeMode.Armed && s.absentSince == None
    ensures Step(f, s, Quiet(KeyChange(LCTRL, down), true))
         == (s.(modifiers := s.modifiers.(ctrl := down),
                wire := Wire(Track(s.wire.pressed, LCTRL, down), s.wire.delivered + [KeyMessage(LCTRL, down)], s.wire.lost)), None)
  {
    CtrlRoute(s.modifiers, down);
    CtrlRoute(s.modifiers.(ctrl := down), down);
    QuietKey(f, s, LCTRL, down);
  }

  /** A letter is forwarded under Ctrl and kept otherwise. */
  lemma LetterStep(f: Resolver, s: Loop, down: bool)
    requires s.ime.mode == ImeMode.Armed && s.absentSince == None && !s.modifiers.alt && !s.modifiers.win
    ensures Step(f, s, Quiet(KeyChange(LETTER_C, down), true))
         == (if s.modifiers.ctrl then
               s.(wire := Wire(Track(s.wire.pressed, LETTER_C, down), s.wire.delivered + [KeyMessage(LETTER_C, down)], s.wire.lost))
             else s, None)
  {
    LetterRoute(s.modifiers, down);
    QuietKey(f, s, LETTER_C, down);
  }

  /** In mode-on, Ctrl and C down, Ctrl and C up in this order: C is not released. */
  lemma ShortcutOutlivesCtrl(f: Resolver, s: Loop) returns (turns: seq<Turn>)
    requires s == Loop(Wire([], [], []), Ime(ImeMode.Armed, true, true, false), NO_MODIFIERS, None)
    ensures turns == [Quiet(KeyChange(LCTRL, true), true), Quiet(KeyChange(LETTER_C, true), true),
                      Quiet(KeyChange(LCTRL, false), true), Quiet(KeyChange(LETTER_C, false), true)]
    ensures var (end, stop) := Run(f, s, turns);
            stop == None && end.wire.pressed == [LETTER_C] && PeerHeld(end.wire.delivered) == {LETTER_C}
  {
    turns := [Quiet(KeyChange(LCTRL, true), true), Quiet(KeyChange(LETTER_C, true), true),
              Quiet(KeyChange(LCTRL, false), true), Quiet(KeyChange(LETTER_C, false), true)];
    CtrlStep(f, s, true);
    var s0 := Step(f, s, turns[0]).0;
    LetterStep(f, s0, true);
    var s1 := Step(f, s0, turns[1]).0;
    CtrlStep(f, s1, false);
    var s2 := Step(f, s1, turns[2]).0;
    LetterStep(f, s2, false);
    RunOfFour(f, s, turns, s0, s1, s2, s2);
    ShortcutTracked();
    NothingLostWhileLive(f, s, turns);
  }

  lemma ShortcutTracked()
    ensures Track(Track(Track([], LCTRL, true), LETTER_C, true), LCTRL, false) == [LETTER_C]
  {
    assert Track(Track([], LCTRL, true), LETTER_C, true) == [LCTRL, LETTER_C];
    assert [LCTRL, LETTER_C][1..] == [LETTER_C] && [LETTER_C][1..] == [];
    assert Without([LETTER_C], LCTRL) == [LETTER_C] + Without([], LCTRL);
    assert Without([LCTRL, LETTER_C], LCTRL) == [] + Without([LETTER_C], LCTRL);
  }

  lemma RunOfFour(f: Resolver, s: Loop, turns: seq<Turn>, s0: Loop, s1: Loop, s2: Loop, s3: Loop)
    requires |turns| == 4 && Step(f, s, turns[0]) == (s0, None) && Step(f, s0, turns[1]) == (s1, None)
    requires Step(f, s1, turns[2]) == (s2, None) && Step(f, s2, turns[3]) == (s3, None)
    ensures Run(f, s, turns) == (s3, None)
  {
    RunOfTwo(f, s, turns[0], turns[1]);
    RunNext(f, s, [turns[0], turns[1]], turns[2]);
    RunNext(f, s, [turns[0], turns[1]] + [turns[2]], turns[3]);
    assert turns == [turns[0], turns[1]] + [turns[2]] + [turns[3]];
  }

  lemma {:induction false} RunAppend(f: Resolver, s: Loop, front: seq<Turn>, more: seq<Turn>)
    requires Run(f, s, front).1.None?
    ensures Run(f, s, front + more) == Run(f, Run(f, s, front).0, more)
    decreases |more|
  {
    if more == [] {
      assert front + more == front;
    } else {
      var last := |more| - 1;
      RunAppend(f, s, front, more[..last]);
      assert (front + more)[..|front| + last] == front + more[..last];
    }
  }

  /**
   So the letter of a shortcut can stay down: from a fresh loop the mode is turned
   on, Ctrl and C go down, Ctrl comes up and then C, and the peer still holds C.
   */
  lemma ShortcutStuck(f: Resolver, toggle: Key) returns (turns: seq<Turn>)
    requires IsImeToggleKey(toggle.vk)
    ensures turns == [Quiet(KeyChange(toggle, true), true), Quiet(KeyChange(toggle, false), true),
                      Quiet(KeyChange(LCTRL, true), true), Quiet(KeyChange(LETTER_C, true), true),
                      Quiet(KeyChange(LCTRL, false), true), Quiet(KeyChange(LETTER_C, false), true)]
    ensures var (end, stop) := Run(f, NewLoop(NO_MODIFIERS), turns);
            stop == None && end.wire.pressed == [LETTER_C] && PeerHeld(end.wire.delivered) == {LETTER_C}
  {
    var on := TurnedOn(f, toggle);
    var keys := ShortcutOutlivesCtrl(f, Run(f, NewLoop(NO_MODIFIERS), on).0);
    RunAppend(f, NewLoop(NO_MODIFIERS), on, keys);
    turns := on + keys;
  }

  /** A turn in which nothing but the event happens. */
  function Quiet(event: HookEvent, resolving: bool): Turn {
    Turn(true, true, 0, [], false, false, event, resolving, false, true, false, Live)
  }

  // ----- one toggle per press -----

  predicate IsToggleEvent(t: Turn) {
    t.event.KeyChange? && IsImeToggleKey(t.event.key.vk)
  }

  /** The turn reaches the toggle-key branch. */
  predicate SeesToggle(t: Turn) {
    IsToggleEvent(t) && t.resolving
  }

  /** The turn flips the mode, or tries to. */
  predicate Flips(s: Loop, t: Turn) {
    SeesToggle(t) && t.event.down && !s.ime.toggleHeld
  }

  /** Whether the last of the events that satisfy `p` is a key-down. */
  ghost predicate LastIsDown(turns: seq<Turn>, p: Turn -> bool) {
    exists i :: LastAt(turns, p, i) && turns[i].event.KeyChange? && turns[i].event.down
  }

  ghost predicate LastAt(turns: seq<Turn>, p: Turn -> bool, i: int) {
    0 <= i < |turns| && p(turns[i]) && forall j | i < j < |turns| :: !p(turns[j])
  }

  lemma LastIsDownNext(turns: seq<Turn>, p: Turn -> bool)
    requires turns != []
    ensures var last := turns[|turns| - 1];
            LastIsDown(turns, p) <==>
              if p(last) then last.event.KeyChange? && last.event.down
              else LastIsDown(turns[..|turns| - 1], p)
  {
    var n, front := |turns| - 1, turns[..|turns| - 1];
    if p(turns[n]) {
      assert forall i | LastAt(turns, p, i) :: i == n;
      assert LastAt(turns, p, n);
    } else {
      assert forall i | 0 <= i < n :: front[i] == turns[i];
      assert forall i :: LastAt(turns, p, i) <==> LastAt(front, p, i);
    }
  }

  lemma GuardAfter(f: Resolver, s: Loop, t: Turn)
    requires Step(f, s, t).1.None?
    ensures Step(f, s, t).0.ime.toggleHeld <==> if SeesToggle(t) then t.event.down else s.ime.toggleHeld
  {
    var h := AtHead(Watched(s, t), t);
    if t.event.KeyChange? {
      var k, down := t.event.key, t.event.down;
      var m := WithModifier(h, k, down);
      var a := ActionOf(f, m, t, k, down);
      assert a.Flip? ==> SeesToggle(t) && down;
      assert a.EndPress? ==> SeesToggle(t) && !down;
      assert SeesToggle(t) ==> a.Flip? || a.EndPress? || (a.Ignore? && down && s.ime.toggleHeld);
      assert Step(f, s, t) == Finished(Acted(m, t, k, down, a).0, t.target, Acted(m, t, k, down, a).1);
    }
  }

  /**
   The repeat guard is whether the last toggle-key event that was handled with
   resolution on was a key-down.
   */
  lemma {:induction false} GuardIsLastSeen(f: Resolver, s: Loop, turns: seq<Turn>)
    requires !s.ime.toggleHeld && Run(f, s, turns).1.None?
    ensures Run(f, s, turns).0.ime.toggleHeld <==> LastIsDown(turns, SeesToggle)
  {
    if turns != [] {
      var front, last := turns[..|turns| - 1], turns[|turns| - 1];
      GuardIsLastSeen(f, s, front);
      LastIsDownNext(turns, SeesToggle);
      GuardAfter(f, Run(f, s, front).0, last);
    }
  }

  /** An event of the physical key that `mine` describes, by virtual key, scan code or both. */
  function EventOf(mine: Key -> bool): Turn -> bool {
    (t: Turn) => t.event.KeyChange? && mine(t.event.key)
  }

  /** A key-down of that key that does not repeat one already down. */
  ghost predicate IsPress(turns: seq<Turn>, t: Turn, mine: Key -> bool) {
    EventOf(mine)(t) && t.event.down && !LastIsDown(turns, EventOf(mine))
  }

  /**
   A toggle key-down handled with resolution on flips the mode exactly on a press
   of its key, if and only if the last toggle-key event that was handled and the
   last event of this key agree on whether a key is down.
   */
  lemma {:induction false} FlipsOnPressIff(f: Resolver, s: Loop, turns: seq<Turn>, t: Turn, mine: Key -> bool)
    requires !s.ime.toggleHeld && Run(f, s, turns).1.None? && SeesToggle(t) && t.event.down && mine(t.event.key)
    ensures (Flips(Run(f, s, turns).0, t) <==> IsPress(turns, t, mine))
            <==> (LastIsDown(turns, SeesToggle) <==> LastIsDown(turns, EventOf(mine)))
  {
    GuardIsLastSeen(f, s, turns);
  }

  /**
   With resolution on throughout: exactly if the last event of any toggle key and
   the last one of this key agree.
   */
  lemma {:induction false} FlipsWhileResolvingIff(f: Resolver, s: Loop, turns: seq<Turn>, t: Turn, mine: Key -> bool)
    requires !s.ime.toggleHeld && Run(f, s, turns).1.None? && SeesToggle(t) && t.event.down && mine(t.event.key)
    requires forall u | u in turns :: u.resolving
    ensures (Flips(Run(f, s, turns).0, t) <==> IsPress(turns, t, mine))
            <==> (LastIsDown(turns, IsToggleEvent) <==> LastIsDown(turns, EventOf(mine)))
  {
    FlipsOnPressIff(f, s, turns, t, mine);
    SameLast(turns, SeesToggle, IsToggleEvent);
  }

  /**
   With resolution on throughout and no other toggle key in use, each press of the
   key flips once, whatever repeats.
   */
  lemma {:induction false} OneFlipPerPress(f: Resolver, s: Loop, turns: seq<Turn>, t: Turn, mine: Key -> bool)
    requires !s.ime.toggleHeld && Run(f, s, turns).1.None? && SeesToggle(t) && t.event.down && mine(t.event.key)
    requires forall u | u in turns :: u.resolving && (u.event.KeyChange? ==> (mine(u.event.key) <==> IsImeToggleKey(u.event.key.vk)))
    ensures Flips(Run(f, s, turns).0, t) <==> IsPress(turns, t, mine)
  {
    FlipsOnPressIff(f, s, turns, t, mine);
    SameLast(turns, SeesToggle, EventOf(mine));
  }

  lemma {:induction false} SameLast(turns: seq<Turn>, p: Turn -> bool, q: Turn -> bool)
    requires forall u | u in turns :: p(u) <==> q(u)
    ensures LastIsDown(turns, p) <==> LastIsDown(turns, q)
  {
    assert forall i | 0 <= i < |turns| :: turns[i] in turns;
    assert forall i :: LastAt(turns, p, i) <==> LastAt(turns, q, i);
  }

  lemma RunOfOne(f: Resolver, s: Loop, t: Turn)
    ensures Run(f, s, [t]) == Step(f, s, t)
  {
    assert [t][..0] == [];
  }

  lemma RunOfTwo(f: Resolver, s: Loop, t: Turn, u: Turn)
    requires Step(f, s, t).1.None?
    ensures Run(f, s, [t, u]) == Step(f, Step(f, s, t).0, u)
  {
    assert [t, u][..1] == [t];
    RunOfOne(f, s, t);
  }

  lemma LastOfTwo(t: Turn, u: Turn, p: Turn -> bool)
    ensures LastIsDown([t, u], p) <==>
      if p(u) then u.event.KeyChange? && u.event.down else p(t) && t.event.KeyChange? && t.event.down
  {
    assert [t, u][..1] == [t] && [t][..0] == [];
    LastIsDownNext([t, u], p);
    LastIsDownNext([t], p);
  }

  /** Turning resolution off around the key-up makes the next press do nothing. */
  lemma PressLost(f: Resolver)
    ensures var kanji := Key(0x19, 0x29, false);
            var turns := [Quiet(KeyChange(kanji, true), true), Quiet(KeyChange(kanji, false), false)];
            var again := Quiet(KeyChange(kanji, true), true);
            && IsPress(turns, again, k => k == kanji)
            && !Flips(Run(f, NewLoop(NO_MODIFIERS), turns).0, again)
  {
    var kanji := Key(0x19, 0x29, false);
    var down, up := Quiet(KeyChange(kanji, true), true), Quiet(KeyChange(kanji, false), false);
    var s := NewLoop(NO_MODIFIERS);
    RunOfTwo(f, s, down, up);
    GuardAfter(f, s, down);
    GuardAfter(f, Step(f, s, down).0, up);
    LastOfTwo(down, up, EventOf(k => k == kanji));
  }

  /** While one toggle key is down, a fresh press of another does not flip. */
  lemma SecondKeyIgnored(f: Resolver)
    ensures var kanji, zenkaku := Key(0x19, 0x29, false), Key(0xF3, 0x29, false);
            var turns, press := [Quiet(KeyChange(kanji, true), true)], Quiet(KeyChange(zenkaku, true), true);
            && IsPress(turns, press, k => k == zenkaku)
            && !Flips(Run(f, NewLoop(NO_MODIFIERS), turns).0, press)
  {
    var kanji, zenkaku := Key(0x19, 0x29, false), Key(0xF3, 0x29, false);
    var down, s := Quiet(KeyChange(kanji, true), true), NewLoop(NO_MODIFIERS);
    RunOfOne(f, s, down);
    GuardAfter(f, s, down);
    LastIsDownNext([down], EventOf(k => k == zenkaku));
    assert [down][..0] == [];
  }

  /** The key-up of another toggle key lets an auto-repeat flip. */
  lemma RepeatFlips(f: Resolver)
    ensures var kanji, zenkaku := Key(0x19, 0x29, false), Key(0xF3, 0x29, false);
            var turns := [Quiet(KeyChange(kanji, true), true), Quiet(KeyChange(zenkaku, false), true)];
            var again := Quiet(KeyChange(kanji, true), true);
            && !IsPress(turns, again, k => k == kanji)
            && Flips(Run(f, NewLoop(NO_MODIFIERS), turns).0, again)
  {
    var kanji, zenkaku := Key(0x19, 0x29, false), Key(0xF3, 0x29, false);
    var down, up := Quiet(KeyChange(kanji, true), true), Quiet(KeyChange(zenkaku, false), true);
    var s := NewLoop(NO_MODIFIERS);
    RunOfTwo(f, s, down, up);
    GuardAfter(f, s, down);
    GuardAfter(f, Step(f, s, down).0, up);
    LastOfTwo(down, up, EventOf(k => k == kanji));
  }

  // ----- a vanished target -----

  function Looks(turns: seq<Turn>): (looks: seq<Look>)
    ensures |looks| == |turns| && forall i | 0 <= i < |looks| :: looks[i] == Look(turns[i].present, turns[i].now)
  {
    seq(|turns|, i requires 0 <= i < |turns| => Look(turns[i].present, turns[i].now))
  }

  lemma {:induction false} AbsentSinceIs(f: Resolver, s: Loop, turns: seq<Turn>)
    requires s.absentSince == None && Run(f, s, turns).1.None?
    ensures Run(f, s, turns).0.absentSince == ArmedAfter(Looks(turns))
  {
    if turns != [] {
      var front := turns[..|turns| - 1];
      AbsentSinceIs(f, s, front);
      assert Looks(turns)[..|turns| - 1] == Looks(front);
      StepWatches(f, Run(f, s, front).0, turns[|turns| - 1]);
    }
  }

  lemma StepWatches(f: Resolver, s: Loop, t: Turn)
    ensures t.owned ==> Step(f, s, t).0.absentSince == Watchdog.Armed(s.absentSince, Look(t.present, t.now))
    ensures t.owned ==>
      (Step(f, s, t).1 == Some(TargetVanished)
       <==> Expired(Watchdog.Armed(s.absentSince, Look(t.present, t.now)), t.now, STALE_TARGET_MS))
  {
  }

  /**
   The thread gives up exactly if every turn of the last three seconds or more
   found no session behind its sender.
   */
  lemma VanishedIff(f: Resolver, s: Loop, turns: seq<Turn>, t: Turn)
    requires s.absentSince == None && Run(f, s, turns).1.None? && t.owned
    ensures Step(f, Run(f, s, turns).0, t).1 == Some(TargetVanished)
            <==> exists i: nat :: DownFrom(Looks(turns + [t]), i) && t.now - Looks(turns + [t])[i].now >= STALE_TARGET_MS
  {
    var looks := Looks(turns + [t]);
    AbsentSinceIs(f, s, turns);
    StepWatches(f, Run(f, s, turns).0, t);
    assert looks[..|turns|] == Looks(turns);
    ExpiredIff(looks, t.now, STALE_TARGET_MS);
  }

  // ----- the thread -----

  class KeyboardThread {
    const resolver: Resolver
    var pressed: seq<Key>
    var ctrl: bool
    var alt: bool
    var win: bool
    var shift: bool
    var mode: ImeMode
    var captureOpen: bool
    var passthrough: bool
    var toggleHeld: bool
    var absentSince: Option<int>
    var delivered: seq<WireMessage>
    var lost: seq<WireMessage>

    ghost function State(): Loop
      reads this
    {
      Loop(Wire(pressed, delivered, lost), Ime(mode, captureOpen, passthrough, toggleHeld),
           Modifiers(ctrl, alt, win, shift), absentSince)
    }

    constructor (resolver: Resolver, seeded: Modifiers)
      ensures this.resolver == resolver && State() == NewLoop(seeded)
    {
      this.resolver := resolver;
      pressed, delivered, lost, absentSince := [], [], [], None;
      ctrl, alt, win, shift := seeded.ctrl, seeded.alt, seeded.win, seeded.shift;
      mode, captureOpen, passthrough, toggleHeld := Off, false, false, false;
    }

    method Send(target: Target, m: WireMessage) returns (ok: bool)
      modifies this`delivered, this`lost
      ensures Wire(pressed, delivered, lost) == Sent(Wire(pressed, old(delivered), old(lost)), target, [m])
      ensures ok <==> !target.Closed?
    {
      if target.Live? {
        delivered := delivered + [m];
      } else {
        lost := lost + [m];
      }
      ok := !target.Closed?;
    }

    method ReleasePressed(target: Target)
      modifies this`pressed, this`delivered, this`lost
      ensures Wire(pressed, delivered, lost) == Released(Wire(old(pressed), old(delivered), old(lost)), target)
    {
      var all := pressed;
      for i := 0 to |all|
        invariant pressed == all
        invariant Wire(all, delivered, lost) == Sent(Wire(all, old(delivered), old(lost)), target, Ups(all[..i]))
      {
        assert Ups(all[..i + 1]) == Ups(all[..i]) + [KeyMessage(all[i], false)];
        var _ := Send(target, KeyMessage(all[i], false));
      }
      assert all[..|all|] == all;
      pressed := [];
    }

    method SendTexts(target: Target, committed: seq<string>)
      modifies this`delivered, this`lost
      ensures Wire(pressed, delivered, lost) == Sent(Wire(pressed, old(delivered), old(lost)), target, Texts(committed))
    {
      for i := 0 to |committed|
        invariant Wire(pressed, delivered, lost)
               == Sent(Wire(pressed, old(delivered), old(lost)), target, Texts(committed[..i]))
      {
        assert committed[..i + 1][..i] == committed[..i];
        if committed[i] != "" {
          var _ := Send(target, KeyboardText(committed[i]));
        }
      }
      assert committed[..|committed|] == committed;
    }

    method Head(t: Turn)
      modifies this`pressed, this`delivered, this`lost, this`mode
      ensures State() == AtHead(old(State()), t)
    {
      SendTexts(t.target, t.committed);
      var next := mode.ObserveComposition(t.composingAtHead);
      if next != mode {
        if next.Composing? {
          ReleasePressed(t.target);
        }
        mode := next;
      }
    }

    method Flip(t: Turn)
      modifies this
      ensures State() == Flipped(old(State()), t)
    {
      toggleHeld := true;
      if mode.OnToggle().Armed? {
        if t.captureOpens {
          captureOpen, mode, passthrough := true, ImeMode.Armed, true;
          ReleasePressed(t.target);
        } else {
          mode := mode.OnEntryFailure();
        }
      } else {
        captureOpen, mode, passthrough := false, Off, false;
      }
    }

    method Physical(k: Key, down: bool) returns (m: Option<WireMessage>)
      modifies this`pressed
      ensures pressed == Track(old(pressed), k, down) && m == Some(KeyMessage(k, down))
    {
      if !down {
        pressed := Without(pressed, k);
      } else if k !in pressed {
        pressed := pressed + [k];
      }
      m := Some(KeyMessage(k, down));
    }

    method NoteModifier(k: Key, down: bool)
      modifies this`ctrl, this`alt, this`win, this`shift
      ensures State() == WithModifier(old(State()), k, down)
    {
      match ModifierKind(k.vk)
      case Some(Ctrl) => ctrl := down;
      case Some(Alt) => alt := down;
      case Some(Win) => win := down;
      case Some(Shift) => shift := down;
      case None =>
    }

    /** An IME key: only the toggle keys matter, and only once per press. */
    method KeepLocal(t: Turn, k: Key, down: bool)
      modifies this
      ensures (State(), None)
           == Acted(old(State()), t, k, down, ResolvedAction(resolver, old(State()), t, k, down, ImeLocal))
    {
      if IsImeToggleKey(k.vk) {
        if !down {
          toggleHeld := false;
        } else if !toggleHeld {
          Flip(t);
        }
      }
    }

    method RouteResolved(t: Turn, k: Key, down: bool) returns (m: Option<WireMessage>)
      modifies this
      ensures (State(), m)
           == Acted(old(State()), t, k, down,
                    ResolvedAction(resolver, old(State()), t, k, down, RouteOf(old(State()).modifiers, k)))
    {
      m := None;
      var route := ClassifyKey(k.vk, ctrl, alt, win);
      if route.ImeLocal? {
        KeepLocal(t, k, down);
      } else if mode.IsOn() {
        if !t.composing && route.Physical? {
          m := Physical(k, down);
        }
      } else if route.Physical? {
        m := Physical(k, down);
      } else {
        m := Character(t, k, down);
      }
    }

    /** Text if the key resolves; otherwise the physical key, and its release. */
    method Character(t: Turn, k: Key, down: bool) returns (m: Option<WireMessage>)
      requires !mode.IsOn()
      modifies this`pressed
      ensures (State(), m)
           == Acted(old(State()), t, k, down,
                    ResolvedAction(resolver, old(State()), t, k, down, KeyRoute.Character))
    {
      m := None;
      if down {
        var text := resolver(k, shift, t.caps);
        if text.Some? {
          m := Some(KeyboardText(text.value));
        } else {
          m := Physical(k, down);
        }
      } else if k in pressed {
        m := Physical(k, down);
      }
    }

    method RouteKey(t: Turn, k: Key, down: bool) returns (m: Option<WireMessage>)
      modifies this
      ensures (State(), m) == Acted(old(State()), t, k, down, ActionOf(resolver, old(State()), t, k, down))
    {
      if t.resolving {
        m := RouteResolved(t, k, down);
      } else {
        m := Physical(k, down);
      }
    }

    method TakeTurn(t: Turn) returns (stop: Option<Stop>)
      modifies this
      ensures (State(), stop) == Step(resolver, old(State()), t)
    {
      if !t.owned {
        return Some(NotOwned);
      }
      if t.present {
        absentSince := None;
      } else {
        if absentSince.None? {
          absentSince := Some(t.now);
        }
        if t.now - absentSince.value >= STALE_TARGET_MS {
          return Some(TargetVanished);
        }
      }
      Head(t);
      if t.hookLost {
        return Some(HookLost);
      }
      match t.event
      case Timeout => stop := None;
      case Disconnected => stop := Some(HookGone);
      case Failsafe => stop := Some(EmergencyStop);
      case KeyChange(k, down) => stop := TakeKey(t, k, down);
    }

    method TakeKey(t: Turn, k: Key, down: bool) returns (stop: Option<Stop>)
      modifies this
      ensures (State(), stop) == AtKey(resolver, old(State()), t, k, down)
    {
      NoteModifier(k, down);
      var m := RouteKey(t, k, down);
      stop := None;
      if m.Some? {
        var ok := Send(t.target, m.value);
        if !ok {
          stop := Some(SendFailed);
        }
      }
    }

    /** Turn by turn, until one stops the loop. */
    method Work(turns: seq<Turn>) returns (stop: Option<Stop>)
      modifies this
      ensures (State(), stop) == Run(resolver, old(State()), turns)
    {
      stop := None;
      var i := 0;
      while i < |turns| && stop.None?
        invariant 0 <= i <= |turns|
        invariant (State(), stop) == Run(resolver, old(State()), turns[..i])
        invariant stop.Some? ==> Run(resolver, old(State()), turns[..i]) == Run(resolver, old(State()), turns)
      {
        stop := TakeTurn(turns[i]);
        assert turns[..i + 1][..i] == turns[..i];
        i := i + 1;
        if stop.Some? {
          StoppedStays(resolver, old(State()), turns, i);
        }
      }
      assert turns[..|turns|] == turns;
    }

    method Leave(current: bool, target: Target)
      modifies this
      ensures State() == Left(old(State()), current, target)
    {
      if captureOpen && current {
        passthrough := false;
      }
      captureOpen := false;
      ReleasePressed(target);
    }
  }

  /**
   A whole thread, whatever happened: afterwards the peer holds no key about which
   nothing was lost, none at all if the target was live throughout; no capture
   window is open, and pass-through is off unless a newer thread has taken over.
   */
  method RunThread(resolver: Resolver, seeded: Modifiers, turns: seq<Turn>, current: bool, last: Target)
    returns (end: Loop, stop: Option<Stop>)
    ensures end.wire.pressed == [] && forall k | !Lost(end.wire, k) :: k !in PeerHeld(end.wire.delivered)
    ensures last.Live? && (forall t | t in turns :: t.target.Live?) ==> end.wire.lost == [] && PeerHeld(end.wire.delivered) == {}
    ensures !end.ime.captureOpen && (current ==> !end.ime.passthrough)
    ensures stop == Run(resolver, NewLoop(seeded), turns).1
    ensures end == Left(Run(resolver, NewLoop(seeded), turns).0, current, last)
  {
    var thread := new KeyboardThread(resolver, seeded);
    stop := thread.Work(turns);
    AtTheEnd(resolver, seeded, turns, current, last);
    thread.Leave(current, last);
    end := Loop(Wire(thread.pressed, thread.delivered, thread.lost),
                Ime(thread.mode, thread.captureOpen, thread.passthrough, thread.toggleHeld),
                Modifiers(thread.ctrl, thread.alt, thread.win, thread.shift), thread.absentSince);
  }

  lemma AtTheEnd(f: Resolver, seeded: Modifiers, turns: seq<Turn>, current: bool, last: Target)
    ensures var end := Left(Run(f, NewLoop(seeded), turns).0, current, last);
            && (forall k | !Lost(end.wire, k) :: k !in PeerHeld(end.wire.delivered))
            && (last.Live? && (forall t | t in turns :: t.target.Live?) ==>
                  end.wire.lost == [] && PeerHeld(end.wire.delivered) == {})
            && !end.ime.captureOpen && (current ==> !end.ime.passthrough)
  {
    var s := Run(f, NewLoop(seeded), turns).0;
    PeerHoldsTracked(f, NewLoop(seeded), turns);
    RunCoherent(f, NewLoop(seeded), turns);
    ReleasedInStep(s.wire, last);
    if last.Live? && forall t | t in turns :: t.target.Live? {
      LostNothing(f, NewLoop(seeded), turns);
      LeftHoldsNothingIff(s, current, last);
    }
  }

  lemma {:induction false} StoppedStays(f: Resolver, s: Loop, turns: seq<Turn>, i: nat)
    requires i <= |turns| && Run(f, s, turns[..i]).1.Some?
    ensures Run(f, s, turns) == Run(f, s, turns[..i])
    decreases |turns|
  {
    if i == |turns| {
      assert turns[..i] == turns;
    } else {
      assert turns[..|turns| - 1][..i] == turns[..i];
      StoppedStays(f, s, turns[..|turns| - 1], i);
    }
  }
}
