/**
 What the keyboard thread sends, turn by turn and over runs
 (`start_keyboard_hook_forwarding`,
 apps/tailkvm-ui/src-tauri/src/forwarding.rs), read off the events, the tracked
 keys and the mode, and what each event makes of mode, modifiers and loop.
 */
module KeyboardSends {
  import opened Basics
  import opened Protocol
  import opened HeldInput
  import opened KeyRouting
  import opened Watchdog
  import opened KeyboardLoop

  // ----- one event -----

  /** The modifiers as the event leaves them. */
  function ModifiersBy(m: Modifiers, vk: nat, down: bool): Modifiers {
    Modifiers(if vk in {0x11, 0xA2, 0xA3} then down else m.ctrl, if vk in {0x12, 0xA4, 0xA5} then down else m.alt,
              if vk in {0x5B, 0x5C} then down else m.win, if vk in {0x10, 0xA0, 0xA1} then down else m.shift)
  }

  /** A toggle key pressed anew while characters are resolved. */
  predicate Toggles(s: Loop, t: Turn) {
    t.event.KeyChange? && t.event.down && t.resolving && IsImeToggleKey(t.event.key.vk) && !s.ime.toggleHeld
  }

  /** The messages of a key event, the tracked keys and the mode being those before it. */
  function EventSays(f: Resolver, s: Loop, t: Turn): seq<WireMessage>
    requires t.event.KeyChange?
  {
    var k, down := t.event.key, t.event.down;
    var m := ModifiersBy(s.modifiers, k.vk, down);
    var own := [KeyboardKey(k.vk, k.scanCode, down, k.extended)];
    var text := f(k, m.shift, t.caps);
    match ClassifyKey(k.vk, m.ctrl, m.alt, m.win)
    case Physical => if t.resolving && s.ime.mode.IsOn() && t.composing then [] else own
    case ImeLocal =>
      if !t.resolving then own
      else if Toggles(s, t) && !s.ime.mode.IsOn() && t.captureOpens then Ups(s.wire.pressed)
      else []
    case Character =>
      if !t.resolving then own
      else if s.ime.mode.IsOn() then []
      else if down && text.Some? then [KeyboardText(text.value)]
      else if down || k in s.wire.pressed then own
      else []
  }

  lemma ModifiersAre(s: Loop, k: Key, down: bool)
    ensures WithModifier(s, k, down) == s.(modifiers := ModifiersBy(s.modifiers, k.vk, down))
  {
  }

  /** These messages, and no others, reach the peer if the target is live, and are lost otherwise. */
  predicate Hands(before: Wire, target: Target, ms: seq<WireMessage>, after: Wire) {
    if target.Live? then after.delivered == before.delivered + ms && after.lost == before.lost
    else after.delivered == before.delivered && after.lost == before.lost + ms
  }

  lemma EventHands(f: Resolver, s: Loop, t: Turn)
    requires t.event.KeyChange?
    ensures Hands(s.wire, t.target, EventSays(f, s, t), AtEvent(f, s, t).0.wire)
  {
    var k, down := t.event.key, t.event.down;
    ModifiersAre(s, k, down);
    assert s.wire.delivered + [] == s.wire.delivered && s.wire.lost + [] == s.wire.lost;
  }

  predicate Exactly(f: Resolver, s: Loop, t: Turn, ms: seq<WireMessage>) {
    AtEvent(f, s, t).0.wire.delivered == s.wire.delivered + ms
  }

  /**
   With a live target: without resolution every event delivers exactly its own key
   message. With resolution and the mode off, a physical key delivers exactly its
   key message; a printable key-down its text if it resolves, and otherwise its
   key message; a printable key-up its key message exactly if the key is tracked.
   */
  lemma EventLaws(f: Resolver, s: Loop, t: Turn, k: Key, down: bool)
    requires t.event == KeyChange(k, down) && t.target.Live?
    ensures var own := KeyboardKey(k.vk, k.scanCode, down, k.extended);
            var m := ModifiersBy(s.modifiers, k.vk, down);
            var route, text := ClassifyKey(k.vk, m.ctrl, m.alt, m.win), f(k, m.shift, t.caps);
            && (!t.resolving ==> Exactly(f, s, t, [own]))
            && (t.resolving && !s.ime.mode.IsOn() ==>
                  && (route.Physical? ==> Exactly(f, s, t, [own]))
                  && (route.Character? && down && text.Some? ==> Exactly(f, s, t, [KeyboardText(text.value)]))
                  && (route.Character? && down && text.None? ==> Exactly(f, s, t, [own]))
                  && (route.Character? && !down ==> Exactly(f, s, t, if k in s.wire.pressed then [own] else [])))
            && (t.resolving && s.ime.mode.IsOn() && !route.ImeLocal? ==>
                  Exactly(f, s, t, if route.Physical? && !t.composing then [own] else []))
  {
    EventHands(f, s, t);
  }

  // ----- one turn -----

  /** The loop ends before it looks at the window and the hook. */
  predicate EndsEarly(s: Loop, t: Turn) {
    !t.owned || Expired(Watchdog.Armed(s.absentSince, Look(t.present, t.now)), t.now, STALE_TARGET_MS)
  }

  /** The non-empty texts, in order. */
  function NonEmpty(texts: seq<string>): seq<string> {
    if texts == [] then [] else (if texts[0] == "" then [] else [texts[0]]) + NonEmpty(texts[1..])
  }

  function Typed(texts: seq<string>): (ms: seq<WireMessage>)
    ensures |ms| == |texts| && forall i | 0 <= i < |texts| :: ms[i] == KeyboardText(texts[i])
  {
    seq(|texts|, i requires 0 <= i < |texts| => KeyboardText(texts[i]))
  }

  lemma {:induction false} NonEmptyLast(texts: seq<string>, last: string)
    ensures NonEmpty(texts + [last]) == NonEmpty(texts) + if last == "" then [] else [last]
  {
    if texts != [] {
      assert (texts + [last])[1..] == texts[1..] + [last];
      NonEmptyLast(texts[1..], last);
    }
  }

  lemma {:induction false} TextsAreTyped(committed: seq<string>)
    ensures Texts(committed) == Typed(NonEmpty(committed))
  {
    if committed != [] {
      var n := |committed| - 1;
      TextsAreTyped(committed[..n]);
      NonEmptyLast(committed[..n], committed[n]);
      assert committed == committed[..n] + [committed[n]];
    }
  }

  /** A composition opens at the head of the turn. */
  predicate OpensNow(s: Loop, t: Turn) {
    s.ime.mode == ImeMode.Armed && t.composingAtHead
  }

  /** The loop as the event of the turn finds it, but for what was sent. */
  function Before(s: Loop, t: Turn): Loop {
    s.(wire := if OpensNow(s, t) then s.wire.(pressed := []) else s.wire, ime := s.ime.(mode := ModeAtHead(s, t)))
  }

  function ModeAtHead(s: Loop, t: Turn): ImeMode {
    if OpensNow(s, t) then ImeMode.Composing
    else if s.ime.mode == ImeMode.Composing && !t.composingAtHead then ImeMode.Armed
    else s.ime.mode
  }

  /** The head of a turn says the committed texts, and the releases when a composition opens. */
  function HeadSays(s: Loop, t: Turn): seq<WireMessage> {
    Typed(NonEmpty(t.committed)) + if OpensNow(s, t) then Ups(s.wire.pressed) else []
  }

  function TurnSays(f: Resolver, s: Loop, t: Turn): seq<WireMessage> {
    if EndsEarly(s, t) then []
    else HeadSays(s, t) + if t.event.KeyChange? && !t.hookLost then EventSays(f, Before(s, t), t) else []
  }

  lemma HeadHands(s: Loop, t: Turn, h: Loop)
    requires h == AtHead(Watched(s, t), t)
    ensures Hands(s.wire, t.target, HeadSays(s, t), h.wire)
    ensures h.wire.pressed == Before(s, t).wire.pressed && h.ime == Before(s, t).ime && h.modifiers == s.modifiers
  {
    TextsAreTyped(t.committed);
    var texts, ups := Texts(t.committed), Ups(s.wire.pressed);
    Chain(s.wire.delivered, texts, ups);
    Chain(s.wire.lost, texts, ups);
    Chain(texts, [], []);
  }

  /** The messages depend on nothing else. */
  lemma SaysTheSame(f: Resolver, s: Loop, r: Loop, t: Turn)
    requires t.event.KeyChange? && r.wire.pressed == s.wire.pressed && r.ime == s.ime && r.modifiers == s.modifiers
    ensures EventSays(f, r, t) == EventSays(f, s, t)
  {
  }

  lemma TurnUnfolds(f: Resolver, s: Loop, t: Turn, h: Loop)
    requires h == AtHead(Watched(s, t), t)
    ensures Step(f, s, t).0.wire
         == if EndsEarly(s, t) then s.wire else if t.hookLost || !t.event.KeyChange? then h.wire else AtEvent(f, h, t).0.wire
  {
  }

  lemma Chain<T>(a: seq<T>, b: seq<T>, c: seq<T>)
    ensures a + b + c == a + (b + c) && a + [] == a
  {
  }

  lemma HandsOn(w: Wire, target: Target, a: seq<WireMessage>, mid: Wire, b: seq<WireMessage>, after: Wire)
    requires Hands(w, target, a, mid) && Hands(mid, target, b, after)
    ensures Hands(w, target, a + b, after)
  {
    Chain(w.delivered, a, b);
    Chain(w.lost, a, b);
  }

  lemma HandsNothing(w: Wire, target: Target)
    ensures Hands(w, target, [], w)
  {
    Chain(w.delivered, [], []);
    Chain(w.lost, [], []);
  }

  lemma {:induction false} TurnHands(f: Resolver, s: Loop, t: Turn)
    ensures Hands(s.wire, t.target, TurnSays(f, s, t), Step(f, s, t).0.wire)
  {
    var h := AtHead(Watched(s, t), t);
    TurnUnfolds(f, s, t, h);
    HeadHands(s, t, h);
    HandsNothing(s.wire, t.target);
    HandsNothing(h.wire, t.target);
    if t.event.KeyChange? {
      EventHands(f, h, t);
      SaysTheSame(f, Before(s, t), h, t);
    }
    if !EndsEarly(s, t) {
      var more := if t.event.KeyChange? && !t.hookLost then EventSays(f, Before(s, t), t) else [];
      HandsOn(s.wire, t.target, HeadSays(s, t), h.wire, more, Step(f, s, t).0.wire);
    }
  }

  // ----- a run -----

  /** What a run says to live targets: turn by turn, up to the one that stops the loop. */
  function RunSays(f: Resolver, s: Loop, turns: seq<Turn>): seq<WireMessage> {
    if turns == [] then []
    else
      var front, last := turns[..|turns| - 1], turns[|turns| - 1];
      var (at, stop) := Run(f, s, front);
      RunSays(f, s, front) + if stop.None? && last.target.Live? then TurnSays(f, at, last) else []
  }

  /** Over every run, exactly that is delivered, and nothing else. */
  lemma {:induction false} RunDelivers(f: Resolver, s: Loop, turns: seq<Turn>)
    ensures Run(f, s, turns).0.wire.delivered == s.wire.delivered + RunSays(f, s, turns)
  {
    if turns == [] {
      Chain(s.wire.delivered, [], []);
    } else {
      var front, last := turns[..|turns| - 1], turns[|turns| - 1];
      RunDelivers(f, s, front);
      var (at, stop) := Run(f, s, front);
      TurnHands(f, at, last);
      Chain(s.wire.delivered, RunSays(f, s, front), TurnSays(f, at, last));
      Chain(RunSays(f, s, front), [], []);
    }
  }

  /** The own message of a key event. */
  function Own(t: Turn): seq<WireMessage> {
    if t.event.KeyChange? then [KeyboardKey(t.event.key.vk, t.event.key.scanCode, t.event.down, t.event.key.extended)] else []
  }

  /** The committed texts and the key events of all turns. */
  function AllOf(turns: seq<Turn>): seq<WireMessage> {
    if turns == [] then []
    else
      var last := turns[|turns| - 1];
      AllOf(turns[..|turns| - 1]) + (Typed(NonEmpty(last.committed)) + Own(last))
  }

  lemma PlainTurn(f: Resolver, s: Loop, t: Turn)
    requires s.ime.mode.Off? && !t.resolving && Step(f, s, t).1.None?
    ensures TurnSays(f, s, t) == Typed(NonEmpty(t.committed)) + Own(t) && Step(f, s, t).0.ime.mode.Off?
  {
    Chain(Typed(NonEmpty(t.committed)), [], []);
  }

  /**
   As long as characters are not resolved and the loop goes on, a live peer gets
   exactly the non-empty committed texts and every key event as it came, in order.
   */
  lemma {:induction false} PlainRun(f: Resolver, s: Loop, turns: seq<Turn>)
    requires s.ime.mode.Off? && Run(f, s, turns).1.None? && forall t | t in turns :: !t.resolving && t.target.Live?
    ensures Run(f, s, turns).0.wire.delivered == s.wire.delivered + AllOf(turns) && Run(f, s, turns).0.ime.mode.Off?
  {
    RunDelivers(f, s, turns);
    PlainSays(f, s, turns);
  }

  lemma {:induction false} PlainSays(f: Resolver, s: Loop, turns: seq<Turn>)
    requires s.ime.mode.Off? && Run(f, s, turns).1.None? && forall t | t in turns :: !t.resolving && t.target.Live?
    ensures RunSays(f, s, turns) == AllOf(turns) && Run(f, s, turns).0.ime.mode.Off?
  {
    if turns != [] {
      var front, last := turns[..|turns| - 1], turns[|turns| - 1];
      PlainSays(f, s, front);
      PlainTurn(f, Run(f, s, front).0, last);
    }
  }

  // ----- mode, modifiers and the end of the loop -----

  /** The event of the turn is not looked at, or is no key event. */
  predicate Keyless(s: Loop, t: Turn) {
    EndsEarly(s, t) || t.hookLost || !t.event.KeyChange?
  }

  /** Modifiers and the guard follow the last event of their keys. */
  lemma {:induction false} TurnNotes(f: Resolver, s: Loop, t: Turn)
    ensures var after := Step(f, s, t).0;
            && after.modifiers == (if Keyless(s, t) then s.modifiers else ModifiersBy(s.modifiers, t.event.key.vk, t.event.down))
            && after.ime.toggleHeld
               == (if !Keyless(s, t) && t.resolving && IsImeToggleKey(t.event.key.vk) then t.event.down else s.ime.toggleHeld)
  {
    if !Keyless(s, t) {
      ModifiersAre(AtHead(Watched(s, t), t), t.event.key, t.event.down);
    }
  }

  /** The toggle key turns the mode off, or on if the capture window opens; only its first key-down of a press counts. */
  lemma {:induction false} TurnToggles(f: Resolver, s: Loop, t: Turn)
    ensures Step(f, s, t).0.ime.mode
         == if EndsEarly(s, t) then s.ime.mode
            else if Keyless(s, t) || !Toggles(s, t) then ModeAtHead(s, t)
            else if ModeAtHead(s, t).IsOn() then Off
            else if t.captureOpens then ImeMode.Armed
            else Suspended
  {
    if !Keyless(s, t) {
      ModifiersAre(AtHead(Watched(s, t), t), t.event.key, t.event.down);
    }
  }

  /** Why a turn is the last one. */
  lemma {:induction false} TurnStopsIff(f: Resolver, s: Loop, t: Turn)
    ensures var stop, absent := Step(f, s, t).1, Watchdog.Armed(s.absentSince, Look(t.present, t.now));
            && (stop == Some(NotOwned) <==> !t.owned)
            && (stop == Some(TargetVanished) <==> t.owned && Expired(absent, t.now, 3000))
            && (stop == Some(HookLost) <==> !EndsEarly(s, t) && t.hookLost)
            && (stop == Some(HookGone) <==> !EndsEarly(s, t) && !t.hookLost && t.event.Disconnected?)
            && (stop == Some(EmergencyStop) <==> !EndsEarly(s, t) && !t.hookLost && t.event.Failsafe?)
            && (stop == Some(SendFailed) ==> t.target.Closed? && t.event.KeyChange?)
  {
  }

  /** A message of the event itself that meets a closed session ends the loop; the releases of a toggle do not. */
  lemma {:induction false} SendFailsIff(f: Resolver, s: Loop, t: Turn)
    ensures Step(f, s, t).1 == Some(SendFailed) <==>
            && !EndsEarly(s, t) && !t.hookLost && t.event.KeyChange? && t.target.Closed?
            && EventSays(f, Before(s, t), t) != [] && !Toggles(s, t)
  {
    if !EndsEarly(s, t) && !t.hookLost && t.event.KeyChange? {
      var h := AtHead(Watched(s, t), t);
      HeadHands(s, t, h);
      ModifiersAre(h, t.event.key, t.event.down);
      SaysTheSame(f, Before(s, t), h, t);
      FailsAtEvent(f, h, t);
    }
  }

  lemma FailsAtEvent(f: Resolver, s: Loop, t: Turn)
    requires t.event.KeyChange?
    ensures AtEvent(f, s, t).1.Some? <==> t.target.Closed? && EventSays(f, s, t) != [] && !Toggles(s, t)
  {
    ModifiersAre(s, t.event.key, t.event.down);
  }
}
