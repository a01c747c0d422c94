/**
 The inbound session (`handle_receiver_stream`,
 apps/tailkvm-ui/src-tauri/src/session/receiver.rs): handshake gate, injection,
 tracking of held input, watchdogs, and release on every exit. What the machine
 itself does is reduced to the keys and buttons it has down, its cursor, and the
 list of things it carried out.
 */
module Receiver {
  import opened Basics
  import opened Protocol
  import opened LineReader
  import opened HeldInput

  const HEARTBEAT_STALE_MS := 8000

  type Point = (int, int)

  /** What absolute and other input does to the cursor of the machine. */
  datatype Desktop = Desktop(place: (int, int) -> Point, act: (Point, WireMessage) -> Point)

  /** The accept toggle and the pairing token at the time of a message. */
  datatype Policy = Policy(accepting: bool, token: Option<string>)

  function HelloAuthorized(required: Option<string>, presented: Option<string>): bool {
    required.None? || presented == required
  }

  predicate Admits(p: Policy, m: WireMessage) {
    m.Hello? && p.accepting && HelloAuthorized(p.token, m.authToken)
  }

  /** What the environment decides about the handling of one line. */
  datatype Env = Env(policy: Policy, now: int, injected: bool, wrote: bool)

  datatype Session = Session(
    accepted: bool,
    open: bool,
    heldKeys: seq<Key>,
    heldButtons: seq<string>,
    keysDown: set<OsKey>,
    buttonsDown: set<OsButton>,
    cursor: Point,
    trace: seq<(WireMessage, Point)>)

  function NewSession(cursor: Point): Session {
    Session(false, true, [], [], {}, {}, cursor, [])
  }

  /** A message is carried out at the cursor position in force. */
  function Performed(d: Desktop, s: Session, m: WireMessage): Session {
    s.(trace := s.trace + [(m, s.cursor)], cursor := d.act(s.cursor, m))
  }

  /** One decoded message. */
  function Exec(d: Desktop, s: Session, m: WireMessage, p: Policy, injected: bool): Session {
    if !s.open then s
    else if m.Hello? then s.(accepted := Admits(p, m), open := Admits(p, m))
    else if !s.accepted then s
    else match m
      case MouseSetPosition(x, y) =>
        if injected then s.(cursor := d.place(x, y)) else s
      case KeyboardKey(vk, scanCode, down, extended) =>
        var k := Key(vk, scanCode, extended);
        var t := s.(heldKeys := Track(s.heldKeys, k, down));
        if injected then Performed(d, t.(keysDown := Press(t.keysDown, OsKeyOf(k), down)), m) else t
      case MouseButton(button, down) =>
        var t := s.(heldButtons := Track(s.heldButtons, button, down));
        if injected then Performed(d, t.(buttonsDown := Press(t.buttonsDown, OsButtonOf(button), down)), m) else t
      case Disconnect(_) => s.(open := false)
      case KeyboardText(_) => if injected then Performed(d, s, m) else s
      case MouseWheel(_, _) => if injected then Performed(d, s, m) else s
      case MouseMove(_, _) => if injected then Performed(d, s, m) else s
      case ClipboardText(_) => if injected then Performed(d, s, m) else s
      case ClipboardImage(_) => if injected then Performed(d, s, m) else s
      case _ => s
  }

  // ----- what one message does -----

  /** Input and clipboard content: the kinds that are carried out on this machine. */
  predicate Performable(m: WireMessage) {
    m.KeyboardText? || m.KeyboardKey? || m.MouseButton? || m.MouseWheel? || m.MouseMove? || m.ClipboardText? || m.ClipboardImage?
  }

  function CursorAfter(d: Desktop, cursor: Point, m: WireMessage, injected: bool): Point {
    if !injected then cursor
    else if m.MouseSetPosition? then d.place(m.x, m.y)
    else if Performable(m) then d.act(cursor, m)
    else cursor
  }

  /**
   In an admitted session a message of the listed kinds is carried out exactly if
   it could be injected, at the cursor position before it; a position moves the
   cursor there; keys and buttons are tracked whether injected or not, and down in
   the OS as injected; only a Disconnect ends it.
   */
  lemma HandlingDoes(d: Desktop, s: Session, m: WireMessage, p: Policy, injected: bool)
    requires s.open && s.accepted && !m.Hello?
    ensures var t := Exec(d, s, m, p, injected);
            && t.trace == s.trace + (if injected && Performable(m) then [(m, s.cursor)] else [])
            && t.cursor == CursorAfter(d, s.cursor, m, injected)
            && t.accepted && (t.open <==> !m.Disconnect?)
    ensures var t := Exec(d, s, m, p, injected);
            && (forall k :: k in t.heldKeys <==>
                  if m.KeyboardKey? && k == Key(m.vk, m.scanCode, m.extended) then m.down else k in s.heldKeys)
            && (forall b :: b in t.heldButtons <==>
                  if m.MouseButton? && b == m.button then m.down else b in s.heldButtons)
            && (forall o :: o in t.keysDown <==>
                  if injected && m.KeyboardKey? && OsKeyOf(Key(m.vk, m.scanCode, m.extended)) == Some(o) then m.down
                  else o in s.keysDown)
            && (forall o :: o in t.buttonsDown <==>
                  if injected && m.MouseButton? && OsButtonOf(m.button) == Some(o) then m.down else o in s.buttonsDown)
  {
  }

  /** A Hello is admitted exactly if accepting is on and a required token is the one presented; nothing else gets past the gate. */
  lemma GateDoes(d: Desktop, s: Session, m: WireMessage, p: Policy, injected: bool)
    requires s.open ==> m.Hello? || !s.accepted
    ensures var t, ok := Exec(d, s, m, p, injected),
                         m.Hello? && p.accepting && (p.token.None? || m.authToken == Some(p.token.value));
            t == if s.open && m.Hello? then s.(accepted := ok, open := ok) else s
  {
  }

  /** The time of the last message that fed the heartbeat watchdog. */
  function BeatAfter(last: Option<int>, accepted: bool, m: Option<WireMessage>, now: int): Option<int> {
    if m.Some? && (m.value.Hello? || (m.value.Heartbeat? && accepted)) then Some(now) else last
  }

  function LastBeat(c: Codec, d: Desktop, s: Session, log: seq<(seq<Byte>, Env)>): Option<int> {
    if log == [] then None
    else
      var front, last := log[..|log| - 1], log[|log| - 1];
      BeatAfter(LastBeat(c, d, s, front), Replay(c, d, s, front).accepted, c.decode(last.0), last.1.now)
  }

  function ExecLine(c: Codec, d: Desktop, s: Session, text: seq<Byte>, e: Env): Session {
    var m := c.decode(text);
    if m.Some? then Exec(d, s, m.value, e.policy, e.injected) else s
  }

  /** The session after a log of lines. */
  function Replay(c: Codec, d: Desktop, s: Session, log: seq<(seq<Byte>, Env)>): Session {
    if log == [] then s
    else ExecLine(c, d, Replay(c, d, s, log[..|log| - 1]), log[|log| - 1].0, log[|log| - 1].1)
  }

  lemma ReplayNext(c: Codec, d: Desktop, s: Session, log: seq<(seq<Byte>, Env)>, last: (seq<Byte>, Env))
    ensures Replay(c, d, s, log + [last]) == ExecLine(c, d, Replay(c, d, s, log), last.0, last.1)
  {
    assert (log + [last])[..|log|] == log;
  }

  /** The i-th line feeds the heartbeat watchdog: a Hello, or a heartbeat of an admitted session. */
  predicate Feeds(c: Codec, d: Desktop, s: Session, log: seq<(seq<Byte>, Env)>, i: int) {
    0 <= i < |log| && c.decode(log[i].0).Some? &&
    var m := c.decode(log[i].0).value; m.Hello? || (m.Heartbeat? && Replay(c, d, s, log[..i]).accepted)
  }

  /** The watchdog goes by the last such line. */
  lemma {:induction false} LastBeatIs(c: Codec, d: Desktop, s: Session, log: seq<(seq<Byte>, Env)>)
    ensures var beat := LastBeat(c, d, s, log);
            && (beat.None? ==> forall i :: !Feeds(c, d, s, log, i))
            && (beat.Some? ==> exists i :: Feeds(c, d, s, log, i) && log[i].1.now == beat.value
                                           && forall j | i < j :: !Feeds(c, d, s, log, j))
  {
    if log != [] {
      var n, front := |log| - 1, log[..|log| - 1];
      LastBeatIs(c, d, s, front);
      forall i | i < n ensures Feeds(c, d, s, log, i) <==> Feeds(c, d, s, front, i) {
        assert 0 <= i ==> front[..i] == log[..i] && front[i] == log[i];
      }
      if Feeds(c, d, s, log, n) {
        assert LastBeat(c, d, s, log) == Some(log[n].1.now);
        assert forall j | n < j :: !Feeds(c, d, s, log, j);
      } else if LastBeat(c, d, s, front).Some? {
        var i :| Feeds(c, d, s, front, i) && front[i].1.now == LastBeat(c, d, s, front).value
                 && forall j | i < j :: !Feeds(c, d, s, front, j);
        assert Feeds(c, d, s, log, i) && log[i] == front[i];
      }
    }
  }

  // ----- the gate -----

  predicate SomeAdmitted(c: Codec, log: seq<(seq<Byte>, Env)>) {
    exists i :: 0 <= i < |log| && c.decode(log[i].0).Some? && Admits(log[i].1.policy, c.decode(log[i].0).value)
  }

  /**
   Whatever arrives, nothing is injected, applied or tracked unless a Hello was
   admitted before: the session is still the initial one, open or closed.
   */
  lemma {:induction false} NothingBeforeAdmission(c: Codec, d: Desktop, cursor: Point, log: seq<(seq<Byte>, Env)>)
    ensures var s := Replay(c, d, NewSession(cursor), log);
            !SomeAdmitted(c, log) ==> s == NewSession(cursor).(open := s.open)
  {
    if log != [] && !SomeAdmitted(c, log) {
      var front, last := log[..|log| - 1], log[|log| - 1];
      assert !SomeAdmitted(c, front) by {
        assert forall i | 0 <= i < |front| :: front[i] == log[i];
      }
      NothingBeforeAdmission(c, d, cursor, front);
      assert c.decode(last.0).Some? ==> !Admits(last.1.policy, c.decode(last.0).value);
    }
  }

  // ----- no stuck input -----

  /** The OS keys and buttons whose last press or release was a release that could not be injected. */
  datatype Stuck = Stuck(keys: set<OsKey>, buttons: set<OsButton>)

  function StuckAfter(lost: Stuck, s: Session, m: WireMessage, injected: bool): Stuck {
    if !s.open || !s.accepted then lost
    else if m.KeyboardKey? then
      lost.(keys := Lost(lost.keys, OsKeyOf(Key(m.vk, m.scanCode, m.extended)), m.down, injected))
    else if m.MouseButton? then lost.(buttons := Lost(lost.buttons, OsButtonOf(m.button), m.down, injected))
    else lost
  }

  function StuckIn(c: Codec, d: Desktop, s: Session, log: seq<(seq<Byte>, Env)>): Stuck {
    if log == [] then Stuck({}, {})
    else
      var front, last := log[..|log| - 1], log[|log| - 1];
      var lost, m := StuckIn(c, d, s, front), c.decode(last.0);
      if m.Some? then StuckAfter(lost, Replay(c, d, s, front), m.value, last.1.injected) else lost
  }

  ghost predicate Covered(s: Session, lost: Stuck) {
    && Covers(s.heldKeys, OsKeyOf, s.keysDown - lost.keys)
    && Covers(s.heldButtons, OsButtonOf, s.buttonsDown - lost.buttons)
    && NoDuplicates(s.heldKeys) && NoDuplicates(s.heldButtons)
  }

  lemma ExecKeepsCovered(d: Desktop, s: Session, m: WireMessage, p: Policy, injected: bool, lost: Stuck)
    requires Covered(s, lost)
    ensures Covered(Exec(d, s, m, p, injected), StuckAfter(lost, s, m, injected))
  {
    match m
    case KeyboardKey(vk, scanCode, down, extended) =>
      var k := Key(vk, scanCode, extended);
      TrackKeepsCover(s.heldKeys, OsKeyOf, s.keysDown, lost.keys, k, down, injected);
      TrackIsASet(s.heldKeys, k, down);
    case MouseButton(button, down) =>
      TrackKeepsCover(s.heldButtons, OsButtonOf, s.buttonsDown, lost.buttons, button, down, injected);
      TrackIsASet(s.heldButtons, button, down);
    case _ =>
  }

  lemma {:induction false} ReplayCovered(c: Codec, d: Desktop, cursor: Point, log: seq<(seq<Byte>, Env)>)
    ensures Covered(Replay(c, d, NewSession(cursor), log), StuckIn(c, d, NewSession(cursor), log))
  {
    if log != [] {
      var front, last := log[..|log| - 1], log[|log| - 1];
      var s, lost := Replay(c, d, NewSession(cursor), front), StuckIn(c, d, NewSession(cursor), front);
      ReplayCovered(c, d, cursor, front);
      var m := c.decode(last.0);
      if m.Some? {
        ExecKeepsCovered(d, s, m.value, last.1.policy, last.1.injected, lost);
      }
    }
  }

  predicate IsRelease(m: WireMessage) {
    (m.KeyboardKey? || m.MouseButton?) && !m.down
  }

  /** Every release in the log could be injected. */
  predicate ReleasesInjected(c: Codec, log: seq<(seq<Byte>, Env)>) {
    forall i | 0 <= i < |log| :: c.decode(log[i].0).Some? && IsRelease(c.decode(log[i].0).value) ==> log[i].1.injected
  }

  lemma {:induction false} NoneStuck(c: Codec, d: Desktop, s: Session, log: seq<(seq<Byte>, Env)>)
    requires ReleasesInjected(c, log)
    ensures StuckIn(c, d, s, log) == Stuck({}, {})
  {
    if log != [] {
      var front := log[..|log| - 1];
      assert forall i | 0 <= i < |front| :: front[i] == log[i];
      NoneStuck(c, d, s, front);
    }
  }

  // ----- the session loop -----

  datatype Event =
    | Arrive(bytes: seq<Byte>)
    | NetEnd
    | NetFail
    | Poll(env: Env)
    | OutboundMessage(wrote: bool)
    | OutboundClosed
    | TopologyTick
    | FailsafeTick(now: int, abort: bool, pause: bool)
    | Cancel

  datatype Exit =
    | OutboundFailed
    | ChannelClosed
    | EmergencyReset
    | PhysicalFailsafe
    | HeartbeatStale
    | Replaced
    | Rejected
    | AckFailed
    | PeerDisconnected
    | PeerClosed
    | ReadFailed

  /** Events that end the session whatever its state. */
  predicate Fatal(ev: Event) {
    ev == OutboundMessage(false) || ev.OutboundClosed? || (ev.FailsafeTick? && (ev.abort || ev.pause)) || ev.Cancel?
  }

  predicate Stale(last: Option<int>, now: int) {
    last.Some? && now - last.value >= HEARTBEAT_STALE_MS
  }

  /** How the handling of a line ends the loop. */
  function LineExit(accepted: bool, m: Option<WireMessage>, e: Env): Option<Exit> {
    if m.None? then None
    else if m.value.Hello? then
      if !e.wrote then Some(AckFailed) else if !Admits(e.policy, m.value) then Some(Rejected) else None
    else if !accepted then None
    else if m.value.Heartbeat? && !e.wrote then Some(AckFailed)
    else if m.value.Disconnect? then Some(PeerDisconnected)
    else None
  }

  predicate ByLine(exit: Exit) {
    exit == Rejected || exit == AckFailed || exit == PeerDisconnected
  }

  /** The last line handled is one that ends the loop like this. */
  ghost predicate LastLineEnds(c: Codec, d: Desktop, s: Session, log: seq<(seq<Byte>, Env)>, exit: Exit) {
    log != [] && var front, last := log[..|log| - 1], log[|log| - 1];
                 LineExit(Replay(c, d, s, front).accepted, c.decode(last.0), last.1) == Some(exit)
  }

  /** The event accounts for the exit, the time of the last beat being known. */
  predicate Explains(ev: Event, last: Option<int>, exit: Exit) {
    match exit
    case OutboundFailed => ev == OutboundMessage(false)
    case ChannelClosed => ev.OutboundClosed?
    case EmergencyReset => ev.FailsafeTick? && ev.abort
    case PhysicalFailsafe => ev.FailsafeTick? && !ev.abort && ev.pause
    case HeartbeatStale => ev.FailsafeTick? && !Fatal(ev) && Stale(last, ev.now)
    case Replaced => ev.Cancel?
    case AckFailed => ev.Poll? && !ev.env.wrote
    case Rejected => ev.Poll? && ev.env.wrote
    case PeerDisconnected => ev.Poll?
    case PeerClosed => ev.Poll?
    case ReadFailed => ev.Poll?
  }

  /** The event that ended the loop, none before it being fatal. */
  ghost predicate Explained(events: seq<Event>, last: Option<int>, exit: Exit) {
    exists i :: 0 <= i < |events| && Explains(events[i], last, exit) && forall j | 0 <= j < i :: !Fatal(events[j])
  }

  function Brings(ev: Event): seq<Byte> {
    if ev.Arrive? then ev.bytes else []
  }

  /** The network fails at some point. */
  predicate NetFails(events: seq<Event>) {
    exists i :: 0 <= i < |events| && events[i].NetFail?
  }

  predicate Ends(ev: Event) {
    ev.NetEnd? || ev.NetFail?
  }

  /** The bytes a list of events delivers: those before the end of the stream. */
  function Delivered(events: seq<Event>): seq<Byte> {
    if events == [] then []
    else Brings(events[0]) + if Ends(events[0]) then [] else Delivered(events[1..])
  }

  lemma DeliveredNext(was: seq<Byte>, events: seq<Event>, ended: bool)
    requires events != []
    ensures was + (if ended then [] else Delivered(events))
         == was + (if ended then [] else Brings(events[0]))
              + (if ended || Ends(events[0]) then [] else Delivered(events[1..]))
  {
  }

  /** After the lines consumed comes one that the reader must refuse. */
  ghost predicate BadInput(stream: seq<Byte>, consumed: seq<Byte>, eof: bool, max: nat, utf8: seq<Byte> -> bool) {
    && consumed <= stream && EndsLine(consumed)
    && exists content, end :: BadLine(content, end, stream[|consumed|..], eof, max, utf8)
  }

  lemma BadInputLater(stream: seq<Byte>, later: seq<Byte>, consumed: seq<Byte>, eof: bool, max: nat, utf8: seq<Byte> -> bool)
    requires BadInput(stream, consumed, eof, max, utf8) && (eof ==> later == [])
    ensures BadInput(stream + later, consumed, true, max, utf8)
  {
    var content, end :| BadLine(content, end, stream[|consumed|..], eof, max, utf8);
    assert (stream + later)[|consumed|..] == stream[|consumed|..] + later;
    assert BadLine(content, end, (stream + later)[|consumed|..], true, max, utf8);
  }

  /** The log holds the lines of the stream, CR stripped. */
  ghost predicate LinesOf(log: seq<(seq<Byte>, Env)>, lines: seq<seq<Byte>>) {
    |log| == |lines| && forall i | 0 <= i < |log| :: log[i].0 == StripCr(lines[i])
  }

  lemma LineExplains(accepted: bool, m: Option<WireMessage>, e: Env, last: Option<int>)
    ensures var exit := LineExit(accepted, m, e);
            exit.Some? ==> Explains(Poll(e), last, exit.value) && exit != Some(PeerClosed) && exit != Some(ReadFailed)
  {
  }

  lemma LogGrows(log: seq<(seq<Byte>, Env)>, consumed: seq<Byte>, text: seq<Byte>, e: Env, content: seq<Byte>, end: seq<Byte>)
    requires LinesOf(log, Split(consumed)) && EndsLine(consumed)
    requires text == StripCr(content) && OneLine(content) && (end == [NEWLINE] || (end == [] && content != []))
    ensures LinesOf(log + [(text, e)], Split(consumed + (content + end)))
  {
    SplitAppend(consumed, content, end);
  }

  class ReceiverSession {
    const codec: Codec
    const desktop: Desktop
    const reader: Reader
    var accepted: bool
    var heldKeys: seq<Key>
    var heldButtons: seq<string>
    var lastHeartbeat: Option<int>
    var open: bool
    var keysDown: set<OsKey>
    var buttonsDown: set<OsButton>
    var cursor: Point
    var trace: seq<(WireMessage, Point)>
    /** The lines handled so far, and the bytes they came from. */
    ghost var log: seq<(seq<Byte>, Env)>
    ghost var consumed: seq<Byte>
    ghost var delivered: seq<Byte>
    /** What is known of every environment choice of this session. */
    ghost const allowed: Env -> bool

    ghost function State(): Session
      reads this
    {
      Session(accepted, open, heldKeys, heldButtons, keysDown, buttonsDown, cursor, trace)
    }

    ghost predicate Valid()
      reads this, reader
    {
      && reader.Valid() && reader.utf8 == codec.utf8
      && (accepted ==> lastHeartbeat.Some?)
      && consumed <= delivered && LinesOf(log, Split(consumed))
      && forall i | 0 <= i < |log| :: allowed(log[i].1)
    }

    /** At most one more line was handled, and only it changed the session. */
    ghost predicate Moved(s: Session, beat: Option<int>, handled: seq<(seq<Byte>, Env)>)
      reads this
    {
      if log == handled then State() == s && lastHeartbeat == beat
      else
        |log| == |handled| + 1 && log[..|handled|] == handled
        && State() == ExecLine(codec, desktop, s, log[|handled|].0, log[|handled|].1)
        && lastHeartbeat == BeatAfter(beat, s.accepted, codec.decode(log[|handled|].0), log[|handled|].1.now)
    }

    /** An exit owed to a line is the one that the line handled last calls for. */
    ghost predicate Accounts(accepted: bool, handled: seq<(seq<Byte>, Env)>, exit: Option<Exit>)
      reads this
    {
      exit.Some? && ByLine(exit.value) ==>
        |log| == |handled| + 1 && LineExit(accepted, codec.decode(log[|handled|].0), log[|handled|].1) == exit
    }

    /** While the loop runs nothing that arrived is lost. */
    ghost predicate Running()
      reads this, reader
    {
      && Valid() && open && delivered == consumed + reader.Unread()
      && (EndsLine(consumed) || (reader.eof && reader.Unread() == []))
    }

    constructor (codec: Codec, desktop: Desktop, max: nat, cursor: Point, ghost allowed: Env -> bool)
      ensures Running() && fresh(reader) && reader.max == max && !reader.eof && !reader.failed
      ensures this.codec == codec && this.desktop == desktop && this.allowed == allowed
      ensures log == [] && delivered == [] && State() == NewSession(cursor) && lastHeartbeat == None
    {
      this.codec, this.desktop := codec, desktop;
      accepted, heldKeys, heldButtons, lastHeartbeat, open := false, [], [], None, true;
      keysDown, buttonsDown, this.cursor, trace := {}, {}, cursor, [];
      log, consumed, delivered, this.allowed := [], [], [], allowed;
      reader := new Reader(max, codec.utf8);
      new;
      assert Split([]) == [] && EndsLine([]);
    }

    method Perform(m: WireMessage)
      modifies this`trace, this`cursor
      ensures State() == Performed(desktop, old(State()), m)
    {
      trace := trace + [(m, cursor)];
      cursor := desktop.act(cursor, m);
    }

    method HandleKey(m: WireMessage, e: Env)
      requires m.KeyboardKey? && accepted && open
      modifies this`heldKeys, this`keysDown, this`trace, this`cursor
      ensures State() == Exec(desktop, old(State()), m, e.policy, e.injected)
    {
      var k := Key(m.vk, m.scanCode, m.extended);
      heldKeys := Track(heldKeys, k, m.down);
      if e.injected {
        keysDown := Press(keysDown, OsKeyOf(k), m.down);
        Perform(m);
      }
    }

    method HandleButton(m: WireMessage, e: Env)
      requires m.MouseButton? && accepted && open
      modifies this`heldButtons, this`buttonsDown, this`trace, this`cursor
      ensures State() == Exec(desktop, old(State()), m, e.policy, e.injected)
    {
      heldButtons := Track(heldButtons, m.button, m.down);
      if e.injected {
        buttonsDown := Press(buttonsDown, OsButtonOf(m.button), m.down);
        Perform(m);
      }
    }

    /** A Hello opens the session or ends it; it arms the heartbeat watchdog. */
    method HandleHello(m: WireMessage, e: Env) returns (exit: Option<Exit>)
      requires m.Hello? && open
      modifies this`accepted, this`open, this`lastHeartbeat
      ensures State() == Exec(desktop, old(State()), m, e.policy, e.injected)
      ensures lastHeartbeat == Some(e.now) && (exit.None? ==> open)
      ensures exit == if !e.wrote then Some(AckFailed) else if !Admits(e.policy, m) then Some(Rejected) else None
    {
      lastHeartbeat := Some(e.now);
      accepted := e.policy.accepting && HelloAuthorized(e.policy.token, m.authToken);
      open := accepted;
      exit := if !e.wrote then Some(AckFailed) else if !accepted then Some(Rejected) else None;
    }

    /** A message after the handshake. */
    method HandleAccepted(m: WireMessage, e: Env) returns (exit: Option<Exit>)
      requires !m.Hello? && accepted && open && lastHeartbeat.Some?
      modifies this`heldKeys, this`heldButtons, this`lastHeartbeat, this`open,
               this`keysDown, this`buttonsDown, this`cursor, this`trace
      ensures State() == Exec(desktop, old(State()), m, e.policy, e.injected)
      ensures lastHeartbeat == if m.Heartbeat? then Some(e.now) else old(lastHeartbeat)
      ensures exit == if m.Heartbeat? && !e.wrote then Some(AckFailed) else if m.Disconnect? then Some(PeerDisconnected) else None
      ensures exit.None? ==> open
    {
      exit := None;
      match m
      case MouseSetPosition(x, y) =>
        if e.injected {
          cursor := desktop.place(x, y);
        }
      case KeyboardKey(_, _, _, _) => HandleKey(m, e);
      case MouseButton(_, _) => HandleButton(m, e);
      case KeyboardText(_) => if e.injected { Perform(m); }
      case MouseWheel(_, _) => if e.injected { Perform(m); }
      case MouseMove(_, _) => if e.injected { Perform(m); }
      case ClipboardText(_) => if e.injected { Perform(m); }
      case ClipboardImage(_) => if e.injected { Perform(m); }
      case Heartbeat(_, _) =>
        lastHeartbeat := Some(e.now);
        if !e.wrote {
          exit := Some(AckFailed);
        }
      case Disconnect(_) =>
        open := false;
        exit := Some(PeerDisconnected);
      case _ =>
    }

    /** One line; the result says why the loop ends, if it does. */
    method HandleLine(text: seq<Byte>, e: Env, ghost content: seq<Byte>, ghost end: seq<Byte>) returns (exit: Option<Exit>)
      requires Valid() && open && allowed(e) && EndsLine(consumed) && consumed + (content + end) <= delivered
      requires text == StripCr(content) && OneLine(content) && (end == [NEWLINE] || (end == [] && content != []))
      modifies this
      ensures Valid()
      ensures log == old(log) + [(text, e)] && State() == ExecLine(codec, desktop, old(State()), text, e)
      ensures consumed == old(consumed) + (content + end) && delivered == old(delivered)
      ensures lastHeartbeat == BeatAfter(old(lastHeartbeat), old(accepted), codec.decode(text), e.now)
      ensures exit == LineExit(old(accepted), codec.decode(text), e) && (exit.None? ==> open)
    {
      LogGrows(log, consumed, text, e, content, end);
      log := log + [(text, e)];
      consumed := consumed + (content + end);
      exit := HandleText(text, e);
    }

    method HandleText(text: seq<Byte>, e: Env) returns (exit: Option<Exit>)
      requires open && (accepted ==> lastHeartbeat.Some?)
      modifies this`accepted, this`heldKeys, this`heldButtons, this`lastHeartbeat, this`open,
               this`keysDown, this`buttonsDown, this`cursor, this`trace
      ensures State() == ExecLine(codec, desktop, old(State()), text, e)
      ensures accepted ==> lastHeartbeat.Some?
      ensures lastHeartbeat == BeatAfter(old(lastHeartbeat), old(accepted), codec.decode(text), e.now)
      ensures exit == LineExit(old(accepted), codec.decode(text), e) && (exit.None? ==> open)
    {
      var m := codec.decode(text);
      if m.None? {
        exit := None;
      } else if m.value.Hello? {
        exit := HandleHello(m.value, e);
      } else if !accepted {
        exit := None;
      } else {
        exit := HandleAccepted(m.value, e);
      }
    }

    /** One poll of the reader, seen from the session. */
    method ReadNext() returns (r: ReadResult, ghost content: seq<Byte>, ghost end: seq<Byte>)
      requires Running()
      modifies reader`buf, reader`chunks
      ensures Valid()
      ensures r.Pending? ==> Running()
      ensures r.EndOfStream? ==> consumed == delivered && reader.eof
      ensures r.ReadError? ==> reader.failed
      ensures r.Line? ==>
        && delivered == consumed + (content + end) + reader.Unread() && EndsLine(consumed)
        && r.text == StripCr(content) && OneLine(content)
        && (end == [NEWLINE] || (end == [] && content != [] && reader.eof && reader.Unread() == []))
      ensures r.TooLong? || r.NotUtf8? ==> BadInput(delivered, consumed, reader.eof, reader.max, codec.utf8)
    {
      ghost var u := reader.Unread();
      r, content, end := PollCut(reader);
      if r.TooLong? || r.NotUtf8? {
        assert delivered[|consumed|..] == u;
      }
    }

    /** The reader produced a line. */
    method TakeLine(text: seq<Byte>, e: Env, ghost content: seq<Byte>, ghost end: seq<Byte>) returns (exit: Option<Exit>)
      requires Valid() && open && allowed(e) && EndsLine(consumed)
      requires delivered == consumed + (content + end) + reader.Unread()
      requires text == StripCr(content) && OneLine(content)
      requires end == [NEWLINE] || (end == [] && content != [] && reader.eof && reader.Unread() == [])
      modifies this
      ensures Valid() && delivered == old(delivered) && Moved(old(State()), old(lastHeartbeat), old(log))
      ensures exit == LineExit(old(accepted), codec.decode(text), e) && log == old(log) + [(text, e)]
      ensures exit.Some? ==> Explains(Poll(e), lastHeartbeat, exit.value) && exit != Some(PeerClosed) && exit != Some(ReadFailed)
      ensures exit.None? ==> Running()
    {
      exit := HandleLine(text, e, content, end);
      assert end == [NEWLINE] ==> EndsLine(old(consumed) + (content + end));
      LineExplains(old(accepted), codec.decode(text), e, lastHeartbeat);
    }

    method PollRead(e: Env) returns (exit: Option<Exit>)
      requires Running() && allowed(e)
      modifies this, reader`buf, reader`chunks
      ensures Valid() && delivered == old(delivered) && Moved(old(State()), old(lastHeartbeat), old(log))
      ensures exit.None? ==> Running()
      ensures exit.Some? ==> Explains(Poll(e), lastHeartbeat, exit.value)
      ensures Accounts(old(accepted), old(log), exit)
      ensures exit == Some(PeerClosed) ==> consumed == delivered && reader.eof && open
      ensures exit == Some(ReadFailed) ==> reader.failed || BadInput(delivered, consumed, reader.eof, reader.max, codec.utf8)
    {
      var r, content, end := ReadNext();
      if r.Line? {
        exit := TakeLine(r.text, e, content, end);
      } else if r.Pending? {
        exit := None;
      } else if r.EndOfStream? {
        exit := Some(PeerClosed);
      } else {
        exit := Some(ReadFailed);
      }
    }

    /** The network side of a step, and what is known of it. */
    method Network(ev: Event)
      requires Running() && (ev.Arrive? || ev.NetEnd? || ev.NetFail?)
      modifies this`delivered, reader
      ensures Running()
      ensures delivered == old(delivered) + if old(Ended()) then [] else Brings(ev)
      ensures Ended() <==> old(Ended()) || Ends(ev)
      ensures reader.failed ==> old(reader.failed) || ev.NetFail?
    {
      if !Ended() {
        match ev
        case Arrive(bytes) =>
          assert delivered + bytes == consumed + (reader.Unread() + bytes);
          reader.Arrive(bytes);
          delivered := delivered + bytes;
        case NetEnd => reader.eof := true;
        case NetFail => reader.failed := true;
      }
    }

    predicate Ended()
      reads reader
    {
      reader.eof || reader.failed
    }

    /** The other branches of the loop. */
    method Timers(ev: Event) returns (exit: Option<Exit>)
      ensures exit == if ev == OutboundMessage(false) then Some(OutboundFailed)
                      else if ev.OutboundClosed? then Some(ChannelClosed)
                      else if ev.Cancel? then Some(Replaced)
                      else if !ev.FailsafeTick? then None
                      else if ev.abort then Some(EmergencyReset)
                      else if ev.pause then Some(PhysicalFailsafe)
                      else if lastHeartbeat.Some? && ev.now - lastHeartbeat.value >= 8000 then Some(HeartbeatStale)
                      else None
      ensures exit.None? <==> !Fatal(ev) && !(ev.FailsafeTick? && Stale(lastHeartbeat, ev.now))
      ensures exit.Some? ==> Explains(ev, lastHeartbeat, exit.value) && exit != Some(PeerClosed) && exit != Some(ReadFailed)
      ensures exit.Some? ==> !ByLine(exit.value)
    {
      exit := None;
      match ev
      case OutboundMessage(wrote) => exit := if wrote then None else Some(OutboundFailed);
      case OutboundClosed => exit := Some(ChannelClosed);
      case FailsafeTick(now, abort, pause) =>
        if abort {
          exit := Some(EmergencyReset);
        } else if pause {
          exit := Some(PhysicalFailsafe);
        } else if Stale(lastHeartbeat, now) {
          exit := Some(HeartbeatStale);
        }
      case Cancel => exit := Some(Replaced);
      case _ =>
    }

    /** One turn of the loop. */
    method Step(ev: Event) returns (exit: Option<Exit>)
      requires Running() && (ev.Poll? ==> allowed(ev.env))
      modifies this, reader
      ensures Valid() && Moved(old(State()), old(lastHeartbeat), old(log))
      ensures delivered == old(delivered) + if old(Ended()) then [] else Brings(ev)
      ensures Ended() <==> old(Ended()) || Ends(ev)
      ensures exit.None? ==> Running()
      ensures !ev.Poll? ==> (exit.None? <==> !Fatal(ev) && !(ev.FailsafeTick? && Stale(lastHeartbeat, ev.now)))
      ensures exit.Some? ==> Explains(ev, lastHeartbeat, exit.value)
      ensures Accounts(old(accepted), old(log), exit)
      ensures exit == Some(PeerClosed) ==> consumed == delivered && Ended() && open
      ensures reader.failed ==> old(reader.failed) || ev.NetFail?
      ensures reader.eof ==> Ended()
      ensures exit == Some(ReadFailed) ==> reader.failed || BadInput(delivered, consumed, reader.eof, reader.max, codec.utf8)
    {
      exit := None;
      if ev.Poll? {
        exit := PollRead(ev.env);
      } else if ev.Arrive? || ev.NetEnd? || ev.NetFail? {
        Network(ev);
      } else {
        exit := Timers(ev);
      }
    }

    /** Between two turns: nothing delivered is forgotten, and the state is the replay of the log. */
    ghost predicate Upto(events: seq<Event>, i: nat, start: Session)
      requires i <= |events|
      reads this, reader
    {
      && Running() && State() == Replay(codec, desktop, start, log) && lastHeartbeat == LastBeat(codec, desktop, start, log)
      && (forall j | 0 <= j < i :: !Fatal(events[j]))
      && Delivered(events) == delivered + (if Ended() then [] else Delivered(events[i..]))
      && (reader.failed ==> NetFails(events))
    }

    /** Why the loop may end like this, and what was handled then. */
    ghost predicate EndsWith(events: seq<Event>, start: Session, exit: Exit)
      reads this, reader
    {
      && Valid() && State() == Replay(codec, desktop, start, log) && consumed <= Delivered(events)
      && Explained(events, LastBeat(codec, desktop, start, log), exit)
      && (ByLine(exit) ==> LastLineEnds(codec, desktop, start, log, exit))
      && (exit == PeerClosed ==> consumed == Delivered(events) && open)
      && (exit == ReadFailed ==> NetFails(events) || BadInput(Delivered(events), consumed, true, reader.max, codec.utf8))
    }

    method Turn(events: seq<Event>, i: nat, ghost start: Session) returns (exit: Option<Exit>)
      requires i < |events| && Upto(events, i, start) && (events[i].Poll? ==> allowed(events[i].env))
      modifies this, reader
      ensures exit.None? ==> Upto(events, i + 1, start)
      ensures exit.Some? ==> EndsWith(events, start, exit.value)
    {
      DeliveredNext(delivered, events[i..], Ended());
      assert events[i..][1..] == events[i + 1..];
      ghost var before := log;
      exit := Step(events[i]);
      ReplayMoved(start, before);
      if exit.Some? {
        TurnEnds(events, i, start, exit.value);
      }
    }

    lemma TurnEnds(events: seq<Event>, i: nat, start: Session, exit: Exit)
      requires i < |events| && Valid() && State() == Replay(codec, desktop, start, log)
      requires lastHeartbeat == LastBeat(codec, desktop, start, log)
      requires (forall j | 0 <= j < i :: !Fatal(events[j])) && Explains(events[i], lastHeartbeat, exit)
      requires ByLine(exit) ==> LastLineEnds(codec, desktop, start, log, exit)
      requires Delivered(events) == delivered + (if Ended() then [] else Delivered(events[i + 1..]))
      requires exit == PeerClosed ==> consumed == delivered && Ended() && open
      requires (reader.failed ==> NetFails(events)) && (reader.eof ==> Ended())
      requires exit == ReadFailed ==> reader.failed || BadInput(delivered, consumed, reader.eof, reader.max, codec.utf8)
      ensures EndsWith(events, start, exit)
    {
      if exit == ReadFailed && !reader.failed {
        BadInputLater(delivered, if Ended() then [] else Delivered(events[i + 1..]), consumed, reader.eof, reader.max, codec.utf8);
      }
    }

    /**
     The loop over any events until one of them ends it. The lines handled come
     from a prefix of what was delivered, all of it when the peer closed.
     */
    method Loop(events: seq<Event>) returns (exit: Option<Exit>)
      requires Running() && !Ended() && delivered == [] && log == [] && lastHeartbeat == None
      requires forall i | 0 <= i < |events| :: events[i].Poll? ==> allowed(events[i].env)
      modifies this, reader
      ensures Valid() && consumed <= Delivered(events)
      ensures State() == Replay(codec, desktop, old(State()), log)
      ensures exit.None? ==> forall ev | ev in events :: !Fatal(ev)
      ensures exit.Some? ==> Explained(events, LastBeat(codec, desktop, old(State()), log), exit.value)
      ensures exit.Some? && ByLine(exit.value) ==> LastLineEnds(codec, desktop, old(State()), log, exit.value)
      ensures exit == Some(PeerClosed) ==> consumed == Delivered(events) && open
      ensures exit == Some(ReadFailed) ==>
        NetFails(events) || BadInput(Delivered(events), consumed, true, reader.max, codec.utf8)
    {
      exit := None;
      var i := 0;
      assert events[0..] == events;
      while i < |events|
        invariant 0 <= i <= |events| && exit.None? && Upto(events, i, old(State()))
      {
        exit := Turn(events, i, old(State()));
        if exit.Some? {
          return;
        }
        i := i + 1;
      }
    }

    lemma ReplayMoved(start: Session, before: seq<(seq<Byte>, Env)>)
      requires Moved(Replay(codec, desktop, start, before), LastBeat(codec, desktop, start, before), before)
      ensures State() == Replay(codec, desktop, start, log) && lastHeartbeat == LastBeat(codec, desktop, start, log)
    {
    }

    /** Everything still held is released on the way out. */
    method ReleaseHeld()
      modifies this`heldKeys, this`heldButtons, this`keysDown, this`buttonsDown
      ensures heldKeys == [] && heldButtons == []
      ensures keysDown == ReleaseAll(old(keysDown), old(heldKeys), OsKeyOf)
      ensures buttonsDown == ReleaseAll(old(buttonsDown), old(heldButtons), OsButtonOf)
    {
      while heldKeys != []
        invariant ReleaseAll(keysDown, heldKeys, OsKeyOf) == ReleaseAll(old(keysDown), old(heldKeys), OsKeyOf)
        invariant heldButtons == old(heldButtons) && buttonsDown == old(buttonsDown)
        decreases |heldKeys|
      {
        keysDown := Press(keysDown, OsKeyOf(heldKeys[0]), false);
        heldKeys := heldKeys[1..];
      }
      while heldButtons != []
        invariant heldKeys == [] && keysDown == ReleaseAll(old(keysDown), old(heldKeys), OsKeyOf)
        invariant ReleaseAll(buttonsDown, heldButtons, OsButtonOf) == ReleaseAll(old(buttonsDown), old(heldButtons), OsButtonOf)
        decreases |heldButtons|
      {
        buttonsDown := Press(buttonsDown, OsButtonOf(heldButtons[0]), false);
        heldButtons := heldButtons[1..];
      }
    }

    method LeaveNothing(ghost lost: Stuck)
      requires Covered(State(), lost)
      modifies this`heldKeys, this`heldButtons, this`keysDown, this`buttonsDown
      ensures heldKeys == [] && heldButtons == []
      ensures keysDown <= lost.keys && buttonsDown <= lost.buttons
    {
      ReleaseAllEmpties(keysDown, heldKeys, OsKeyOf, lost.keys);
      ReleaseAllEmpties(buttonsDown, heldButtons, OsButtonOf, lost.buttons);
      ReleaseHeld();
    }
  }

  /**
   A whole session, from connection to exit. For any events and any way of
   ending, a key or button of this session stays down only if the last that was
   heard of it was a release that could not be injected; and what was carried out
   is the replay of the lines handled.
   */
  method RunSession(codec: Codec, desktop: Desktop, max: nat, cursor: Point, events: seq<Event>, ghost allowed: Env -> bool)
    returns (exit: Option<Exit>, end: Session, ghost log: seq<(seq<Byte>, Env)>, ghost consumed: seq<Byte>)
    requires forall i | 0 <= i < |events| :: events[i].Poll? ==> allowed(events[i].env)
    ensures forall i | 0 <= i < |log| :: allowed(log[i].1)
    ensures var lost := StuckIn(codec, desktop, NewSession(cursor), log);
            exit.Some? ==> end.keysDown <= lost.keys && end.buttonsDown <= lost.buttons
    ensures exit.Some? ==> end.heldKeys == [] && end.heldButtons == []
    ensures var s := Replay(codec, desktop, NewSession(cursor), log);
            && end.trace == s.trace && end.cursor == s.cursor && end.accepted == s.accepted && end.open == s.open
            && (exit.None? ==> end == s)
    ensures consumed <= Delivered(events) && LinesOf(log, Split(consumed))
    ensures exit.None? ==> forall ev | ev in events :: !Fatal(ev)
    ensures exit.Some? ==> Explained(events, LastBeat(codec, desktop, NewSession(cursor), log), exit.value)
    ensures exit.Some? && ByLine(exit.value) ==> LastLineEnds(codec, desktop, NewSession(cursor), log, exit.value)
    ensures exit == Some(PeerClosed) ==> consumed == Delivered(events) && end.open
    ensures exit == Some(ReadFailed) ==> NetFails(events) || BadInput(Delivered(events), consumed, true, max, codec.utf8)
  {
    var r := new ReceiverSession(codec, desktop, max, cursor, allowed);
    exit := r.Loop(events);
    log, consumed := r.log, r.consumed;
    if exit.Some? {
      ghost var lost := StuckIn(codec, desktop, NewSession(cursor), log);
      ReplayCovered(codec, desktop, cursor, log);
      r.LeaveNothing(lost);
    }
    end := Session(r.accepted, r.open, r.heldKeys, r.heldButtons, r.keysDown, r.buttonsDown, r.cursor, r.trace);
  }
}
