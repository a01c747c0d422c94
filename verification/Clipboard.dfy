/**
 Clipboard synchronisation of a hub and its clients: the echo guard
 (crates/tailkvm-win32/src/clipboard.rs), the watcher and the fan-out
 (apps/tailkvm-ui/src-tauri/src/clipboard_sync.rs), and the application of
 content from a peer (apps/tailkvm-ui/src-tauri/src/session/controller.rs and
 receiver.rs). The watcher thread reads the clipboard before it asks the guard,
 and a session marks the guard before it sets the clipboard; nothing holds the
 two together, so these are four separate moves that may interleave.
 */
module Clipboard {
  import opened Basics

  const MAX_TEXT_CHARS := 100_000

  datatype Content = Text(text: string) | Image(dib: seq<nat>)

  type Hash = Content -> nat

  /** What the watcher sends for a content. */
  function Normal(c: Content): Content {
    match c
    case Text(s) => Text(s[..Min(|s|, MAX_TEXT_CHARS)])
    case Image(_) => c
  }

  lemma NormalIdempotent(c: Content)
    ensures Normal(Normal(c)) == Normal(c)
  {
  }

  /** Text is cut to its first 100,000 characters; an image is sent whole. */
  lemma NormalIs(c: Content)
    ensures c.Image? ==> Normal(c) == c
    ensures c.Text? ==> Normal(c).Text? && Normal(c).text <= c.text && |Normal(c).text| <= 100_000
    ensures c.Text? ==> (Normal(c) == c <==> |c.text| <= 100_000) && (|c.text| > 100_000 ==> |Normal(c).text| == 100_000)
  {
  }

  predicate Blank(c: Content) {
    c == Text("")
  }

  // ----- one screen -----

  /** A message on its way to or from client `client`. */
  datatype Flight = Flight(client: nat, content: Content)

  function Removed(fs: seq<Flight>, i: nat): seq<Flight>
    requires i < |fs|
  {
    fs[..i] + fs[i + 1..]
  }

  lemma RemovedKeeps(fs: seq<Flight>, i: nat)
    requires i < |fs|
    ensures fs[i] in fs && |Removed(fs, i)| == |fs| - 1
    ensures forall f | f in Removed(fs, i) :: f in fs
    ensures forall f | f in fs && f != fs[i] :: f in Removed(fs, i)
  {
  }

  /** What the watcher has read; `late` if content from a peer was marked since, or was still being set. */
  datatype Reading = Reading(content: Content, late: bool)

  /**
   The clipboard, the remembered hash, the change notices not yet taken, what the
   watcher has read but not checked, and what sessions have marked but not set.
   */
  datatype Node = Node(clip: Content, guard: Option<nat>, pending: nat, reading: Option<Reading>, applying: seq<Flight>)

  /** A node at rest. */
  function Resting(clip: Content, guard: Option<nat>): Node {
    Node(clip, guard, 0, None, [])
  }

  function Copied(n: Node, c: Content): Node {
    n.(clip := c, pending := n.pending + 1)
  }

  /** The watcher takes a notice and reads the clipboard, which may fail. */
  function ReadBy(n: Node, ok: bool): Node
    requires n.pending > 0 && n.reading.None?
  {
    n.(pending := n.pending - 1, reading := if ok then Some(Reading(Normal(n.clip), n.applying != [])) else None)
  }

  /** The guard would let the content through. */
  predicate News(hash: Hash, guard: Option<nat>, c: Content) {
    !Blank(c) && guard != Some(hash(c))
  }

  /** The watcher asks the guard: the node afterwards, and what it broadcasts. */
  function Checked(hash: Hash, n: Node): (Node, Option<Content>)
    requires n.reading.Some?
  {
    var c, done := n.reading.value.content, n.(reading := None);
    if News(hash, n.guard, c) then (done.(guard := Some(hash(c))), Some(c)) else (done, None)
  }

  /** A session remembers what it is about to set. */
  function MarkedBy(hash: Hash, n: Node, f: Flight): Node {
    n.(guard := Some(hash(f.content)),
       applying := n.applying + [f],
       reading := if n.reading.Some? then Some(n.reading.value.(late := true)) else None)
  }

  /** It sets the clipboard, which may fail. */
  function SetBy(n: Node, i: nat, ok: bool): Node
    requires i < |n.applying|
  {
    var after := n.(applying := Removed(n.applying, i));
    if ok then after.(clip := n.applying[i].content, pending := n.pending + 1) else after
  }

  class ClipboardLoopGuard {
    const hash: Hash
    var lastHash: Option<nat>

    constructor (hash: Hash)
      ensures this.hash == hash && lastHash == None
    {
      this.hash, lastHash := hash, None;
    }

    method ShouldBroadcast(c: Content) returns (isNew: bool)
      modifies this
      ensures isNew <==> old(lastHash) != Some(hash(c))
      ensures lastHash == Some(hash(c))
    {
      var h := hash(c);
      if lastHash == Some(h) {
        isNew := false;
      } else {
        lastHash := Some(h);
        isNew := true;
      }
    }

    method MarkApplied(c: Content)
      modifies this
      ensures lastHash == Some(hash(c))
    {
      lastHash := Some(hash(c));
    }
  }

  /** A screen with its clipboard, its watcher and the sessions applying content to it. */
  class Screen {
    const guard: ClipboardLoopGuard
    var clip: Content
    var pending: nat
    var reading: Option<Reading>
    var applying: seq<Flight>

    ghost function State(): Node
      reads this, guard
    {
      Node(clip, guard.lastHash, pending, reading, applying)
    }

    constructor (hash: Hash, clip: Content)
      ensures fresh(guard) && guard.hash == hash && State() == Resting(clip, None)
    {
      this.clip, pending, reading, applying := clip, 0, None, [];
      guard := new ClipboardLoopGuard(hash);
    }

    method Mark(f: Flight)
      modifies this, guard
      ensures State() == MarkedBy(guard.hash, old(State()), f)
    {
      guard.MarkApplied(f.content);
      applying := applying + [f];
      if reading.Some? {
        reading := Some(reading.value.(late := true));
      }
    }

    method Set(i: nat, ok: bool)
      requires i < |applying|
      modifies this
      ensures State() == SetBy(old(State()), i, ok)
    {
      if ok {
        clip, pending := applying[i].content, pending + 1;
      }
      applying := Removed(applying, i);
    }

    method Read(ok: bool)
      requires pending > 0 && reading.None?
      modifies this
      ensures State() == ReadBy(old(State()), ok)
    {
      pending := pending - 1;
      if ok {
        reading := Some(Reading(Normal(clip), applying != []));
      }
    }

    method Check() returns (out: Option<Content>)
      requires reading.Some?
      modifies this, guard
      ensures (State(), out) == Checked(guard.hash, old(State()))
    {
      out := None;
      var c := reading.value.content;
      if !Blank(c) {
        var send := guard.ShouldBroadcast(c);
        if send {
          out := Some(c);
        }
      }
      reading := None;
    }
  }

  /**
   What a mark does to a notice that would have been recognised as an echo,
   whether it was read before the mark or is read after it: it is broadcast
   exactly if there is text and the marked content hashes differently.
   */
  lemma EchoedIff(hash: Hash, n: Node, f: Flight)
    requires n.pending > 0 && n.reading.None? && n.guard == Some(hash(Normal(n.clip)))
    ensures Checked(hash, ReadBy(n, true)).1 == None
    ensures Checked(hash, ReadBy(MarkedBy(hash, n, f), true)).1
         == Checked(hash, MarkedBy(hash, ReadBy(n, true), f)).1
         == if !Blank(Normal(n.clip)) && hash(f.content) != hash(Normal(n.clip)) then Some(Normal(n.clip)) else None
  {
  }

  // ----- fan-out -----

  /** To every live session but one, in order. */
  function FanOut(live: seq<bool>, except: Option<nat>, c: Content): seq<Flight> {
    if live == [] then []
    else
      var last := |live| - 1;
      FanOut(live[..last], except, c) + if live[last] && except != Some(last) then [Flight(last, c)] else []
  }

  /** The loop over the sessions, shared by broadcast and relay. */
  method SendToSessions(live: seq<bool>, except: Option<nat>, c: Content) returns (flights: seq<Flight>, sent: nat)
    ensures flights == FanOut(live, except, c) && sent == |flights|
  {
    flights, sent := [], 0;
    for i := 0 to |live|
      invariant flights == FanOut(live[..i], except, c) && sent == |flights|
    {
      assert live[..i + 1][..i] == live[..i];
      if except == Some(i) {
        continue;
      }
      if live[i] {
        flights, sent := flights + [Flight(i, c)], sent + 1;
      }
    }
    assert live[..|live|] == live;
  }

  lemma {:induction false} FanOutReaches(live: seq<bool>, except: Option<nat>, c: Content)
    ensures |FanOut(live, except, c)| <= |live|
    ensures except.Some? && except.value < |live| ==> |FanOut(live, except, c)| <= |live| - 1
    ensures forall f | f in FanOut(live, except, c) :: f.client < |live| && f.content == c && except != Some(f.client)
    ensures forall k | 0 <= k < |live| && live[k] && except != Some(k) :: Flight(k, c) in FanOut(live, except, c)
  {
    if live != [] {
      FanOutReaches(live[..|live| - 1], except, c);
    }
  }

  /** The channels of a session without a name: to a receiver, or to a controller. */
  datatype Slot = ControllerSlot | ReceiverSlot

  /** A broadcast: every live session once, and each unnamed channel that is open. */
  method Broadcast(live: seq<bool>, open: set<Slot>, c: Content)
    returns (flights: seq<Flight>, direct: seq<Slot>, sent: nat)
    ensures flights == FanOut(live, None, c)
    ensures forall slot :: multiset(direct)[slot] == if slot in open then 1 else 0
    ensures sent == |flights| + |direct|
  {
    flights, sent := SendToSessions(live, None, c);
    direct := [];
    var slots := [ControllerSlot, ReceiverSlot];
    for i := 0 to |slots|
      invariant forall slot :: multiset(direct)[slot] == if slot in open && slot in slots[..i] then 1 else 0
      invariant sent == |flights| + |direct|
    {
      assert slots[..i + 1] == slots[..i] + [slots[i]] && slots[i] !in slots[..i];
      if slots[i] in open {
        direct, sent := direct + [slots[i]], sent + 1;
      }
    }
    assert slots[..|slots|] == slots;
    forall slot: Slot ensures slot in slots {
      assert slot == slots[if slot.ControllerSlot? then 0 else 1];
    }
  }

  // ----- the star -----

  datatype Tally = Tally(
    copies: nat,
    looks: nat,
    checks: nat,
    broadcasts: nat,
    marks: nat,
    sets: nat,
    losses: nat,
    interposed: nat,
    overtaken: nat)

  /** Node 0 is the hub, node k + 1 is client k. */
  datatype Star = Star(nodes: seq<Node>, up: seq<Flight>, down: seq<Flight>, tally: Tally) {
    function Clients(): nat
      requires nodes != []
    {
      |nodes| - 1
    }

    function With(i: nat, n: Node): Star
      requires i < |nodes|
    {
      this.(nodes := nodes[i := n])
    }
  }

  /** `live` and `relayed` say which sessions of the mover exist. */
  datatype Move =
    | Copy(node: nat, content: Content)
    | Read(node: nat, ok: bool)
    | Check(node: nat, live: seq<bool>)
    | MarkUp(index: nat)
    | MarkDown(index: nat)
    | Set(node: nat, index: nat, ok: bool, relayed: seq<bool>)
    | LoseUp(index: nat)
    | LoseDown(index: nat)

  predicate FlightShaped(clients: nat, f: Flight) {
    f.client < clients && Normal(f.content) == f.content
  }

  predicate NodeShaped(clients: nat, k: nat, n: Node) {
    && (forall f | f in n.applying :: FlightShaped(clients, f) && (k == 0 || f.client == k - 1))
    && (n.reading.Some? ==>
          Normal(n.reading.value.content) == n.reading.value.content && (n.applying != [] ==> n.reading.value.late))
  }

  ghost predicate Shaped(s: Star) {
    && s.nodes != []
    && (forall k | 0 <= k < |s.nodes| :: NodeShaped(s.Clients(), k, s.nodes[k]))
    && (forall f | f in s.up :: FlightShaped(s.Clients(), f))
    && (forall f | f in s.down :: FlightShaped(s.Clients(), f))
  }

  /** The session of a client handles one message at a time. */
  predicate Idle(n: Node, client: nat) {
    forall f | f in n.applying :: f.client != client
  }

  predicate Enabled(s: Star, m: Move)
    requires s.nodes != []
  {
    match m
    case Copy(i, _) => i < |s.nodes|
    case Read(i, _) => i < |s.nodes| && s.nodes[i].pending > 0 && s.nodes[i].reading.None?
    case Check(i, live) => i < |s.nodes| && s.nodes[i].reading.Some? && |live| == s.Clients()
    case MarkUp(i) => i < |s.up| && Idle(s.nodes[0], s.up[i].client)
    case MarkDown(i) => i < |s.down| && s.down[i].client < s.Clients() && Idle(s.nodes[s.down[i].client + 1], s.down[i].client)
    case Set(i, j, _, relayed) => i < |s.nodes| && j < |s.nodes[i].applying| && |relayed| == s.Clients()
    case LoseUp(i) => i < |s.up|
    case LoseDown(i) => i < |s.down|
  }

  /** Nothing is being applied, and a notice is outstanding that the guard would let through. */
  predicate Owing(hash: Hash, n: Node) {
    n.applying == [] && n.pending > 0 && News(hash, n.guard, Normal(n.clip))
  }

  function One(b: bool): nat {
    if b then 1 else 0
  }

  /** A broadcast goes from the hub to its sessions, from a client to the hub alone. */
  function Sending(s: Star, i: nat, live: seq<bool>, c: Content): Star {
    if i == 0 then s.(down := s.down + FanOut(live, None, c))
    else s.(up := s.up + if i - 1 < |live| && live[i - 1] then [Flight(i - 1, c)] else [])
  }

  /** The check comes after a mark the reading does not know of, or before what was marked is set. */
  predicate Late(n: Node) {
    n.applying != [] || (n.reading.Some? && n.reading.value.late)
  }

  function AfterCheck(hash: Hash, s: Star, i: nat, live: seq<bool>): Star
    requires i < |s.nodes| && s.nodes[i].reading.Some?
  {
    var (n, out) := Checked(hash, s.nodes[i]);
    var t, interposed := s.tally, out.Some? && Late(s.nodes[i]);
    var seen := s.With(i, n).(tally := t.(
      checks := t.checks + 1,
      broadcasts := t.broadcasts + One(out.Some?),
      interposed := t.interposed + One(interposed),
      overtaken := t.overtaken + One(interposed && Owing(hash, n))));
    if out.None? then seen else Sending(seen, i, live, out.value)
  }

  /** The hub relays what it has set to the other clients. */
  function AfterSet(hash: Hash, s: Star, i: nat, j: nat, ok: bool, relayed: seq<bool>): Star
    requires i < |s.nodes| && j < |s.nodes[i].applying|
  {
    var n, f, t := SetBy(s.nodes[i], j, ok), s.nodes[i].applying[j], s.tally;
    var set_ := s.With(i, n).(tally := t.(sets := t.sets + 1, overtaken := t.overtaken + One(Owing(hash, n))));
    if i == 0 then set_.(down := s.down + FanOut(relayed, Some(f.client), f.content)) else set_
  }

  function Moved(hash: Hash, s: Star, m: Move): Star
    requires s.nodes != [] && Enabled(s, m)
  {
    var t := s.tally;
    match m
    case Copy(i, c) => s.With(i, Copied(s.nodes[i], c)).(tally := t.(copies := t.copies + 1))
    case Read(i, ok) => s.With(i, ReadBy(s.nodes[i], ok)).(tally := t.(looks := t.looks + 1))
    case Check(i, live) => AfterCheck(hash, s, i, live)
    case MarkUp(i) =>
      s.With(0, MarkedBy(hash, s.nodes[0], s.up[i])).(up := Removed(s.up, i), tally := t.(marks := t.marks + 1))
    case MarkDown(i) =>
      var to := s.down[i].client + 1;
      s.With(to, MarkedBy(hash, s.nodes[to], s.down[i])).(down := Removed(s.down, i), tally := t.(marks := t.marks + 1))
    case Set(i, j, ok, relayed) => AfterSet(hash, s, i, j, ok, relayed)
    case LoseUp(i) => s.(up := Removed(s.up, i), tally := t.(losses := t.losses + 1))
    case LoseDown(i) => s.(down := Removed(s.down, i), tally := t.(losses := t.losses + 1))
  }

  // ----- runs -----

  /** The star after some moves, if each was possible when its turn came. */
  ghost function Play(hash: Hash, s: Star, moves: seq<Move>): Option<Star> {
    if moves == [] then Some(s)
    else
      var mid, m := Play(hash, s, moves[..|moves| - 1]), moves[|moves| - 1];
      if mid.Some? && mid.value.nodes != [] && Enabled(mid.value, m) then Some(Moved(hash, mid.value, m)) else None
  }

  function CopiesIn(moves: seq<Move>): nat {
    if moves == [] then 0 else CopiesIn(moves[..|moves| - 1]) + One(moves[|moves| - 1].Copy?)
  }

  /** Nothing on its way anywhere. */
  predicate Settled(s: Star) {
    && s.nodes != [] && s.up == [] && s.down == []
    && forall n | n in s.nodes :: n.pending == 0 && n.reading.None? && n.applying == []
  }

  /** Settled, and nothing counted yet. */
  predicate Quiet(s: Star) {
    Settled(s) && s.tally == Tally(0, 0, 0, 0, 0, 0, 0, 0, 0)
  }

  // ----- well-behaved runs -----

  predicate AllOf(bs: seq<bool>) {
    forall b | b in bs :: b
  }

  /** All sessions exist, nothing is lost, every call succeeds, nobody copies. */
  predicate Smooth(m: Move) {
    match m
    case Read(_, ok) => ok
    case Check(_, live) => AllOf(live)
    case MarkUp(_) => true
    case MarkDown(_) => true
    case Set(_, _, ok, relayed) => ok && AllOf(relayed)
    case _ => false
  }

  /** Messages are handled in the order they were sent, none is lost, and all calls succeed. */
  predicate Regular(m: Move) {
    match m
    case MarkUp(i) => i == 0
    case MarkDown(i) => i == 0
    case Set(_, _, ok, _) => ok
    case Read(_, ok) => ok
    case LoseUp(_) => false
    case LoseDown(_) => false
    case _ => true
  }

  predicate AllRegular(moves: seq<Move>) {
    forall m | m in moves :: Regular(m)
  }

  function AllLive(n: nat): seq<bool> {
    seq(n, i => true)
  }

  /** In order, nothing lost, all sessions up. */
  predicate AllPlain(moves: seq<Move>) {
    forall m | m in moves :: Regular(m) && (m.Copy? || Smooth(m))
  }

  /** Plain moves lead from one star to the other; the quantifier keeps the run folded up in proofs. */
  ghost predicate Leads(hash: Hash, s: Star, moves: seq<Move>, t: Star)
    requires s.nodes != []
  {
    AllPlain(moves) && |t.nodes| == |s.nodes| && forall h: Hash | h == hash :: Play(h, s, moves) == Some(t)
  }

  lemma LeadsOn(hash: Hash, s: Star, moves: seq<Move>, was: Star, m: Move)
    requires s.nodes != [] && Leads(hash, s, moves, was) && Enabled(was, m) && Regular(m) && (m.Copy? || Smooth(m))
    ensures Leads(hash, s, moves + [m], Moved(hash, was, m))
  {
    PlayNext(hash, s, moves, m);
  }

  /** A client at rest copies something that is news to it: it goes up. */
  lemma Publish(hash: Hash, s: Star, moves: seq<Move>, was: Star, i: nat, c: Content) returns (all: seq<Move>, t: Star)
    requires s.nodes != [] && Leads(hash, s, moves, was) && 0 < i < |was.nodes|
    requires was.nodes[i] == Resting(was.nodes[i].clip, was.nodes[i].guard) && Normal(c) == c && News(hash, was.nodes[i].guard, c)
    ensures Leads(hash, s, all, t) && all == moves + [Copy(i, c), Read(i, true), Check(i, AllLive(|s.nodes| - 1))]
    ensures t.nodes == was.nodes[i := Resting(c, Some(hash(c)))] && t.up == was.up + [Flight(i - 1, c)] && t.down == was.down
    ensures t.tally.copies == was.tally.copies + 1 && t.tally.broadcasts == was.tally.broadcasts + 1
    ensures t.tally.interposed == was.tally.interposed && t.tally.overtaken == was.tally.overtaken
  {
    var live := AllLive(|s.nodes| - 1);
    var m0, m1, m2 := Copy(i, c), Read(i, true), Check(i, live);
    assert live[i - 1] in live;
    LeadsOn(hash, s, moves, was, m0);
    var s1 := Moved(hash, was, m0);
    LeadsOn(hash, s, moves + [m0], s1, m1);
    var s2 := Moved(hash, s1, m1);
    assert s2.nodes[i] == Node(c, was.nodes[i].guard, 0, Some(Reading(c, false)), []);
    LeadsOn(hash, s, moves + [m0] + [m1], s2, m2);
    ThreeMore(moves, m0, m1, m2);
    all, t := moves + [m0] + [m1] + [m2], Moved(hash, s2, m2);
  }

  lemma ThreeMore(moves: seq<Move>, m0: Move, m1: Move, m2: Move)
    ensures moves + [m0] + [m1] + [m2] == moves + [m0, m1, m2]
  {
  }

  lemma PlayNext(hash: Hash, s: Star, moves: seq<Move>, m: Move)
    requires Play(hash, s, moves).Some? && Play(hash, s, moves).value.nodes != [] && Enabled(Play(hash, s, moves).value, m)
    ensures Play(hash, s, moves + [m]) == Some(Moved(hash, Play(hash, s, moves).value, m))
  {
    assert (moves + [m])[..|moves|] == moves;
  }

  /** Two texts that are told apart. */
  predicate Apart(hash: Hash, a: Content, b: Content) {
    && !Blank(a) && Normal(a) == a && !Blank(b) && Normal(b) == b
    && hash(a) != hash(b)
  }
}
