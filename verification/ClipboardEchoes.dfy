/**
 How two copies go back and forth between the hub and one client for ever: in
 either of the two windows the older content, whose notice is still about, is
 taken for news, and with it the newer one when its own notice comes.
 */
module ClipboardEchoes {
  import opened Basics
  import opened Clipboard
  import opened ClipboardAccounts

  /** Where the watcher and a session get in each other's way. */
  datatype Window = BetweenReadAndCheck | BetweenMarkAndSet

  datatype Kind = Marks | Sets | Reads | Checks

  /**
   Eight moves: mark and set, read and check for two messages, with the second
   mark before the first check, or the first read and check before the second set.
   */
  function EchoKinds(w: Window): (kinds: seq<Kind>)
    ensures |kinds| == 8
  {
    if w.BetweenReadAndCheck? then [Marks, Sets, Reads, Marks, Sets, Checks, Reads, Checks]
    else [Marks, Sets, Marks, Reads, Checks, Sets, Reads, Checks]
  }

  /** Such a move at node i, 0 or 1, of a star with one client. */
  function EchoMove(kind: Kind, i: nat): Move {
    match kind
    case Marks => if i == 0 then MarkUp(0) else MarkDown(0)
    case Sets => Set(i, 0, true, [true])
    case Reads => Read(i, true)
    case Checks => Check(i, [true])
  }

  function EchoMoves(w: Window, i: nat): (moves: seq<Move>)
    ensures |moves| == 8
  {
    seq(8, k requires 0 <= k < 8 => EchoMove(EchoKinds(w)[k], i))
  }

  // ----- the window the loop does not need -----

  /** A move that starts what the window does not divide: a mark, or a read. */
  predicate Starts(w: Window, m: Move) {
    if w.BetweenReadAndCheck? then m.MarkUp? || m.MarkDown? else m.Read?
  }

  /** The move that completes it at the same screen; with one client, client 0 is screen 1. */
  predicate Completes(w: Window, m: Move, next: Move) {
    if w.BetweenReadAndCheck? then next.Set? && next.node == (if m.MarkUp? then 0 else 1)
    else m.Read? && next.Check? && next.node == m.node
  }

  /**
   Nothing comes into the other window: every mark is followed at once by its set
   in a loop between read and check, every read at once by its check in a loop
   between mark and set.
   */
  predicate Whole(w: Window, moves: seq<Move>) {
    forall k | 0 <= k < |moves| && Starts(w, moves[k]) :: k + 1 < |moves| && Completes(w, moves[k], moves[k + 1])
  }

  lemma WholeAppend(w: Window, moves: seq<Move>, more: seq<Move>)
    requires Whole(w, moves) && Whole(w, more)
    ensures Whole(w, moves + more)
  {
    var all := moves + more;
    forall k | 0 <= k < |all| && Starts(w, all[k]) ensures k + 1 < |all| && Completes(w, all[k], all[k + 1]) {
      if k < |moves| {
        assert Completes(w, moves[k], moves[k + 1]);
      } else {
        assert Completes(w, more[k - |moves|], more[k - |moves| + 1]);
      }
    }
  }

  lemma CopyIsWhole(w: Window, i: nat, c: Content, live: seq<bool>)
    ensures Whole(w, [Copy(i, c), Read(i, true), Check(i, live)])
  {
  }

  lemma EchoIsWhole(w: Window, i: nat)
    requires i <= 1
    ensures Whole(w, EchoMoves(w, i))
  {
    forall k | 0 <= k < 8 && Starts(w, EchoMoves(w, i)[k]) ensures k + 1 < 8 && Completes(w, EchoMoves(w, i)[k], EchoMoves(w, i)[k + 1]) {
      assert EchoMoves(w, i)[k] == EchoMove(EchoKinds(w)[k], i);
      assert EchoKinds(w)[k] == (if w.BetweenReadAndCheck? then Marks else Reads);
    }
  }

  lemma PrefixNext(w: Window, i: nat, moves: seq<Move>, k: nat)
    requires k < 8
    ensures moves + EchoMoves(w, i)[..k] + [EchoMove(EchoKinds(w)[k], i)] == moves + EchoMoves(w, i)[..k + 1]
  {
  }

  // ----- the loop -----

  /** A screen at rest to which a and then b are on their way, after k of these moves. */
  function EchoNode(w: Window, hash: Hash, n: Node, a: Content, b: Content, k: nat): Node {
    var fa, fb, ha, hb := Flight(0, a), Flight(0, b), Some(hash(a)), Some(hash(b));
    if k == 0 then n
    else if k == 1 then Node(n.clip, ha, 0, None, [fa])
    else if k == 2 then Node(a, ha, 1, None, [])
    else if k == 7 then Node(b, ha, 0, Some(Reading(b, false)), [])
    else if k == 8 then Resting(b, hb)
    else if w.BetweenReadAndCheck? then
      if k == 3 then Node(a, ha, 0, Some(Reading(a, false)), [])
      else if k == 4 then Node(a, hb, 0, Some(Reading(a, true)), [fb])
      else if k == 5 then Node(b, hb, 1, Some(Reading(a, true)), [])
      else Node(b, ha, 1, None, [])
    else
      if k == 3 then Node(a, hb, 1, None, [fb])
      else if k == 4 then Node(a, hb, 0, Some(Reading(a, true)), [fb])
      else if k == 5 then Node(a, ha, 0, None, [fb])
      else Node(b, ha, 1, None, [])
  }

  /** What is still on its way to the screen, and what it has sent. */
  function EchoIn(w: Window, a: Content, b: Content, k: nat): seq<Flight> {
    if k == 0 then [Flight(0, a), Flight(0, b)]
    else if k < 3 || (k == 3 && w.BetweenReadAndCheck?) then [Flight(0, b)]
    else []
  }

  function EchoOut(w: Window, a: Content, b: Content, k: nat): seq<Flight> {
    if k < 5 || (k == 5 && w.BetweenReadAndCheck?) then []
    else if k < 8 then [Flight(0, a)]
    else [Flight(0, a), Flight(0, b)]
  }

  function EchoCounts(w: Window, k: nat): (nat, nat, nat) {
    var out := if k < 5 || (k == 5 && w.BetweenReadAndCheck?) then 0 else 1;
    (if k == 8 then 2 else out, out, One(k > 5))
  }

  /** A star of one client, seen from node i: the node, the other one, what comes in and what goes out. */
  predicate Seen(s: Star, i: nat, n: Node, other: Node, incoming: seq<Flight>, outgoing: seq<Flight>) {
    if i == 0 then s.nodes == [n, other] && s.up == incoming && s.down == outgoing
    else i == 1 && s.nodes == [other, n] && s.down == incoming && s.up == outgoing
  }

  /** No copies; so many more broadcasts, interposed checks and overtaken contents. */
  predicate CountsGrow(s: Star, t: Star, broadcasts: int, interposed: int, overtaken: int) {
    && t.tally.copies == s.tally.copies && t.tally.broadcasts == s.tally.broadcasts + broadcasts
    && t.tally.interposed == s.tally.interposed + interposed && t.tally.overtaken == s.tally.overtaken + overtaken
  }

  lemma FanOutToOne(c: Content)
    ensures FanOut([true], None, c) == [Flight(0, c)] && FanOut([true], Some(0), c) == []
  {
    assert [true][..0] == [];
  }

  lemma EchoMark(hash: Hash, s: Star, i: nat, n: Node, other: Node, incoming: seq<Flight>, outgoing: seq<Flight>)
    requires Seen(s, i, n, other, incoming, outgoing) && n.applying == [] && incoming != [] && incoming[0].client == 0
    ensures var m := EchoMove(Marks, i);
            && Enabled(s, m) && CountsGrow(s, Moved(hash, s, m), 0, 0, 0)
            && Seen(Moved(hash, s, m), i, MarkedBy(hash, n, incoming[0]), other, incoming[1..], outgoing)
  {
    assert Removed(incoming, 0) == incoming[1..];
  }

  lemma EchoSet(hash: Hash, s: Star, i: nat, n: Node, other: Node, incoming: seq<Flight>, outgoing: seq<Flight>)
    requires Seen(s, i, n, other, incoming, outgoing) && |n.applying| == 1 && n.applying[0].client == 0
    ensures var m := EchoMove(Sets, i);
            && Enabled(s, m) && CountsGrow(s, Moved(hash, s, m), 0, 0, One(Owing(hash, SetBy(n, 0, true))))
            && Seen(Moved(hash, s, m), i, SetBy(n, 0, true), other, incoming, outgoing)
  {
    FanOutToOne(n.applying[0].content);
  }

  lemma EchoRead(hash: Hash, s: Star, i: nat, n: Node, other: Node, incoming: seq<Flight>, outgoing: seq<Flight>)
    requires Seen(s, i, n, other, incoming, outgoing) && n.pending > 0 && n.reading.None?
    ensures var m := EchoMove(Reads, i);
            && Enabled(s, m) && CountsGrow(s, Moved(hash, s, m), 0, 0, 0)
            && Seen(Moved(hash, s, m), i, ReadBy(n, true), other, incoming, outgoing)
  {
  }

  lemma EchoCheck(hash: Hash, s: Star, i: nat, n: Node, other: Node, incoming: seq<Flight>, outgoing: seq<Flight>, c: Content)
    requires Seen(s, i, n, other, incoming, outgoing) && n.reading.Some? && Checked(hash, n).1 == Some(c)
    ensures var m := EchoMove(Checks, i);
            && Enabled(s, m) && CountsGrow(s, Moved(hash, s, m), 1, One(Late(n)), One(Late(n) && Owing(hash, Checked(hash, n).0)))
            && Seen(Moved(hash, s, m), i, Checked(hash, n).0, other, incoming, outgoing + [Flight(0, c)])
  {
    FanOutToOne(c);
  }

  predicate CountedStep(w: Window, k: nat, broadcasts: int, interposed: int, overtaken: int) {
    var was, now := EchoCounts(w, k), EchoCounts(w, k + 1);
    now.0 - was.0 == broadcasts && now.1 - was.1 == interposed && now.2 - was.2 == overtaken
  }

  lemma EchoNodes(w: Window, hash: Hash, n: Node, a: Content, b: Content, k: nat)
    requires n == Resting(n.clip, n.guard) && Apart(hash, a, b) && k < 8
    ensures var now, after := EchoNode(w, hash, n, a, b, k), EchoNode(w, hash, n, a, b, k + 1);
            match EchoKinds(w)[k]
            case Marks =>
              now.applying == [] && MarkedBy(hash, now, Flight(0, if k == 0 then a else b)) == after && CountedStep(w, k, 0, 0, 0)
            case Sets =>
              && |now.applying| == 1 && now.applying[0].client == 0
              && SetBy(now, 0, true) == after && CountedStep(w, k, 0, 0, One(Owing(hash, after)))
            case Reads => now.pending > 0 && now.reading.None? && ReadBy(now, true) == after && CountedStep(w, k, 0, 0, 0)
            case Checks =>
              && now.reading.Some? && Checked(hash, now) == (after, Some(if k == 7 then b else a))
              && CountedStep(w, k, 1, One(Late(now)), One(Late(now) && Owing(hash, after)))
  {
  }

  /** The star after k of the moves at node i. */
  predicate Echoing(w: Window, hash: Hash, s: Star, i: nat, n: Node, other: Node, a: Content, b: Content, k: nat) {
    && k <= 8 && n == Resting(n.clip, n.guard)
    && Seen(s, i, EchoNode(w, hash, n, a, b, k), other, EchoIn(w, a, b, k), EchoOut(w, a, b, k))
  }

  lemma EchoFlights(w: Window, a: Content, b: Content, k: nat)
    requires k < 8
    ensures var c := Flight(0, if k == 0 then a else b);
            EchoKinds(w)[k].Marks? ==> EchoIn(w, a, b, k) == [c] + EchoIn(w, a, b, k + 1)
    ensures !EchoKinds(w)[k].Marks? ==> EchoIn(w, a, b, k) == EchoIn(w, a, b, k + 1)
    ensures EchoOut(w, a, b, k + 1)
         == EchoOut(w, a, b, k) + if EchoKinds(w)[k].Checks? then [Flight(0, if k == 7 then b else a)] else []
  {
  }

  lemma EchoStep(w: Window, hash: Hash, s: Star, i: nat, n: Node, other: Node, a: Content, b: Content, k: nat)
    requires Apart(hash, a, b) && k < 8 && Echoing(w, hash, s, i, n, other, a, b, k)
    ensures var m, was, now := EchoMove(EchoKinds(w)[k], i), EchoCounts(w, k), EchoCounts(w, k + 1);
            && Regular(m) && Enabled(s, m)
            && Echoing(w, hash, Moved(hash, s, m), i, n, other, a, b, k + 1)
            && CountsGrow(s, Moved(hash, s, m), now.0 - was.0, now.1 - was.1, now.2 - was.2)
  {
    var now, incoming, outgoing := EchoNode(w, hash, n, a, b, k), EchoIn(w, a, b, k), EchoOut(w, a, b, k);
    EchoNodes(w, hash, n, a, b, k);
    EchoFlights(w, a, b, k);
    match EchoKinds(w)[k]
    case Marks => EchoMark(hash, s, i, now, other, incoming, outgoing);
    case Sets => EchoSet(hash, s, i, now, other, incoming, outgoing);
    case Reads => EchoRead(hash, s, i, now, other, incoming, outgoing);
    case Checks => EchoCheck(hash, s, i, now, other, incoming, outgoing, if k == 7 then b else a);
  }

  /** All eight moves at one node: what came in goes out again, without a copy. */
  lemma EchoOnce(w: Window, hash: Hash, s: Star, moves: seq<Move>, i: nat, n: Node, other: Node, a: Content, b: Content)
    returns (all: seq<Move>)
    requires s.nodes != [] && Play(hash, s, moves).Some? && AllRegular(moves) && Apart(hash, a, b)
    requires Echoing(w, hash, Play(hash, s, moves).value, i, n, other, a, b, 0)
    ensures Play(hash, s, all).Some? && AllRegular(all) && all == moves + EchoMoves(w, i)
    ensures var was, end := Play(hash, s, moves).value, Play(hash, s, all).value;
            Echoing(w, hash, end, i, n, other, a, b, 8) && CountsGrow(was, end, 2, 1, 1)
  {
    all := moves;
    assert moves + EchoMoves(w, i)[..0] == moves;
    for k := 0 to 8
      invariant all == moves + EchoMoves(w, i)[..k]
      invariant Play(hash, s, all).Some? && Echoing(w, hash, Play(hash, s, all).value, i, n, other, a, b, k)
      invariant var c := EchoCounts(w, k);
                CountsGrow(Play(hash, s, moves).value, Play(hash, s, all).value, c.0, c.1, c.2) && AllRegular(all)
    {
      EchoStep(w, hash, Play(hash, s, all).value, i, n, other, a, b, k);
      PlayNext(hash, s, all, EchoMove(EchoKinds(w)[k], i));
      PrefixNext(w, i, moves, k);
      all := all + [EchoMove(EchoKinds(w)[k], i)];
    }
    assert EchoMoves(w, i)[..8] == EchoMoves(w, i);
  }

  /** The client copies a and then b before anything arrives: both are on their way to the hub. */
  lemma TwoCopies(w: Window, hash: Hash, s: Star, a: Content, b: Content) returns (moves: seq<Move>)
    requires Quiet(s) && s.Clients() == 1 && Apart(hash, a, b) && s.nodes[1].guard != Some(hash(a))
    ensures Play(hash, s, moves).Some? && AllRegular(moves) && Whole(w, moves)
    ensures var end := Play(hash, s, moves).value;
            && Echoing(w, hash, end, 0, s.nodes[0], Resting(b, Some(hash(b))), a, b, 0)
            && end.tally.copies == 2 && end.tally.broadcasts == 2 && end.tally.interposed == 0 && end.tally.overtaken == 0
  {
    assert s.nodes[0] in s.nodes && s.nodes[1] in s.nodes;
    var first, t := Publish(hash, s, [], s, 1, a);
    moves, t := Publish(hash, s, first, t, 1, b);
    CopiesAreWhole(w, a, b, AllLive(1));
  }

  lemma CopiesAreWhole(w: Window, a: Content, b: Content, live: seq<bool>)
    ensures Whole(w, [] + [Copy(1, a), Read(1, true), Check(1, live)] + [Copy(1, b), Read(1, true), Check(1, live)])
  {
    CopyIsWhole(w, 1, a, live);
    CopyIsWhole(w, 1, b, live);
    WholeAppend(w, [], [Copy(1, a), Read(1, true), Check(1, live)]);
    WholeAppend(w, [] + [Copy(1, a), Read(1, true), Check(1, live)], [Copy(1, b), Read(1, true), Check(1, live)]);
  }

  /** Both directions once, seen from the hub. */
  lemma EchoBothWays(w: Window, hash: Hash, s: Star, moves: seq<Move>, hub: Node, client: Node, a: Content, b: Content)
    returns (all: seq<Move>)
    requires s.nodes != [] && Play(hash, s, moves).Some? && AllRegular(moves) && Apart(hash, a, b) && client == Resting(client.clip, client.guard)
    requires Echoing(w, hash, Play(hash, s, moves).value, 0, hub, client, a, b, 0) && Whole(w, moves)
    ensures Play(hash, s, all).Some? && AllRegular(all) && Whole(w, all)
    ensures var was, end := Play(hash, s, moves).value, Play(hash, s, all).value;
            && CountsGrow(was, end, 4, 2, 2)
            && Echoing(w, hash, end, 0, Resting(b, Some(hash(b))), Resting(b, Some(hash(b))), a, b, 0)
  {
    var there := EchoOnce(w, hash, s, moves, 0, hub, client, a, b);
    assert Echoing(w, hash, Play(hash, s, there).value, 1, client, Resting(b, Some(hash(b))), a, b, 0);
    all := EchoOnce(w, hash, s, there, 1, client, Resting(b, Some(hash(b))), a, b);
    EchoesAreWhole(w, moves);
  }

  lemma EchoesAreWhole(w: Window, moves: seq<Move>)
    requires Whole(w, moves)
    ensures Whole(w, moves + EchoMoves(w, 0) + EchoMoves(w, 1))
  {
    EchoIsWhole(w, 0);
    EchoIsWhole(w, 1);
    WholeAppend(w, moves, EchoMoves(w, 0));
    WholeAppend(w, moves + EchoMoves(w, 0), EchoMoves(w, 1));
  }

  /**
   As the code is, it can loop: with one client, two copies that are told apart
   can be sent back and forth for ever, although messages are handled in order,
   none is lost and all calls succeed. Either window alone is enough: the loop
   through the one leaves the other whole, so a lock over either pair alone would
   not do. And the bound on broadcasts is attained.
   */
  lemma EchoesForever(w: Window, hash: Hash, s: Star, a: Content, b: Content, rounds: nat) returns (moves: seq<Move>)
    requires Quiet(s) && s.Clients() == 1 && Apart(hash, a, b) && s.nodes[1].guard != Some(hash(a))
    ensures Play(hash, s, moves).Some? && AllRegular(moves) && Whole(w, moves) && CopiesIn(moves) == 2
    ensures var t := Play(hash, s, moves).value.tally;
            && t.broadcasts == 2 + 4 * rounds
            && t.broadcasts == CopiesIn(moves) + t.interposed + t.overtaken
  {
    moves := TwoCopies(w, hash, s, a, b);
    assert s.nodes[0] in s.nodes;
    var hub, client := s.nodes[0], Resting(b, Some(hash(b)));
    for k := 0 to rounds
      invariant Play(hash, s, moves).Some? && AllRegular(moves) && Whole(w, moves)
      invariant Echoing(w, hash, Play(hash, s, moves).value, 0, hub, client, a, b, 0) && client == Resting(b, Some(hash(b)))
      invariant var t := Play(hash, s, moves).value.tally;
                t.copies == 2 && t.broadcasts == 2 + 4 * k && t.interposed == 2 * k && t.overtaken == 2 * k
    {
      moves := EchoBothWays(w, hash, s, moves, hub, client, a, b);
      hub := Resting(b, Some(hash(b)));
    }
    RunAccounted(hash, s, moves);
  }
}
