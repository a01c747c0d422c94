/**
 What the watchers and sessions of a star can cost: every broadcast, application
 and notice is accounted for, over every run and for every hash.
 */
module ClipboardAccounts {
  import opened Basics
  import opened Clipboard

  // ----- counting -----

  /** The broadcasts a node would still make if nothing but its watcher moved. */
  function Debt(hash: Hash, n: Node): nat {
    if n.applying != [] then 0
    else if n.reading.Some? && !n.reading.value.late && News(hash, n.guard, n.reading.value.content) then
      1 + One(n.pending > 0 && News(hash, Some(hash(n.reading.value.content)), Normal(n.clip)))
    else One(Owing(hash, n))
  }

  function Sum(nodes: seq<Node>, weight: Node -> nat): nat {
    if nodes == [] then 0 else Sum(nodes[..|nodes| - 1], weight) + weight(nodes[|nodes| - 1])
  }

  lemma {:induction false} SumAfter(nodes: seq<Node>, weight: Node -> nat, i: nat, n: Node)
    requires i < |nodes|
    ensures Sum(nodes[i := n], weight) == Sum(nodes, weight) - weight(nodes[i]) + weight(n)
  {
    var last := |nodes| - 1;
    if i < last {
      SumAfter(nodes[..last], weight, i, n);
      assert nodes[i := n][..last] == nodes[..last][i := n];
    } else {
      assert nodes[i := n][..last] == nodes[..last];
    }
  }

  function PendingOf(n: Node): nat {
    n.pending
  }

  function ReadingOf(n: Node): nat {
    One(n.reading.Some?)
  }

  function ApplyingOf(n: Node): nat {
    |n.applying|
  }

  function DebtOf(hash: Hash): Node -> nat {
    n => Debt(hash, n)
  }

  function Debts(hash: Hash, s: Star): nat {
    Sum(s.nodes, DebtOf(hash))
  }

  lemma SumsAfter(hash: Hash, nodes: seq<Node>, i: nat, n: Node)
    requires i < |nodes|
    ensures Sum(nodes[i := n], DebtOf(hash)) == Sum(nodes, DebtOf(hash)) - Debt(hash, nodes[i]) + Debt(hash, n)
    ensures Sum(nodes[i := n], PendingOf) == Sum(nodes, PendingOf) - nodes[i].pending + n.pending
    ensures Sum(nodes[i := n], ReadingOf) == Sum(nodes, ReadingOf) - One(nodes[i].reading.Some?) + One(n.reading.Some?)
    ensures Sum(nodes[i := n], ApplyingOf) == Sum(nodes, ApplyingOf) - |nodes[i].applying| + |n.applying|
  {
    SumAfter(nodes, DebtOf(hash), i, n);
    SumAfter(nodes, PendingOf, i, n);
    SumAfter(nodes, ReadingOf, i, n);
    SumAfter(nodes, ApplyingOf, i, n);
  }

  /** Every broadcast made or owed is paid for by a copy, an interposed check or an overtaken content. */
  ghost predicate Paid(hash: Hash, s: Star) {
    s.tally.broadcasts + Debts(hash, s) <= s.tally.copies + s.tally.interposed + s.tally.overtaken
  }

  /** Every application - made, under way or still in flight - is paid for by a broadcast. */
  ghost predicate Carried(s: Star)
    requires s.nodes != []
  {
    s.tally.marks + s.tally.losses + |s.down| + s.Clients() * |s.up| + s.Clients() * |s.nodes[0].applying|
    <= s.Clients() * s.tally.broadcasts + |s.nodes[0].applying|
  }

  /** Every notice comes from a copy or an application, every check from a read, every set from a mark. */
  ghost predicate Followed(s: Star) {
    && s.tally.looks + Sum(s.nodes, PendingOf) <= s.tally.copies + s.tally.sets
    && s.tally.checks + Sum(s.nodes, ReadingOf) <= s.tally.looks
    && s.tally.sets + Sum(s.nodes, ApplyingOf) == s.tally.marks
  }

  ghost predicate Accounted(hash: Hash, s: Star) {
    Shaped(s) && Paid(hash, s) && Carried(s) && Followed(s)
  }

  lemma CheckPays(hash: Hash, clients: nat, k: nat, n: Node)
    requires n.reading.Some? && NodeShaped(clients, k, n)
    ensures var (after, out) := Checked(hash, n);
            var interposed := out.Some? && Late(n);
            One(out.Some?) + Debt(hash, after) <= Debt(hash, n) + One(interposed) + One(interposed && Owing(hash, after))
  {
  }

  lemma ReadPays(hash: Hash, n: Node, ok: bool)
    requires n.pending > 0 && n.reading.None?
    ensures Debt(hash, ReadBy(n, ok)) <= Debt(hash, n)
  {
    NormalIdempotent(n.clip);
  }

  lemma CopyPays(hash: Hash, n: Node, c: Content)
    ensures Debt(hash, Copied(n, c)) <= Debt(hash, n) + 1
  {
  }

  lemma OneMore(n: nat, k: nat)
    ensures n * (k + 1) == n * k + n
  {
  }

  /** What a tally allows the screens to broadcast beyond what they have. */
  function Spare(t: Tally): int {
    t.copies + t.interposed + t.overtaken - t.broadcasts
  }

  ghost predicate InFlight(clients: nat, fs: seq<Flight>) {
    forall f | f in fs :: FlightShaped(clients, f)
  }

  /** The accounts hold after one node has changed if they do for this node. */
  lemma OneNode(hash: Hash, s: Star, after: Star, i: nat, n: Node)
    requires Accounted(hash, s) && i < |s.nodes| && after.nodes == s.nodes[i := n]
    requires NodeShaped(s.Clients(), i, n) && InFlight(s.Clients(), after.up) && InFlight(s.Clients(), after.down)
    requires Debt(hash, n) - Debt(hash, s.nodes[i]) <= Spare(after.tally) - Spare(s.tally)
    requires var was, t := s.tally, after.tally;
             && n.pending - s.nodes[i].pending <= (t.copies + t.sets - t.looks) - (was.copies + was.sets - was.looks)
             && One(n.reading.Some?) - One(s.nodes[i].reading.Some?) <= (t.looks - t.checks) - (was.looks - was.checks)
             && |n.applying| - |s.nodes[i].applying| == (t.marks - t.sets) - (was.marks - was.sets)
    requires Carried(after)
    ensures Accounted(hash, after)
  {
    SumsAfter(hash, s.nodes, i, n);
  }

  lemma CopyAccounted(hash: Hash, s: Star, i: nat, c: Content)
    requires Accounted(hash, s) && i < |s.nodes|
    ensures Accounted(hash, Moved(hash, s, Copy(i, c)))
  {
    CopyPays(hash, s.nodes[i], c);
    OneNode(hash, s, Moved(hash, s, Copy(i, c)), i, Copied(s.nodes[i], c));
  }

  lemma ReadAccounted(hash: Hash, s: Star, i: nat, ok: bool)
    requires Accounted(hash, s) && Enabled(s, Read(i, ok))
    ensures Accounted(hash, Moved(hash, s, Read(i, ok)))
  {
    ReadPays(hash, s.nodes[i], ok);
    NormalIdempotent(s.nodes[i].clip);
    OneNode(hash, s, Moved(hash, s, Read(i, ok)), i, ReadBy(s.nodes[i], ok));
  }

  lemma SendingCarried(s: Star, i: nat, live: seq<bool>, c: Content)
    requires Shaped(s) && i < |s.nodes| && |live| == s.Clients() && Normal(c) == c
    ensures var t := Sending(s, i, live, c);
            && InFlight(s.Clients(), t.up) && InFlight(s.Clients(), t.down)
            && |t.down| + s.Clients() * |t.up| <= |s.down| + s.Clients() * |s.up| + s.Clients()
  {
    FanOutReaches(live, None, c);
    OneMore(s.Clients(), |s.up|);
  }

  lemma CheckAccounted(hash: Hash, s: Star, i: nat, live: seq<bool>)
    requires Accounted(hash, s) && Enabled(s, Check(i, live))
    ensures Accounted(hash, AfterCheck(hash, s, i, live))
  {
    var (n, out) := Checked(hash, s.nodes[i]);
    CheckPays(hash, s.Clients(), i, s.nodes[i]);
    OneMore(s.Clients(), s.tally.broadcasts);
    if out.Some? {
      SendingCarried(s, i, live, out.value);
    }
    OneNode(hash, s, AfterCheck(hash, s, i, live), i, n);
  }

  lemma MarkPays(hash: Hash, clients: nat, k: nat, n: Node, f: Flight)
    requires NodeShaped(clients, k, n) && FlightShaped(clients, f) && (k == 0 || f.client == k - 1)
    ensures NodeShaped(clients, k, MarkedBy(hash, n, f)) && Debt(hash, MarkedBy(hash, n, f)) == 0
  {
  }

  lemma MarkUpAccounted(hash: Hash, s: Star, i: nat)
    requires Accounted(hash, s) && Enabled(s, MarkUp(i))
    ensures Accounted(hash, Moved(hash, s, MarkUp(i)))
  {
    RemovedKeeps(s.up, i);
    MarkPays(hash, s.Clients(), 0, s.nodes[0], s.up[i]);
    OneMore(s.Clients(), |s.up| - 1);
    OneMore(s.Clients(), |s.nodes[0].applying|);
    OneNode(hash, s, Moved(hash, s, MarkUp(i)), 0, MarkedBy(hash, s.nodes[0], s.up[i]));
  }

  lemma MarkDownAccounted(hash: Hash, s: Star, i: nat)
    requires Accounted(hash, s) && Enabled(s, MarkDown(i))
    ensures Accounted(hash, Moved(hash, s, MarkDown(i)))
  {
    var to := s.down[i].client + 1;
    RemovedKeeps(s.down, i);
    MarkPays(hash, s.Clients(), to, s.nodes[to], s.down[i]);
    OneNode(hash, s, Moved(hash, s, MarkDown(i)), to, MarkedBy(hash, s.nodes[to], s.down[i]));
  }

  lemma SetPays(hash: Hash, clients: nat, k: nat, n: Node, j: nat, ok: bool)
    requires NodeShaped(clients, k, n) && j < |n.applying|
    ensures NodeShaped(clients, k, SetBy(n, j, ok)) && FlightShaped(clients, n.applying[j])
    ensures Debt(hash, n) == 0 && Debt(hash, SetBy(n, j, ok)) <= One(Owing(hash, SetBy(n, j, ok)))
  {
    RemovedKeeps(n.applying, j);
  }

  lemma RelayCarried(hash: Hash, s: Star, j: nat, ok: bool, relayed: seq<bool>)
    requires Accounted(hash, s) && Enabled(s, Set(0, j, ok, relayed))
    ensures var after := AfterSet(hash, s, 0, j, ok, relayed);
            Carried(after) && InFlight(s.Clients(), after.down)
  {
    var f := s.nodes[0].applying[j];
    assert f in s.nodes[0].applying;
    FanOutReaches(relayed, Some(f.client), f.content);
    OneMore(s.Clients(), |s.nodes[0].applying| - 1);
  }

  lemma SetAccounted(hash: Hash, s: Star, i: nat, j: nat, ok: bool, relayed: seq<bool>)
    requires Accounted(hash, s) && Enabled(s, Set(i, j, ok, relayed))
    ensures Accounted(hash, AfterSet(hash, s, i, j, ok, relayed))
  {
    SetPays(hash, s.Clients(), i, s.nodes[i], j, ok);
    if i == 0 {
      RelayCarried(hash, s, j, ok, relayed);
    }
    OneNode(hash, s, AfterSet(hash, s, i, j, ok, relayed), i, SetBy(s.nodes[i], j, ok));
  }

  lemma LossAccounted(hash: Hash, s: Star, m: Move)
    requires Accounted(hash, s) && Enabled(s, m) && (m.LoseUp? || m.LoseDown?)
    ensures Accounted(hash, Moved(hash, s, m))
  {
    if m.LoseUp? {
      RemovedKeeps(s.up, m.index);
      OneMore(s.Clients(), |s.up| - 1);
    } else {
      RemovedKeeps(s.down, m.index);
    }
  }

  lemma MovedAccounted(hash: Hash, s: Star, m: Move)
    requires Accounted(hash, s) && Enabled(s, m)
    ensures Accounted(hash, Moved(hash, s, m)) && |Moved(hash, s, m).nodes| == |s.nodes|
  {
    match m
    case Copy(i, c) => CopyAccounted(hash, s, i, c);
    case Read(i, ok) => ReadAccounted(hash, s, i, ok);
    case Check(i, live) => CheckAccounted(hash, s, i, live);
    case MarkUp(i) => MarkUpAccounted(hash, s, i);
    case MarkDown(i) => MarkDownAccounted(hash, s, i);
    case Set(i, j, ok, relayed) => SetAccounted(hash, s, i, j, ok, relayed);
    case LoseUp(i) => LossAccounted(hash, s, m);
    case LoseDown(i) => LossAccounted(hash, s, m);
  }

  // ----- runs -----

  lemma {:induction false} SettledSums(hash: Hash, nodes: seq<Node>)
    requires forall n | n in nodes :: n.pending == 0 && n.reading.None? && n.applying == []
    ensures Sum(nodes, DebtOf(hash)) == 0
    ensures Sum(nodes, PendingOf) == 0 && Sum(nodes, ReadingOf) == 0 && Sum(nodes, ApplyingOf) == 0
  {
    if nodes != [] {
      SettledSums(hash, nodes[..|nodes| - 1]);
    }
  }

  function Counted(t: Tally): nat {
    t.copies + t.looks + t.checks + t.marks + t.sets + t.losses
  }

  lemma MovedCounts(hash: Hash, s: Star, m: Move)
    requires s.nodes != [] && Enabled(s, m)
    ensures var t := Moved(hash, s, m).tally;
            t.copies == s.tally.copies + One(m.Copy?) && Counted(t) == Counted(s.tally) + 1
  {
  }

  /** For every hash and every interleaving the accounts go on holding. */
  lemma {:induction false} StaysAccounted(hash: Hash, s: Star, moves: seq<Move>)
    requires Accounted(hash, s) && Play(hash, s, moves).Some?
    ensures var end := Play(hash, s, moves).value;
            && Accounted(hash, end) && |end.nodes| == |s.nodes|
            && end.tally.copies == s.tally.copies + CopiesIn(moves) && Counted(end.tally) == Counted(s.tally) + |moves|
  {
    if moves != [] {
      var front, m := moves[..|moves| - 1], moves[|moves| - 1];
      StaysAccounted(hash, s, front);
      MovedAccounted(hash, Play(hash, s, front).value, m);
      MovedCounts(hash, Play(hash, s, front).value, m);
    }
  }

  /** So they hold after every run that starts with nothing outstanding. */
  lemma {:induction false} RunAccounted(hash: Hash, s: Star, moves: seq<Move>)
    requires Quiet(s) && Play(hash, s, moves).Some?
    ensures var end := Play(hash, s, moves).value;
            && Accounted(hash, end) && |end.nodes| == |s.nodes|
            && end.tally.copies == CopiesIn(moves) && Counted(end.tally) == |moves|
  {
    SettledSums(hash, s.nodes);
    StaysAccounted(hash, s, moves);
  }

  /** What happens does not depend on what was counted before. */
  predicate SameState(s: Star, t: Star) {
    s.nodes == t.nodes && s.up == t.up && s.down == t.down
  }

  lemma MovedSame(hash: Hash, s: Star, t: Star, m: Move)
    requires SameState(s, t) && s.nodes != [] && Enabled(s, m)
    ensures Enabled(t, m) && SameState(Moved(hash, s, m), Moved(hash, t, m))
  {
  }

  lemma {:induction false} PlaySame(hash: Hash, s: Star, t: Star, moves: seq<Move>)
    requires SameState(s, t) && Play(hash, s, moves).Some?
    ensures Play(hash, t, moves).Some? && SameState(Play(hash, s, moves).value, Play(hash, t, moves).value)
  {
    if moves != [] {
      var front, m := moves[..|moves| - 1], moves[|moves| - 1];
      PlaySame(hash, s, t, front);
      MovedSame(hash, Play(hash, s, front).value, Play(hash, t, front).value, m);
    }
  }

  lemma Dominates(n: nat, marks: nat, losses: nat, down: nat, up: nat, applying: nat, broadcasts: nat)
    requires marks + losses + down + n * up + n * applying <= n * broadcasts + applying
    requires n > 0 || applying == 0
    ensures marks + losses <= n * broadcasts
  {
    assert n > 0 ==> applying <= n * applying;
    assert 0 <= n * up;
  }

  lemma CarriedIsBounded(s: Star)
    requires Shaped(s) && Carried(s)
    ensures s.tally.marks + s.tally.losses <= s.Clients() * s.tally.broadcasts
  {
    var t, hub := s.tally, s.nodes[0];
    if hub.applying != [] {
      assert hub.applying[0] in hub.applying;
    }
    Dominates(s.Clients(), t.marks, t.losses, |s.down|, |s.up|, |hub.applying|, t.broadcasts);
  }

  lemma Length(t: Tally, carried: nat)
    requires t.looks <= t.copies + t.sets && t.checks <= t.looks && t.sets <= t.marks && t.marks + t.losses <= carried
    ensures Counted(t) <= 3 * t.copies + 4 * carried
  {
  }

  /**
   At most one broadcast per copy, interposed check and overtaken content, at most
   one application per client and broadcast, and a length that these allow.
   */
  predicate Bounded(s: Star, copies: nat, length: nat)
    requires s.nodes != []
  {
    && s.tally.broadcasts <= copies + s.tally.interposed + s.tally.overtaken
    && s.tally.marks + s.tally.losses <= s.Clients() * s.tally.broadcasts
    && length <= 3 * copies + 4 * (s.Clients() * s.tally.broadcasts)
  }

  lemma AccountsBound(hash: Hash, s: Star, copies: nat, length: nat)
    requires Accounted(hash, s) && s.tally.copies == copies && Counted(s.tally) == length
    ensures Bounded(s, copies, length)
  {
    CarriedIsBounded(s);
    Length(s.tally, s.Clients() * s.tally.broadcasts);
  }

  /**
   Whatever the interleaving of copies, reads, checks, marks, sets, relays and
   losses, and for every hash, a run that starts with nothing outstanding is
   bounded like this.
   */
  lemma {:induction false} BroadcastsBounded(hash: Hash, s: Star, moves: seq<Move>)
    requires Quiet(s) && Play(hash, s, moves).Some?
    ensures var end := Play(hash, s, moves).value;
            |end.nodes| == |s.nodes| && Bounded(end, CopiesIn(moves), |moves|)
  {
    RunAccounted(hash, s, moves);
    AccountsBound(hash, Play(hash, s, moves).value, CopiesIn(moves), |moves|);
  }

  /** At most one broadcast per copy, one application per client and copy, and a length that these allow. */
  predicate Tame(s: Star, copies: nat, length: nat)
    requires s.nodes != []
  {
    && s.tally.broadcasts <= copies
    && s.tally.marks <= s.Clients() * copies
    && length <= 4 * (|s.nodes| * copies)
  }

  /** So a run without interposed checks and overtaken contents cannot loop. */
  lemma NeverLoops(hash: Hash, s: Star, moves: seq<Move>)
    requires Quiet(s) && Play(hash, s, moves).Some?
    requires Play(hash, s, moves).value.tally.interposed == 0 && Play(hash, s, moves).value.tally.overtaken == 0
    ensures var end := Play(hash, s, moves).value;
            |end.nodes| == |s.nodes| && Tame(end, CopiesIn(moves), |moves|)
  {
    BroadcastsBounded(hash, s, moves);
    NothingInExcess(Play(hash, s, moves).value, CopiesIn(moves), |moves|);
  }

  lemma NothingInExcess(s: Star, copies: nat, length: nat)
    requires s.nodes != [] && Bounded(s, copies, length) && s.tally.interposed == 0 && s.tally.overtaken == 0
    ensures Tame(s, copies, length)
  {
    Scaled(s.Clients(), s.tally.broadcasts, copies);
  }

  lemma Scaled(n: nat, few: nat, many: nat)
    requires few <= many
    ensures n * few <= n * many && (n + 1) * many == n * many + many
  {
  }

  // ----- what would be enough -----

  /**
   What holding one lock over mark and set, and the same over read and check,
   would allow, with every set succeeding.
   */
  predicate Locked(s: Star, m: Move)
    requires s.nodes != [] && Enabled(s, m)
  {
    match m
    case Read(i, _) => s.nodes[i].applying == []
    case Check(i, _) => s.nodes[i].applying == []
    case MarkUp(_) => s.nodes[0].applying == [] && s.nodes[0].reading.None?
    case MarkDown(i) => var n := s.nodes[s.down[i].client + 1]; n.applying == [] && n.reading.None?
    case Set(_, _, ok, _) => ok
    case _ => true
  }

  /** Every move of the run was made under the lock. */
  ghost predicate LockedRun(hash: Hash, s: Star, moves: seq<Move>)
    requires s.nodes != []
  {
    moves == [] ||
    (var front, m := moves[..|moves| - 1], moves[|moves| - 1];
     LockedRun(hash, s, front) &&
     (var mid := Play(hash, s, front); mid.Some? && Enabled(mid.value, m) ==> Locked(mid.value, m)))
  }

  /** At most one application, remembered and unread; no reading misses a mark. */
  predicate Orderly(hash: Hash, n: Node) {
    && (n.reading.Some? ==> !n.reading.value.late && n.applying == [])
    && (n.applying == [] || (|n.applying| == 1 && n.guard == Some(hash(n.applying[0].content))))
  }

  ghost predicate AllOrderly(hash: Hash, s: Star) {
    s.nodes != [] && forall k | 0 <= k < |s.nodes| :: Orderly(hash, s.nodes[k])
  }

  lemma LockedKeepsOrder(hash: Hash, s: Star, m: Move)
    requires Shaped(s) && AllOrderly(hash, s) && Enabled(s, m) && Locked(s, m)
    ensures var t := Moved(hash, s, m);
            AllOrderly(hash, t) && t.tally.interposed == s.tally.interposed && t.tally.overtaken == s.tally.overtaken
  {
    if m.Set? {
      var n := s.nodes[m.node];
      assert n.applying[0] in n.applying;
      assert Removed(n.applying, m.index) == [];
    }
  }

  lemma {:induction false} LockedRunKeepsOrder(hash: Hash, s: Star, moves: seq<Move>)
    requires Quiet(s) && Play(hash, s, moves).Some? && LockedRun(hash, s, moves)
    ensures var end := Play(hash, s, moves).value;
            AllOrderly(hash, end) && end.tally.interposed == 0 && end.tally.overtaken == 0
  {
    if moves != [] {
      var front, m := moves[..|moves| - 1], moves[|moves| - 1];
      LockedRunKeepsOrder(hash, s, front);
      RunAccounted(hash, s, front);
      LockedKeepsOrder(hash, Play(hash, s, front).value, m);
    }
  }

  /** If nothing could come between mark and set or between read and check, no run would loop. */
  lemma LockedNeverLoops(hash: Hash, s: Star, moves: seq<Move>)
    requires Quiet(s) && Play(hash, s, moves).Some? && LockedRun(hash, s, moves)
    ensures var end := Play(hash, s, moves).value;
            |end.nodes| == |s.nodes| && Tame(end, CopiesIn(moves), |moves|)
  {
    LockedRunKeepsOrder(hash, s, moves);
    NeverLoops(hash, s, moves);
  }
}
