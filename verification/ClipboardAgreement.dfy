/**
 When the screens end with the same content: after a copy made when all but the
 copying screen has settled, in any interleaving of what follows, and within a
 bounded number of moves; and not after one made while other content is on its way
 to the copying screen.
 */
module ClipboardAgreement {
  import opened Basics
  import opened Clipboard
  import opened ClipboardAccounts

  // ----- one copy reaches everyone -----

  predicate Only(fs: seq<Flight>, c: Content) {
    forall f | f in fs :: f.content == Normal(c)
  }

  predicate Knows(hash: Hash, n: Node, c: Content) {
    n.guard == Some(hash(Normal(c))) && Only(n.applying, c)
  }

  predicate Has(hash: Hash, n: Node, c: Content) {
    Knows(hash, n, c) && Normal(n.clip) == Normal(c) && (n.reading.Some? ==> n.reading.value.content == Normal(c))
  }

  /** Nothing for the watcher to do, and the content is being set. */
  predicate Getting(hash: Hash, n: Node, c: Content) {
    Knows(hash, n, c) && n.applying != [] && n.pending == 0 && n.reading.None?
  }

  predicate Untouched(n: Node) {
    n.pending == 0 && n.reading.None? && n.applying == []
  }

  predicate Among(fs: seq<Flight>, k: nat, toOthers: bool) {
    exists f | f in fs :: (f.client != k) == toOthers
  }

  /** A message with the content is on its way to this screen, or will be relayed to it. */
  predicate Coming(s: Star, k: nat)
    requires s.nodes != []
  {
    if k == 0 then s.up != []
    else Among(s.down, k - 1, false) || Among(s.up, k - 1, true) || Among(s.nodes[0].applying, k - 1, true)
  }

  predicate Reached(hash: Hash, s: Star, k: nat, c: Content)
    requires k < |s.nodes|
  {
    Has(hash, s.nodes[k], c) || Getting(hash, s.nodes[k], c) || (Untouched(s.nodes[k]) && Coming(s, k))
  }

  /** Every screen has the content, or is about to get it. */
  ghost predicate Spreading(hash: Hash, s: Star, c: Content) {
    && Shaped(s) && Only(s.up, c) && Only(s.down, c)
    && forall k | 0 <= k < |s.nodes| :: Reached(hash, s, k, c)
  }

  /** All is at rest but the notices of one screen, and a reading of it that will not be broadcast. */
  ghost predicate OwnNoticesOnly(hash: Hash, s: Star, origin: nat) {
    && Shaped(s) && origin < |s.nodes| && s.up == [] && s.down == []
    && (var n := s.nodes[origin]; n.applying == [] && (n.reading.Some? ==> !News(hash, n.guard, n.reading.value.content)))
    && forall k | 0 <= k < |s.nodes| && k != origin :: Untouched(s.nodes[k])
  }

  /** Copied and not checked yet. */
  ghost predicate Waiting(hash: Hash, s: Star, origin: nat, c: Content) {
    && Shaped(s) && origin < |s.nodes| && s.up == [] && s.down == []
    && (var n := s.nodes[origin];
        && n.clip == c && n.guard != Some(hash(Normal(c))) && n.applying == []
        && (n.reading == Some(Reading(Normal(c), false))
            || (n.pending > 0 && (n.reading.Some? ==> !News(hash, n.guard, n.reading.value.content)))))
    && forall k | 0 <= k < |s.nodes| && k != origin :: Untouched(s.nodes[k])
  }

  lemma CheckShaped(hash: Hash, s: Star, i: nat, live: seq<bool>)
    requires Shaped(s) && Enabled(s, Check(i, live))
    ensures Shaped(AfterCheck(hash, s, i, live))
  {
    var out := Checked(hash, s.nodes[i]).1;
    if out.Some? {
      SendingCarried(s, i, live, out.value);
    }
  }

  lemma SetShaped(hash: Hash, s: Star, i: nat, j: nat, ok: bool, relayed: seq<bool>)
    requires Shaped(s) && Enabled(s, Set(i, j, ok, relayed))
    ensures Shaped(AfterSet(hash, s, i, j, ok, relayed))
  {
    SetPays(hash, s.Clients(), i, s.nodes[i], j, ok);
    FanOutReaches(relayed, Some(s.nodes[i].applying[j].client), s.nodes[i].applying[j].content);
  }

  lemma MarkShaped(hash: Hash, s: Star, m: Move)
    requires Shaped(s) && Enabled(s, m) && (m.MarkUp? || m.MarkDown?)
    ensures Shaped(Moved(hash, s, m))
  {
    if m.MarkUp? {
      RemovedKeeps(s.up, m.index);
      MarkPays(hash, s.Clients(), 0, s.nodes[0], s.up[m.index]);
    } else {
      var f := s.down[m.index];
      RemovedKeeps(s.down, m.index);
      MarkPays(hash, s.Clients(), f.client + 1, s.nodes[f.client + 1], f);
    }
  }

  lemma MovedShaped(hash: Hash, s: Star, m: Move)
    requires Shaped(s) && Enabled(s, m) && Smooth(m)
    ensures Shaped(Moved(hash, s, m))
  {
    match m
    case Read(i, ok) => NormalIdempotent(s.nodes[i].clip);
    case Check(i, live) => CheckShaped(hash, s, i, live);
    case MarkUp(_) => MarkShaped(hash, s, m);
    case MarkDown(_) => MarkShaped(hash, s, m);
    case Set(i, j, ok, relayed) => SetShaped(hash, s, i, j, ok, relayed);
    case _ =>
  }

  lemma HubSpreads(hash: Hash, s: Star, c: Content, live: seq<bool>)
    requires Waiting(hash, s, 0, c) && !Blank(Normal(c)) && s.nodes[0].reading == Some(Reading(Normal(c), false))
    requires Enabled(s, Check(0, live)) && AllOf(live)
    ensures Spreading(hash, Moved(hash, s, Check(0, live)), c)
  {
    MovedShaped(hash, s, Check(0, live));
    FanOutReaches(live, None, Normal(c));
    var t := Moved(hash, s, Check(0, live));
    assert t.up == [] && t.down == FanOut(live, None, Normal(c));
    forall k | 0 < k < |t.nodes| ensures Coming(t, k) {
      AmongAll(live, Normal(c), k - 1);
    }
  }

  lemma AmongAll(live: seq<bool>, c: Content, k: nat)
    requires k < |live| && AllOf(live)
    ensures Among(FanOut(live, None, c), k, false)
  {
    FanOutReaches(live, None, c);
    assert live[k] in live;
    assert Flight(k, c) in FanOut(live, None, c);
  }

  lemma ClientSpreads(hash: Hash, s: Star, origin: nat, c: Content, live: seq<bool>)
    requires Waiting(hash, s, origin, c) && !Blank(Normal(c)) && s.nodes[origin].reading == Some(Reading(Normal(c), false)) && 0 < origin
    requires Enabled(s, Check(origin, live)) && AllOf(live)
    ensures Spreading(hash, Moved(hash, s, Check(origin, live)), c)
  {
    MovedShaped(hash, s, Check(origin, live));
    var t := Moved(hash, s, Check(origin, live));
    assert live[origin - 1] in live;
    assert t.up == [Flight(origin - 1, Normal(c))] && t.up[0] in t.up;
  }

  lemma WaitingMoves(hash: Hash, s: Star, origin: nat, c: Content, m: Move)
    requires Waiting(hash, s, origin, c) && !Blank(Normal(c)) && Enabled(s, m) && Smooth(m)
    ensures Underway(hash, Moved(hash, s, m), origin, c)
  {
    MovedShaped(hash, s, m);
    if m.Check? && s.nodes[origin].reading == Some(Reading(Normal(c), false)) {
      NormalIdempotent(c);
      if origin == 0 {
        HubSpreads(hash, s, c, m.live);
      } else {
        ClientSpreads(hash, s, origin, c, m.live);
      }
    }
  }

  lemma ReadSpreads(hash: Hash, s: Star, c: Content, m: Move)
    requires Spreading(hash, s, c) && Enabled(s, m) && (m.Read? || m.Check?) && Smooth(m)
    ensures Spreading(hash, Moved(hash, s, m), c)
  {
    MovedShaped(hash, s, m);
    var t := Moved(hash, s, m);
    assert Reached(hash, s, m.node, c);
    assert t.up == s.up && t.down == s.down && t.nodes[0].applying == s.nodes[0].applying;
    forall k | 0 <= k < |t.nodes| ensures Reached(hash, t, k, c) {
      assert Reached(hash, s, k, c);
    }
  }

  lemma MarkKnows(hash: Hash, s: Star, i: nat, f: Flight, c: Content)
    requires i < |s.nodes| && Reached(hash, s, i, c) && f.content == Normal(c)
    ensures var n := MarkedBy(hash, s.nodes[i], f); Has(hash, n, c) || Getting(hash, n, c)
  {
  }

  lemma MarkDownSpreads(hash: Hash, s: Star, c: Content, i: nat)
    requires Spreading(hash, s, c) && Enabled(s, MarkDown(i))
    ensures Spreading(hash, Moved(hash, s, MarkDown(i)), c)
  {
    MovedShaped(hash, s, MarkDown(i));
    var t, f := Moved(hash, s, MarkDown(i)), s.down[i];
    RemovedKeeps(s.down, i);
    MarkKnows(hash, s, f.client + 1, f, c);
    forall k | 0 <= k < |t.nodes| && k != f.client + 1 ensures Reached(hash, t, k, c) {
      assert Reached(hash, s, k, c);
      if Untouched(s.nodes[k]) && Coming(s, k) && k > 0 && Among(s.down, k - 1, false) {
        var g :| g in s.down && (g.client != k - 1) == false;
        assert g in t.down;
      }
    }
  }

  lemma MarkUpSpreads(hash: Hash, s: Star, c: Content, i: nat)
    requires Spreading(hash, s, c) && Enabled(s, MarkUp(i))
    ensures Spreading(hash, Moved(hash, s, MarkUp(i)), c)
  {
    MovedShaped(hash, s, MarkUp(i));
    var t, f := Moved(hash, s, MarkUp(i)), s.up[i];
    RemovedKeeps(s.up, i);
    MarkKnows(hash, s, 0, f, c);
    forall k | 0 < k < |t.nodes| ensures Reached(hash, t, k, c) {
      assert Reached(hash, s, k, c);
      if Untouched(s.nodes[k]) && Coming(s, k) && !Among(s.down, k - 1, false) {
        assert f in t.nodes[0].applying;
        if Among(s.up, k - 1, true) {
          var g :| g in s.up && (g.client != k - 1) == true;
          assert g == f || g in t.up;
        } else {
          var g :| g in s.nodes[0].applying && (g.client != k - 1) == true;
          assert g in t.nodes[0].applying;
        }
      }
    }
  }

  lemma SetHas(hash: Hash, s: Star, i: nat, j: nat, c: Content)
    requires i < |s.nodes| && Reached(hash, s, i, c) && j < |s.nodes[i].applying|
    ensures s.nodes[i].applying[j].content == Normal(c) && Has(hash, SetBy(s.nodes[i], j, true), c)
  {
    NormalIdempotent(c);
    RemovedKeeps(s.nodes[i].applying, j);
  }

  lemma SetSpreads(hash: Hash, s: Star, c: Content, i: nat, j: nat, relayed: seq<bool>)
    requires Spreading(hash, s, c) && Enabled(s, Set(i, j, true, relayed)) && AllOf(relayed)
    ensures Spreading(hash, Moved(hash, s, Set(i, j, true, relayed)), c)
  {
    MovedShaped(hash, s, Set(i, j, true, relayed));
    var t, f := Moved(hash, s, Set(i, j, true, relayed)), s.nodes[i].applying[j];
    SetHas(hash, s, i, j, c);
    RemovedKeeps(s.nodes[i].applying, j);
    FanOutReaches(relayed, Some(f.client), f.content);
    forall k | 0 <= k < |t.nodes| && k != i ensures Reached(hash, t, k, c) {
      assert Reached(hash, s, k, c);
      if Untouched(s.nodes[k]) && Coming(s, k) && i == 0 {
        RelayReaches(s, t, k, j, relayed);
      }
    }
  }

  lemma RelayReaches(s: Star, t: Star, k: nat, j: nat, relayed: seq<bool>)
    requires 0 < k < |s.nodes| && |t.nodes| == |s.nodes| && j < |s.nodes[0].applying| && |relayed| == s.Clients() && AllOf(relayed)
    requires var f := s.nodes[0].applying[j];
             && t.nodes[0].applying == Removed(s.nodes[0].applying, j)
             && t.up == s.up && t.down == s.down + FanOut(relayed, Some(f.client), f.content)
    requires Coming(s, k)
    ensures Coming(t, k)
  {
    var f := s.nodes[0].applying[j];
    FanOutReaches(relayed, Some(f.client), f.content);
    RemovedKeeps(s.nodes[0].applying, j);
    assert relayed[k - 1] in relayed;
    if f.client != k - 1 {
      assert Flight(k - 1, f.content) in t.down;
    } else if Among(s.down, k - 1, false) {
      var g :| g in s.down && (g.client != k - 1) == false;
      assert g in t.down;
    } else if Among(s.nodes[0].applying, k - 1, true) {
      var g :| g in s.nodes[0].applying && (g.client != k - 1) == true;
      assert g in t.nodes[0].applying;
    }
  }

  ghost predicate Underway(hash: Hash, s: Star, origin: nat, c: Content) {
    Waiting(hash, s, origin, c) || Spreading(hash, s, c)
  }

  lemma StepUnderway(hash: Hash, s: Star, origin: nat, c: Content, m: Move)
    requires Underway(hash, s, origin, c) && !Blank(Normal(c)) && Enabled(s, m) && Smooth(m)
    ensures Underway(hash, Moved(hash, s, m), origin, c)
  {
    if Waiting(hash, s, origin, c) {
      WaitingMoves(hash, s, origin, c, m);
    } else {
      SpreadStays(hash, s, c, m);
    }
  }

  lemma SpreadStays(hash: Hash, s: Star, c: Content, m: Move)
    requires Spreading(hash, s, c) && Enabled(s, m) && Smooth(m)
    ensures Spreading(hash, Moved(hash, s, m), c)
  {
    match m
    case Read(_, _) => ReadSpreads(hash, s, c, m);
    case Check(_, _) => ReadSpreads(hash, s, c, m);
    case MarkUp(i) => MarkUpSpreads(hash, s, c, i);
    case MarkDown(i) => MarkDownSpreads(hash, s, c, i);
    case Set(i, j, _, relayed) => SetSpreads(hash, s, c, i, j, relayed);
    case _ =>
  }

  lemma NotYetSpread(hash: Hash, s: Star, origin: nat, c: Content)
    requires Waiting(hash, s, origin, c)
    ensures !Spreading(hash, s, c)
  {
    assert !Reached(hash, s, origin, c);
  }

  /** One broadcast takes the content out of its screen; nothing is interposed or overtaken. */
  lemma StepCalm(hash: Hash, s: Star, origin: nat, c: Content, m: Move)
    requires Underway(hash, s, origin, c) && !Blank(Normal(c)) && Enabled(s, m) && Smooth(m)
    ensures var t := Moved(hash, s, m);
            && t.tally.interposed == s.tally.interposed && t.tally.overtaken == s.tally.overtaken
            && t.tally.broadcasts <= s.tally.broadcasts + One(Waiting(hash, s, origin, c))
            && (Waiting(hash, t, origin, c) && Waiting(hash, s, origin, c) ==> t.tally.broadcasts == s.tally.broadcasts)
  {
    if !Waiting(hash, s, origin, c) {
      if m.Check? {
        assert Reached(hash, s, m.node, c);
      } else if m.Set? {
        assert Reached(hash, s, m.node, c);
        SetHas(hash, s, m.node, m.index, c);
      }
    }
  }

  lemma {:induction false} StaysUnderway(hash: Hash, s: Star, origin: nat, c: Content, moves: seq<Move>)
    requires Waiting(hash, s, origin, c) && !Blank(Normal(c))
    requires (forall m | m in moves :: Smooth(m)) && Play(hash, s, moves).Some?
    ensures var end := Play(hash, s, moves).value;
            && Underway(hash, end, origin, c) && CopiesIn(moves) == 0
            && end.tally.interposed == s.tally.interposed && end.tally.overtaken == s.tally.overtaken
            && end.tally.broadcasts <= s.tally.broadcasts + One(!Waiting(hash, end, origin, c))
  {
    if moves != [] {
      var front, m := moves[..|moves| - 1], moves[|moves| - 1];
      StaysUnderway(hash, s, origin, c, front);
      var mid := Play(hash, s, front).value;
      StepUnderway(hash, mid, origin, c, m);
      StepCalm(hash, mid, origin, c, m);
      if !Waiting(hash, mid, origin, c) {
        OnceSpread(hash, mid, origin, c, m);
      }
    }
  }

  lemma OnceSpread(hash: Hash, s: Star, origin: nat, c: Content, m: Move)
    requires Underway(hash, s, origin, c) && !Waiting(hash, s, origin, c) && !Blank(Normal(c)) && Enabled(s, m) && Smooth(m)
    ensures !Waiting(hash, Moved(hash, s, m), origin, c)
  {
    SpreadStays(hash, s, c, m);
    if Waiting(hash, Moved(hash, s, m), origin, c) {
      NotYetSpread(hash, Moved(hash, s, m), origin, c);
    }
  }

  /** As long as something is outstanding, some move is possible. */
  lemma CanMove(s: Star) returns (m: Move)
    requires Shaped(s) && !Settled(s)
    ensures Smooth(m) && Enabled(s, m)
  {
    var live := AllLive(s.Clients());
    if k: nat :| k < |s.nodes| && !Untouched(s.nodes[k]) {
      var n := s.nodes[k];
      m := if n.applying != [] then Set(k, 0, true, live) else if n.reading.Some? then Check(k, live) else Read(k, true);
    } else {
      forall n | n in s.nodes ensures Untouched(n) {
        var k: nat :| k < |s.nodes| && s.nodes[k] == n;
      }
      if s.up != [] {
        m := MarkUp(0);
      } else {
        assert s.down[0] in s.down;
        m := MarkDown(0);
      }
    }
  }

  /** What a star in which only one screen has notices is counted with, as if it had been copied to as often. */
  function OwnTally(n: Node): Tally {
    Tally(n.pending + One(n.reading.Some?), One(n.reading.Some?), 0, 0, 0, 0, 0, 0, 0)
  }

  lemma WaitingAccounted(hash: Hash, s: Star, origin: nat, c: Content)
    requires Waiting(hash, s, origin, c)
    ensures Accounted(hash, s.(tally := OwnTally(s.nodes[origin])))
  {
    var n, calm := s.nodes[origin], s.nodes[origin := Resting(c, None)];
    forall x | x in calm ensures Untouched(x) {
      var k: nat :| k < |calm| && calm[k] == x;
    }
    SettledSums(hash, calm);
    SumsAfter(hash, calm, origin, n);
    assert calm[origin := n] == s.nodes;
  }

  /** The length of every run on which a content spreads is bounded. */
  lemma SpreadsSoon(hash: Hash, s: Star, origin: nat, c: Content, moves: seq<Move>)
    requires Waiting(hash, s, origin, c) && !Blank(Normal(c))
    requires (forall m | m in moves :: Smooth(m)) && Play(hash, s, moves).Some?
    ensures |moves| <= 4 * s.Clients() + 2 * s.nodes[origin].pending + One(s.nodes[origin].reading.Some?)
  {
    var u := s.(tally := OwnTally(s.nodes[origin]));
    WaitingAccounted(hash, s, origin, c);
    PlaySame(hash, s, u, moves);
    StaysAccounted(hash, u, moves);
    StaysUnderway(hash, u, origin, c, moves);
    var end := Play(hash, u, moves).value;
    CarriedIsBounded(end);
    Scaled(end.Clients(), end.tally.broadcasts, 1);
    Length(end.tally, end.Clients());
  }

  /** Every screen holds the content and remembers it. */
  predicate Agreed(hash: Hash, s: Star, c: Content) {
    forall k | 0 <= k < |s.nodes| :: Normal(s.nodes[k].clip) == Normal(c) && s.nodes[k].guard == Some(hash(Normal(c)))
  }

  lemma WaitingIsNotSettled(hash: Hash, s: Star, origin: nat, c: Content)
    requires Waiting(hash, s, origin, c)
    ensures !Settled(s)
  {
    assert s.nodes[origin] in s.nodes;
  }

  lemma SpreadAgrees(hash: Hash, s: Star, c: Content)
    requires Spreading(hash, s, c) && Settled(s)
    ensures Agreed(hash, s, c)
  {
    forall k | 0 <= k < |s.nodes| ensures Has(hash, s.nodes[k], c) {
      assert s.nodes[0] in s.nodes && s.nodes[k] in s.nodes && Reached(hash, s, k, c);
    }
  }

  lemma SettledIsOwn(hash: Hash, s: Star, origin: nat)
    requires Settled(s) && origin < |s.nodes|
    ensures OwnNoticesOnly(hash, s, origin)
  {
    forall k | 0 <= k < |s.nodes| ensures Untouched(s.nodes[k]) {
      assert s.nodes[k] in s.nodes;
    }
  }

  lemma CopyWaits(hash: Hash, s: Star, origin: nat, c: Content)
    requires OwnNoticesOnly(hash, s, origin) && News(hash, s.nodes[origin].guard, Normal(c))
    ensures Waiting(hash, Moved(hash, s, Copy(origin, c)), origin, c)
  {
  }

  /**
   One copy that is news to its screen, made with all sessions up when nothing but
   notices of this screen is outstanding: however the rest is interleaved, it is
   over after a bounded number of moves; until the star has settled some move is
   possible, and then every screen holds the content and remembers it.
   */
  lemma OneCopyReachesAll(hash: Hash, s: Star, origin: nat, c: Content, moves: seq<Move>)
    requires OwnNoticesOnly(hash, s, origin) && News(hash, s.nodes[origin].guard, Normal(c))
    requires forall m | m in moves :: Smooth(m)
    requires Play(hash, Moved(hash, s, Copy(origin, c)), moves).Some?
    ensures |moves| <= 4 * s.Clients() + 2 * (s.nodes[origin].pending + 1) + One(s.nodes[origin].reading.Some?)
    ensures var end := Play(hash, Moved(hash, s, Copy(origin, c)), moves).value;
            if Settled(end) then Agreed(hash, end, c) else end.nodes != [] && exists m :: Smooth(m) && Enabled(end, m)
  {
    var copied := Moved(hash, s, Copy(origin, c));
    CopyWaits(hash, s, origin, c);
    StaysUnderway(hash, copied, origin, c, moves);
    SpreadsSoon(hash, copied, origin, c, moves);
    var end := Play(hash, copied, moves).value;
    if Settled(end) {
      if Waiting(hash, end, origin, c) {
        WaitingIsNotSettled(hash, end, origin, c);
      } else {
        SpreadAgrees(hash, end, c);
      }
    } else {
      var m := CanMove(end);
    }
  }

  // ----- several copies -----

  /** A copy, and the moves until the star has settled. */
  datatype Round = Round(origin: nat, content: Content, moves: seq<Move>)

  /** The star after some rounds, if each could be played and ended settled. */
  ghost function PlayRounds(hash: Hash, s: Star, rounds: seq<Round>): (end: Option<Star>)
    requires Settled(s)
    ensures end.Some? ==> Settled(end.value)
  {
    if rounds == [] then Some(s)
    else
      var mid, r := PlayRounds(hash, s, rounds[..|rounds| - 1]), rounds[|rounds| - 1];
      if mid.None? || r.origin >= |mid.value.nodes| then None
      else
        var end := Play(hash, Moved(hash, mid.value, Copy(r.origin, r.content)), r.moves);
        if end.Some? && Settled(end.value) then end else None
  }

  /** Text, with all sessions up until the next copy, and told apart from the content before. */
  ghost predicate Orderable(hash: Hash, rounds: seq<Round>, i: nat)
    requires i < |rounds|
  {
    && !Blank(Normal(rounds[i].content)) && (forall m | m in rounds[i].moves :: Smooth(m))
    && (i > 0 ==> hash(Normal(rounds[i].content)) != hash(Normal(rounds[i - 1].content)))
  }

  /** However many copies, each made at a settled star: all screens end with the last one. */
  lemma {:induction false} LastCopyWins(hash: Hash, s: Star, rounds: seq<Round>)
    requires Settled(s) && rounds != [] && PlayRounds(hash, s, rounds).Some?
    requires forall i | 0 <= i < |rounds| :: Orderable(hash, rounds, i)
    requires forall n | n in s.nodes :: n.guard != Some(hash(Normal(rounds[0].content)))
    ensures Agreed(hash, PlayRounds(hash, s, rounds).value, rounds[|rounds| - 1].content)
  {
    var last := |rounds| - 1;
    var front, r := rounds[..last], rounds[last];
    var mid := PlayRounds(hash, s, front).value;
    assert Orderable(hash, rounds, last);
    if last == 0 {
      assert mid == s && mid.nodes[r.origin] in s.nodes;
    } else {
      forall i | 0 <= i < |front| ensures Orderable(hash, front, i) {
        assert Orderable(hash, rounds, i);
      }
      LastCopyWins(hash, s, front);
    }
    SettledIsOwn(hash, mid, r.origin);
    OneCopyReachesAll(hash, mid, r.origin, r.content, r.moves);
  }

  // ----- a copy while other content is on its way -----

  lemma UpTaken(hash: Hash, was: Star)
    requires was.nodes != [] && was.up != [] && was.nodes[0].applying == [] && was.nodes[0].reading.None?
    ensures var mark, set_ := MarkUp(0), Set(0, 0, true, AllLive(was.Clients()));
            && Enabled(was, mark) && Enabled(Moved(hash, was, mark), set_)
            && var f, t := was.up[0], Moved(hash, Moved(hash, was, mark), set_);
               && t.nodes == was.nodes[0 := Node(f.content, Some(hash(f.content)), was.nodes[0].pending + 1, None, [])]
               && t.up == was.up[1..] && t.down == was.down + FanOut(AllLive(was.Clients()), Some(f.client), f.content)
  {
    var s1 := Moved(hash, was, MarkUp(0));
    assert s1.nodes[0].applying == [was.up[0]];
  }

  lemma DownTaken(hash: Hash, was: Star)
    requires was.nodes != [] && was.down != [] && was.down[0].client + 1 < |was.nodes|
    requires var n := was.nodes[was.down[0].client + 1]; n.applying == [] && n.reading.None?
    ensures var f := was.down[0];
            var mark, set_ := MarkDown(0), Set(f.client + 1, 0, true, AllLive(was.Clients()));
            && Enabled(was, mark) && Enabled(Moved(hash, was, mark), set_)
            && var t := Moved(hash, Moved(hash, was, mark), set_);
               && t.nodes == was.nodes[f.client + 1 := Node(f.content, Some(hash(f.content)), was.nodes[f.client + 1].pending + 1, None, [])]
               && t.up == was.up && t.down == was.down[1..]
  {
    var s1 := Moved(hash, was, MarkDown(0));
    assert s1.nodes[was.down[0].client + 1].applying == [was.down[0]];
  }

  /** Mark and set, one after the other. */
  lemma Take(hash: Hash, s: Star, moves: seq<Move>, was: Star, mark: Move, set_: Move) returns (all: seq<Move>, t: Star)
    requires s.nodes != [] && Leads(hash, s, moves, was) && mark in {MarkUp(0), MarkDown(0)} && set_.Set? && Smooth(set_)
    requires Enabled(was, mark) && Enabled(Moved(hash, was, mark), set_)
    ensures Leads(hash, s, all, t) && t == Moved(hash, Moved(hash, was, mark), set_)
  {
    var s1 := Moved(hash, was, mark);
    LeadsOn(hash, s, moves, was, mark);
    LeadsOn(hash, s, moves + [mark], s1, set_);
    all, t := moves + [mark] + [set_], Moved(hash, s1, set_);
  }

  /** The hub handles the next message from a client and relays it to all the others. */
  lemma TakeUp(hash: Hash, s: Star, moves: seq<Move>, was: Star) returns (all: seq<Move>, t: Star)
    requires s.nodes != [] && Leads(hash, s, moves, was) && was.up != [] && was.nodes[0].applying == [] && was.nodes[0].reading.None?
    ensures var f := was.up[0];
            && Leads(hash, s, all, t)
            && t.nodes == was.nodes[0 := Node(f.content, Some(hash(f.content)), was.nodes[0].pending + 1, None, [])]
            && t.up == was.up[1..] && t.down == was.down + FanOut(AllLive(was.Clients()), Some(f.client), f.content)
  {
    UpTaken(hash, was);
    all, t := Take(hash, s, moves, was, MarkUp(0), Set(0, 0, true, AllLive(was.Clients())));
  }

  /** A client handles the next message from the hub. */
  lemma TakeDown(hash: Hash, s: Star, moves: seq<Move>, was: Star) returns (all: seq<Move>, t: Star)
    requires s.nodes != [] && Leads(hash, s, moves, was) && was.down != [] && was.down[0].client + 1 < |was.nodes|
    requires var n := was.nodes[was.down[0].client + 1]; n.applying == [] && n.reading.None?
    ensures var f := was.down[0];
            && Leads(hash, s, all, t)
            && t.nodes == was.nodes[f.client + 1 := Node(f.content, Some(hash(f.content)), was.nodes[f.client + 1].pending + 1, None, [])]
            && t.up == was.up && t.down == was.down[1..]
  {
    DownTaken(hash, was);
    all, t := Take(hash, s, moves, was, MarkDown(0), Set(was.down[0].client + 1, 0, true, AllLive(was.Clients())));
  }

  /** A notice of content that is remembered does nothing. */
  lemma TakeEcho(hash: Hash, s: Star, moves: seq<Move>, was: Star, i: nat) returns (all: seq<Move>, t: Star)
    requires s.nodes != [] && Leads(hash, s, moves, was) && i < |was.nodes|
    requires var n := was.nodes[i];
             && n.pending > 0 && n.reading.None? && n.applying == []
             && Normal(n.clip) == n.clip && n.guard == Some(hash(n.clip))
    ensures Leads(hash, s, all, t)
    ensures t.nodes == was.nodes[i := was.nodes[i].(pending := was.nodes[i].pending - 1)] && t.up == was.up && t.down == was.down
  {
    var m0, m1 := Read(i, true), Check(i, AllLive(|s.nodes| - 1));
    var s1 := Moved(hash, was, m0);
    LeadsOn(hash, s, moves, was, m0);
    LeadsOn(hash, s, moves + [m0], s1, m1);
    all, t := moves + [m0] + [m1], Moved(hash, s1, m1);
  }

  /** The last content on its way to this client. */
  function LastTo(fs: seq<Flight>, k: nat): Option<Content> {
    if fs == [] then None
    else
      var last := fs[|fs| - 1];
      if last.client == k then Some(last.content) else LastTo(fs[..|fs| - 1], k)
  }

  lemma {:induction false} LastToAppend(fs: seq<Flight>, more: seq<Flight>, k: nat)
    ensures LastTo(fs + more, k) == if LastTo(more, k).Some? then LastTo(more, k) else LastTo(fs, k)
    decreases |more|
  {
    if more == [] {
      assert fs + more == fs;
    } else {
      assert (fs + more)[..|fs + more| - 1] == fs + more[..|more| - 1];
      LastToAppend(fs, more[..|more| - 1], k);
    }
  }

  lemma {:induction false} LastToFanOut(live: seq<bool>, except: Option<nat>, c: Content, k: nat)
    requires AllOf(live)
    ensures LastTo(FanOut(live, except, c), k) == if k < |live| && except != Some(k) then Some(c) else None
  {
    if live != [] {
      var last := |live| - 1;
      assert live[last] in live && forall b | b in live[..last] :: b in live;
      LastToFanOut(live[..last], except, c, k);
      LastToAppend(FanOut(live[..last], except, c), if except != Some(last) then [Flight(last, c)] else [], k);
    }
  }

  lemma LastToFirst(fs: seq<Flight>, k: nat)
    requires fs != []
    ensures LastTo(fs, k)
         == if LastTo(fs[1..], k).Some? then LastTo(fs[1..], k) else if fs[0].client == k then Some(fs[0].content) else None
  {
    LastToAppend([fs[0]], fs[1..], k);
    assert [fs[0]] + fs[1..] == fs && [fs[0]][..0] == [];
  }

  /** Nothing but notices of remembered content is outstanding at the screen. */
  predicate OnlyEchoes(hash: Hash, n: Node) {
    && n.reading.None? && n.applying == []
    && (n.pending > 0 ==> Normal(n.clip) == n.clip && n.guard == Some(hash(n.clip)))
  }

  predicate AllOnlyEchoes(hash: Hash, s: Star) {
    forall n | n in s.nodes :: OnlyEchoes(hash, n)
  }

  /** Client k has taken the last of these messages to it, if there was one. */
  predicate Took(was: Node, n: Node, fs: seq<Flight>, k: nat) {
    if LastTo(fs, k).Some? then n.clip == LastTo(fs, k).value else n == was
  }

  lemma TookOneMore(was: Node, mid: Node, n: Node, fs: seq<Flight>, k: nat)
    requires fs != [] && Took(mid, n, fs[1..], k) && (if fs[0].client == k then mid.clip == fs[0].content else mid == was)
    ensures Took(was, n, fs, k)
  {
    LastToFirst(fs, k);
  }

  /** The clients take everything on its way to them, in order. */
  lemma TakeAllDown(hash: Hash, s: Star, moves: seq<Move>, was: Star) returns (all: seq<Move>, t: Star)
    requires s.nodes != [] && Leads(hash, s, moves, was) && AllOnlyEchoes(hash, was)
    requires forall f | f in was.down :: FlightShaped(was.Clients(), f)
    ensures Leads(hash, s, all, t) && t.up == was.up && t.down == [] && t.nodes[0] == was.nodes[0] && AllOnlyEchoes(hash, t)
    ensures forall k | 0 < k < |t.nodes| :: Took(was.nodes[k], t.nodes[k], was.down, k - 1)
    decreases |was.down|
  {
    all, t := moves, was;
    if was.down != [] {
      var f, rest := was.down[0], was.down[1..];
      assert f in was.down && was.nodes[f.client + 1] in was.nodes;
      var mid;
      all, mid := TakeDown(hash, s, moves, was);
      StillOnlyEchoes(hash, was, mid, f);
      all, t := TakeAllDown(hash, s, all, mid);
      forall k | 0 < k < |t.nodes| ensures Took(was.nodes[k], t.nodes[k], was.down, k - 1) {
        assert Took(mid.nodes[k], t.nodes[k], rest, k - 1);
        TookOneMore(was.nodes[k], mid.nodes[k], t.nodes[k], was.down, k - 1);
      }
    }
  }

  lemma StillOnlyEchoes(hash: Hash, was: Star, t: Star, f: Flight)
    requires AllOnlyEchoes(hash, was) && f.client + 1 < |was.nodes| && Normal(f.content) == f.content
    requires exists p :: t.nodes == was.nodes[f.client + 1 := Node(f.content, Some(hash(f.content)), p, None, [])]
    ensures AllOnlyEchoes(hash, t)
  {
    forall n | n in t.nodes ensures OnlyEchoes(hash, n) {
      var k :| 0 <= k < |t.nodes| && t.nodes[k] == n;
      assert was.nodes[k] in was.nodes;
    }
  }

  lemma Quieten(hash: Hash, s: Star, moves: seq<Move>, was: Star, i: nat) returns (all: seq<Move>, t: Star)
    requires s.nodes != [] && Leads(hash, s, moves, was) && i < |was.nodes| && OnlyEchoes(hash, was.nodes[i])
    ensures Leads(hash, s, all, t) && t.up == was.up && t.down == was.down
    ensures t.nodes == was.nodes[i := Resting(was.nodes[i].clip, was.nodes[i].guard)]
    decreases was.nodes[i].pending
  {
    all, t := moves, was;
    if was.nodes[i].pending > 0 {
      all, t := TakeEcho(hash, s, moves, was, i);
      all, t := Quieten(hash, s, all, t, i);
    }
  }

  /** Once only such notices are left, the watchers can bring the star to rest with the contents it has. */
  lemma QuietenAll(hash: Hash, s: Star, moves: seq<Move>, was: Star) returns (all: seq<Move>, t: Star)
    requires s.nodes != [] && Leads(hash, s, moves, was) && was.up == [] && was.down == [] && AllOnlyEchoes(hash, was)
    ensures Leads(hash, s, all, t) && Settled(t) && |t.nodes| == |was.nodes|
    ensures forall k | 0 <= k < |was.nodes| :: t.nodes[k].clip == was.nodes[k].clip
  {
    all, t := moves, was;
    for i := 0 to |was.nodes|
      invariant Leads(hash, s, all, t) && t.up == [] && t.down == [] && |t.nodes| == |was.nodes|
      invariant forall k | 0 <= k < i :: t.nodes[k] == Resting(was.nodes[k].clip, was.nodes[k].guard)
      invariant forall k | i <= k < |was.nodes| :: t.nodes[k] == was.nodes[k]
    {
      assert was.nodes[i] in was.nodes;
      all, t := Quieten(hash, s, all, t, i);
    }
    forall n | n in t.nodes ensures Untouched(n) {
      var k :| 0 <= k < |t.nodes| && t.nodes[k] == n;
    }
  }

  /** A client at rest copies while messages are on their way to it and others: the copy is published and relayed. */
  lemma CopyRelayed(hash: Hash, s: Star, moves: seq<Move>, was: Star, i: nat, c: Content) returns (all: seq<Move>, t: Star)
    requires s.nodes != [] && Leads(hash, s, moves, was) && 0 < i < |was.nodes| && AllOnlyEchoes(hash, was) && was.up == []
    requires was.nodes[i].pending == 0 && Normal(c) == c && News(hash, was.nodes[i].guard, c)
    ensures Leads(hash, s, all, t) && AllOnlyEchoes(hash, t) && t.up == []
    ensures t.down == was.down + FanOut(AllLive(was.Clients()), Some(i - 1), c)
    ensures t.nodes[0].clip == c && forall k | 0 < k < |t.nodes| && k != i :: t.nodes[k] == was.nodes[k]
  {
    assert was.nodes[0] in was.nodes && was.nodes[i] in was.nodes;
    var mid;
    all, mid := Publish(hash, s, moves, was, i, c);
    all, t := TakeUp(hash, s, all, mid);
    forall n | n in t.nodes ensures OnlyEchoes(hash, n) {
      var k :| 0 <= k < |t.nodes| && t.nodes[k] == n;
      assert was.nodes[k] in was.nodes;
    }
  }

  lemma FanOutShaped(n: nat, except: Option<nat>, c: Content)
    requires Normal(c) == c
    ensures forall f | f in FanOut(AllLive(n), except, c) :: FlightShaped(n, f)
  {
    FanOutReaches(AllLive(n), except, c);
  }

  lemma LastAfterRelay(fs: seq<Flight>, n: nat, except: nat, c: Content, k: nat)
    requires k < n
    ensures LastTo(fs + FanOut(AllLive(n), Some(except), c), k) == if k == except then LastTo(fs, k) else Some(c)
  {
    LastToFanOut(AllLive(n), Some(except), c, k);
    LastToAppend(fs, FanOut(AllLive(n), Some(except), c), k);
  }

  /**
   A copy at a client while a message is on its way to it, all else being at rest
   but for echoes: some run with everything in order ends with the copied content
   everywhere but at this client, which has that of the message.
   */
  lemma CopyCrossesMessage(hash: Hash, s: Star, moves: seq<Move>, was: Star, i: nat, c: Content) returns (all: seq<Move>, t: Star)
    requires s.nodes != [] && Leads(hash, s, moves, was) && 0 < i < |was.nodes| && AllOnlyEchoes(hash, was) && was.up == []
    requires (forall f | f in was.down :: FlightShaped(was.Clients(), f)) && LastTo(was.down, i - 1).Some?
    requires was.nodes[i].pending == 0 && Normal(c) == c && News(hash, was.nodes[i].guard, c)
    ensures Leads(hash, s, all, t) && Settled(t)
    ensures forall k | 0 <= k < |t.nodes| :: t.nodes[k].clip == if k == i then LastTo(was.down, i - 1).value else c
  {
    var relayed, taken;
    all, relayed := CopyRelayed(hash, s, moves, was, i, c);
    FanOutShaped(was.Clients(), Some(i - 1), c);
    all, taken := TakeAllDown(hash, s, all, relayed);
    forall k | 0 < k < |taken.nodes| ensures taken.nodes[k].clip == if k == i then LastTo(was.down, i - 1).value else c {
      assert Took(relayed.nodes[k], taken.nodes[k], relayed.down, k - 1);
      LastAfterRelay(was.down, was.Clients(), i - 1, c, k - 1);
    }
    all, t := QuietenAll(hash, s, all, taken);
  }

  /** So the screens do not agree, if the two contents are told apart. */
  lemma CrossedDisagree(hash: Hash, s: Star, i: nat, c: Content) returns (moves: seq<Move>)
    requires 0 < i < |s.nodes| && AllOnlyEchoes(hash, s) && s.up == []
    requires (forall f | f in s.down :: FlightShaped(s.Clients(), f)) && LastTo(s.down, i - 1).Some?
    requires s.nodes[i].pending == 0 && Apart(hash, LastTo(s.down, i - 1).value, c) && s.nodes[i].guard != Some(hash(c))
    ensures AllPlain(moves) && Play(hash, s, moves).Some? && Settled(Play(hash, s, moves).value)
    ensures forall d :: !Agreed(hash, Play(hash, s, moves).value, d)
  {
    var t;
    moves, t := CopyCrossesMessage(hash, s, [], s, i, c);
    forall d ensures !Agreed(hash, t, d) {
      assert t.nodes[0].clip == c && t.nodes[i].clip == LastTo(s.down, i - 1).value;
    }
  }

  lemma HubPublishes(hash: Hash, s: Star, c: Content) returns (moves: seq<Move>, t: Star)
    requires s.nodes != [] && Untouched(s.nodes[0]) && Normal(c) == c && News(hash, s.nodes[0].guard, c)
    ensures Leads(hash, s, moves, t) && t.up == s.up && t.down == s.down + FanOut(AllLive(s.Clients()), None, c)
    ensures t.nodes == s.nodes[0 := Resting(c, Some(hash(c)))]
  {
    var m0, m1, m2 := Copy(0, c), Read(0, true), Check(0, AllLive(s.Clients()));
    LeadsOn(hash, s, [], s, m0);
    var s1 := Moved(hash, s, m0);
    LeadsOn(hash, s, [] + [m0], s1, m1);
    var s2 := Moved(hash, s1, m1);
    assert s2.nodes[0] == Node(c, s.nodes[0].guard, 0, Some(Reading(c, false)), []);
    LeadsOn(hash, s, [] + [m0] + [m1], s2, m2);
    moves, t := [] + [m0] + [m1] + [m2], Moved(hash, s2, m2);
  }

  lemma HubTakes(hash: Hash, s: Star, client: nat, a: Content, c: Content) returns (moves: seq<Move>, t: Star)
    requires s.nodes != [] && client < s.Clients() && AllOnlyEchoes(hash, s) && s.up == [Flight(client, a)] && s.down == []
    requires s.nodes[0].pending == 0 && Normal(c) == c && News(hash, s.nodes[0].guard, c) && Normal(a) == a
    ensures Leads(hash, s, moves, t) && AllOnlyEchoes(hash, t) && t.up == [] && t.nodes[0].clip == a
    ensures t.down == FanOut(AllLive(s.Clients()), None, c) + FanOut(AllLive(s.Clients()), Some(client), a)
  {
    assert s.nodes[0] in s.nodes;
    var mid;
    moves, mid := HubPublishes(hash, s, c);
    moves, t := TakeUp(hash, s, moves, mid);
    forall n | n in t.nodes ensures OnlyEchoes(hash, n) {
      var k :| 0 <= k < |t.nodes| && t.nodes[k] == n;
      assert s.nodes[k] in s.nodes;
    }
  }

  /** The same for a copy at the hub while a message from a client is on its way to it. */
  lemma HubCrossedDisagree(hash: Hash, s: Star, client: nat, a: Content, c: Content) returns (moves: seq<Move>)
    requires s.nodes != [] && client < s.Clients() && AllOnlyEchoes(hash, s) && s.up == [Flight(client, a)] && s.down == []
    requires s.nodes[0].pending == 0 && Apart(hash, a, c) && s.nodes[0].guard != Some(hash(c))
    ensures AllPlain(moves) && Play(hash, s, moves).Some? && Settled(Play(hash, s, moves).value)
    ensures forall d :: !Agreed(hash, Play(hash, s, moves).value, d)
  {
    var n, mid, taken, t := s.Clients(), s, s, s;
    moves, mid := HubTakes(hash, s, client, a, c);
    FanOutShaped(n, None, c);
    FanOutShaped(n, Some(client), a);
    moves, taken := TakeAllDown(hash, s, moves, mid);
    LastToFanOut(AllLive(n), None, c, client);
    LastAfterRelay(FanOut(AllLive(n), None, c), n, client, a, client);
    assert Took(mid.nodes[client + 1], taken.nodes[client + 1], mid.down, client);
    moves, t := QuietenAll(hash, s, moves, taken);
    forall d ensures !Agreed(hash, t, d) {
      assert t.nodes[0].clip == a && t.nodes[client + 1].clip == c;
    }
  }

  /**
   Two copies at once: each client ends with the text of the other, although
   messages are handled in order, none is lost and everything has settled.
   */
  lemma TwoCopiesAtOnceDisagree(hash: Hash, s: Star, a: Content, b: Content) returns (moves: seq<Move>)
    requires Settled(s) && s.Clients() == 2 && Apart(hash, a, b)
    requires s.nodes[1].guard != Some(hash(a)) && s.nodes[2].guard != Some(hash(b))
    ensures AllPlain(moves) && Play(hash, s, moves).Some? && Settled(Play(hash, s, moves).value)
    ensures var end := Play(hash, s, moves).value;
            |end.nodes| == 3 && end.nodes[0].clip == b && end.nodes[1].clip == b && end.nodes[2].clip == a
  {
    assert s.nodes[1] in s.nodes && s.nodes[2] in s.nodes;
    var first, t;
    moves, first := CopyRelayed(hash, s, [], s, 1, a);
    LastAfterRelay([], 2, 0, a, 1);
    assert s.down + FanOut(AllLive(2), Some(0), a) == [] + FanOut(AllLive(2), Some(0), a);
    FanOutShaped(2, Some(0), a);
    moves, t := CopyCrossesMessage(hash, s, moves, first, 2, b);
  }
}
