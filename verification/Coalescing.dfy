/**
 Collapsing runs of absolute positions (`push_coalesced`,
 apps/tailkvm-ui/src-tauri/src/session/wire.rs) and the outbound drain of the
 controller session (apps/tailkvm-ui/src-tauri/src/session/controller.rs).
 */
module Coalescing {
  import opened Basics
  import opened Protocol

  predicate IsPosition(m: WireMessage) {
    m.MouseSetPosition?
  }

  function PushCoalesced(batch: seq<WireMessage>, next: WireMessage): seq<WireMessage> {
    if IsPosition(next) && batch != [] && IsPosition(batch[|batch| - 1])
    then batch[|batch| - 1 := next]
    else batch + [next]
  }

  /** A pending write batch, edited in place. */
  class Batch {
    var items: seq<WireMessage>

    constructor (first: WireMessage)
      ensures items == [first]
    {
      items := [first];
    }

    method Push(next: WireMessage)
      modifies this
      ensures items == PushCoalesced(old(items), next)
    {
      if IsPosition(next) && items != [] && IsPosition(items[|items| - 1]) {
        items := items[..|items| - 1] + [next];
      } else {
        items := items + [next];
      }
    }
  }

  /** Reference: every position that another position follows is left out. */
  function WithoutSuperseded(ms: seq<WireMessage>): seq<WireMessage> {
    if |ms| <= 1 then ms
    else if IsPosition(ms[0]) && IsPosition(ms[1]) then WithoutSuperseded(ms[1..])
    else [ms[0]] + WithoutSuperseded(ms[1..])
  }

  lemma {:induction false} LastIsKept(ms: seq<WireMessage>)
    requires ms != []
    ensures WithoutSuperseded(ms) != [] && WithoutSuperseded(ms)[|WithoutSuperseded(ms)| - 1] == ms[|ms| - 1]
  {
    if |ms| > 1 {
      LastIsKept(ms[1..]);
    }
  }

  lemma PushBehind(m: WireMessage, rest: seq<WireMessage>, next: WireMessage)
    requires rest != []
    ensures PushCoalesced([m] + rest, next) == [m] + PushCoalesced(rest, next)
  {
  }

  lemma {:induction false} PushIsReference(ms: seq<WireMessage>, next: WireMessage)
    requires ms != []
    ensures WithoutSuperseded(ms + [next]) == PushCoalesced(WithoutSuperseded(ms), next)
  {
    var more := ms + [next];
    if |ms| > 1 {
      assert more[0] == ms[0] && more[1] == ms[1] && more[1..] == ms[1..] + [next];
      PushIsReference(ms[1..], next);
      LastIsKept(ms[1..]);
      PushBehind(ms[0], WithoutSuperseded(ms[1..]), next);
    } else {
      assert more == [ms[0], next] && more[1..] == [next];
    }
  }

  /** Everything but positions, in order. */
  function NonPositions(ms: seq<WireMessage>): seq<WireMessage> {
    if ms == [] then []
    else (if IsPosition(ms[0]) then [] else [ms[0]]) + NonPositions(ms[1..])
  }

  predicate NoAdjacentPositions(ms: seq<WireMessage>) {
    forall i | 0 <= i < |ms| - 1 :: !(IsPosition(ms[i]) && IsPosition(ms[i + 1]))
  }

  /** Nothing but superseded positions is lost, and no two positions stay adjacent. */
  lemma {:induction false} CoalescedShape(ms: seq<WireMessage>)
    ensures NonPositions(WithoutSuperseded(ms)) == NonPositions(ms)
    ensures NoAdjacentPositions(WithoutSuperseded(ms))
    ensures ms != [] ==> WithoutSuperseded(ms) != [] && (IsPosition(WithoutSuperseded(ms)[0]) <==> IsPosition(ms[0]))
  {
    if |ms| > 1 {
      CoalescedShape(ms[1..]);
      var rest := WithoutSuperseded(ms[1..]);
      if !(IsPosition(ms[0]) && IsPosition(ms[1])) {
        assert ([ms[0]] + rest)[1..] == rest;
      }
    }
  }

  // ----- meaning -----

  /** A step sees the message and what its environment decides when it is handled. */
  function Fold<S, E>(step: (S, WireMessage, E) -> S, s: S, ms: seq<WireMessage>, es: seq<E>): S
    requires |ms| == |es|
  {
    if ms == [] then s else Fold(step, step(s, ms[0], es[0]), ms[1..], es[1..])
  }

  /** A later position makes an earlier one irrelevant. */
  ghost predicate Overwrites<S(!new), E(!new)>(step: (S, WireMessage, E) -> S) {
    forall s, p, q, e | IsPosition(p) && IsPosition(q) :: step(step(s, p, e), q, e) == step(s, q, e)
  }

  lemma {:induction false} FoldAppend<S, E>(step: (S, WireMessage, E) -> S, s: S, a: seq<WireMessage>, b: seq<WireMessage>,
                                            ea: seq<E>, eb: seq<E>)
    requires |a| == |ea| && |b| == |eb|
    ensures Fold(step, s, a + b, ea + eb) == Fold(step, Fold(step, s, a, ea), b, eb)
  {
    if a == [] {
      assert a + b == b && ea + eb == eb;
    } else {
      assert (a + b)[1..] == a[1..] + b && (ea + eb)[1..] == ea[1..] + eb;
      FoldAppend(step, step(s, a[0], ea[0]), a[1..], b, ea[1..], eb);
    }
  }

  /** The same environments, each perhaps for several messages. */
  predicate Drawn<E(==)>(fs: seq<E>, es: seq<E>) {
    forall f | f in fs :: f in es
  }

  /**
   For every receiver on which a position overwrites the previous one, having
   handled some part of a coalesced batch is having handled some part of the
   original one, a superseded position in the environment of its successor; and
   all of it corresponds to all of it.
   */
  lemma {:induction false} PartOfCoalesced<S(!new), E(!new)>(step: (S, WireMessage, E) -> S, s: S, ms: seq<WireMessage>, es: seq<E>)
    returns (fs: seq<E>)
    requires Overwrites(step) && |es| <= |WithoutSuperseded(ms)|
    ensures |fs| <= |ms| && Drawn(fs, es)
    ensures Fold(step, s, WithoutSuperseded(ms)[..|es|], es) == Fold(step, s, ms[..|fs|], fs)
    ensures |es| == |WithoutSuperseded(ms)| ==> |fs| == |ms|
    ensures es != [] ==> fs != [] && fs[0] == es[0]
  {
    var out, n := WithoutSuperseded(ms), |es|;
    if |ms| <= 1 {
      fs := es;
    } else if n == 0 {
      fs := [];
      CoalescedShape(ms);
    } else if IsPosition(ms[0]) && IsPosition(ms[1]) {
      var gs := PartOfCoalesced(step, s, ms[1..], es);
      fs := [gs[0]] + gs;
      assert ms[..|fs|][1..] == ms[1..][..|gs|] && fs[1..] == gs;
      assert ms[1..][..|gs|][0] == ms[1];
    } else {
      var gs := PartOfCoalesced(step, step(s, ms[0], es[0]), ms[1..], es[1..]);
      fs := [es[0]] + gs;
      assert ms[..|fs|][1..] == ms[1..][..|gs|] && fs[1..] == gs;
      assert out[..n][1..] == out[1..][..n - 1];
    }
  }

  // ----- the controller's outbound side -----

  /** What wakes the session: messages in the channel, or the heartbeat timer. */
  datatype Wake = Outbound(more: nat) | Beat(seqNo: nat, unixMs: nat)

  /** `more` further messages are queued when the first one is taken. */
  function TakenBy(queue: seq<WireMessage>, more: nat): nat
    requires queue != []
  {
    Min(1 + more, |queue|)
  }

  /** The messages written for a queue under a schedule. */
  function Written(queue: seq<WireMessage>, plan: seq<Wake>): seq<WireMessage> {
    if plan == [] then []
    else match plan[0]
      case Beat(n, t) => [Heartbeat(n, t)] + Written(queue, plan[1..])
      case Outbound(more) =>
        if queue == [] then Written(queue, plan[1..])
        else
          var k := TakenBy(queue, more);
          WithoutSuperseded(queue[..k]) + Written(queue[k..], plan[1..])
  }

  /** How much of the queue a schedule drains. */
  function Drained(queue: seq<WireMessage>, plan: seq<Wake>): (n: nat)
    ensures n <= |queue|
  {
    if plan == [] then 0
    else match plan[0]
      case Beat(_, _) => Drained(queue, plan[1..])
      case Outbound(more) =>
        if queue == [] then 0
        else
          var k := TakenBy(queue, more);
          k + Drained(queue[k..], plan[1..])
  }

  /** The messages that the wake-ups of a schedule find. */
  function Offered(plan: seq<Wake>): (n: nat) {
    if plan == [] then 0 else (if plan[0].Outbound? then 1 + plan[0].more else 0) + Offered(plan[1..])
  }

  /** Each wake-up takes what it finds, so long as there is anything. */
  lemma {:induction false} DrainsWhatIsOffered(queue: seq<WireMessage>, plan: seq<Wake>)
    ensures Drained(queue, plan) == Min(Offered(plan), |queue|)
    decreases |plan|
  {
    if plan != [] {
      if plan[0].Outbound? && queue != [] {
        DrainsWhatIsOffered(queue[TakenBy(queue, plan[0].more)..], plan[1..]);
      } else {
        DrainsWhatIsOffered(queue, plan[1..]);
      }
    }
  }

  function Heartbeats(ms: seq<WireMessage>): seq<WireMessage> {
    if ms == [] then [] else (if ms[0].Heartbeat? then [ms[0]] else []) + Heartbeats(ms[1..])
  }

  lemma {:induction false} HeartbeatsAppend(a: seq<WireMessage>, b: seq<WireMessage>)
    ensures Heartbeats(a + b) == Heartbeats(a) + Heartbeats(b)
  {
    if a == [] {
      assert a + b == b;
    } else {
      assert (a + b)[1..] == a[1..] + b;
      HeartbeatsAppend(a[1..], b);
    }
  }

  lemma {:induction false} HeartbeatsKept(ms: seq<WireMessage>)
    ensures Heartbeats(WithoutSuperseded(ms)) == Heartbeats(ms)
  {
    if |ms| > 1 {
      HeartbeatsKept(ms[1..]);
      var rest := WithoutSuperseded(ms[1..]);
      assert ([ms[0]] + rest)[1..] == rest;
    }
  }

  function Beats(plan: seq<Wake>): seq<WireMessage> {
    if plan == [] then []
    else (if plan[0].Beat? then [Heartbeat(plan[0].seqNo, plan[0].unixMs)] else []) + Beats(plan[1..])
  }

  lemma {:induction false} NoHeartbeats(ms: seq<WireMessage>)
    requires forall m | m in ms :: !m.Heartbeat?
    ensures Heartbeats(ms) == []
  {
    if ms != [] {
      NoHeartbeats(ms[1..]);
    }
  }

  /** Every timer wake-up writes its heartbeat, in order. */
  lemma {:induction false} BeatsAreWritten(queue: seq<WireMessage>, plan: seq<Wake>)
    requires forall m | m in queue :: !m.Heartbeat?
    ensures Heartbeats(Written(queue, plan)) == Beats(plan)
    decreases |plan|
  {
    if plan != [] {
      var k := FirstTaken(queue, plan[0]);
      WrittenNext(queue, plan);
      BeatsAreWritten(queue[k..], plan[1..]);
      HeartbeatsAppend(FirstWritten(queue, plan[0]), Written(queue[k..], plan[1..]));
      if plan[0].Outbound? {
        HeartbeatsKept(queue[..k]);
        NoHeartbeats(queue[..k]);
      }
    }
  }

  class Outbox {
    var queue: seq<WireMessage>
    var written: seq<WireMessage>

    constructor (queue: seq<WireMessage>)
      ensures this.queue == queue && written == []
    {
      this.queue, written := queue, [];
    }

    /** One wake-up: drain what is there into a batch, then write the batch. */
    method DrainBatch(more: nat)
      modifies this
      ensures old(queue) == [] ==> queue == [] && written == old(written)
      ensures old(queue) != [] ==>
        && queue == old(queue)[TakenBy(old(queue), more)..]
        && written == old(written) + WithoutSuperseded(old(queue)[..TakenBy(old(queue), more)])
    {
      if queue == [] {
        return;
      }
      ghost var q := queue;
      var batch := new Batch(queue[0]);
      queue := queue[1..];
      var left := more;
      while queue != [] && left > 0
        invariant 0 <= left <= more && |queue| + 1 + more - left == |q|
        invariant queue == q[1 + more - left..] && written == old(written)
        invariant batch.items == WithoutSuperseded(q[..1 + more - left])
      {
        ghost var taken := q[..1 + more - left];
        PushIsReference(taken, queue[0]);
        assert q[..2 + more - left] == taken + [queue[0]];
        batch.Push(queue[0]);
        queue := queue[1..];
        left := left - 1;
      }
      assert 1 + more - left == TakenBy(q, more);
      written := written + batch.items;
    }

    method Serve(w: Wake)
      modifies this
      ensures written == old(written) + FirstWritten(old(queue), w)
      ensures queue == old(queue)[FirstTaken(old(queue), w)..]
    {
      match w
      case Beat(n, t) => written := written + [Heartbeat(n, t)];
      case Outbound(more) => DrainBatch(more);
    }

    method Run(plan: seq<Wake>)
      modifies this
      ensures written == old(written) + Written(old(queue), plan)
      ensures queue == old(queue)[Drained(old(queue), plan)..]
      decreases |plan|
    {
      if plan != [] {
        WrittenNext(old(queue), plan);
        Serve(plan[0]);
        ghost var left := queue;
        Run(plan[1..]);
        Associate(old(written), FirstWritten(old(queue), plan[0]), Written(left, plan[1..]));
        assert queue == left[Drained(left, plan[1..])..];
      }
    }
  }

  lemma Associate<T>(a: seq<T>, b: seq<T>, c: seq<T>)
    ensures a + b + c == a + (b + c)
  {
  }

  /** What one wake-up writes, and how much of the queue it takes. */
  function FirstWritten(queue: seq<WireMessage>, w: Wake): seq<WireMessage> {
    match w
    case Beat(n, t) => [Heartbeat(n, t)]
    case Outbound(more) => if queue == [] then [] else WithoutSuperseded(queue[..TakenBy(queue, more)])
  }

  function FirstTaken(queue: seq<WireMessage>, w: Wake): (n: nat)
    ensures n <= |queue|
  {
    if w.Beat? || queue == [] then 0 else TakenBy(queue, w.more)
  }

  lemma WrittenNext(queue: seq<WireMessage>, plan: seq<Wake>)
    requires plan != []
    ensures var k := FirstTaken(queue, plan[0]);
            && Written(queue, plan) == FirstWritten(queue, plan[0]) + Written(queue[k..], plan[1..])
            && Drained(queue, plan) == k + Drained(queue[k..], plan[1..])
  {
    assert queue[0..] == queue;
  }

  /** Heartbeats leave the receiver state that the queue determines alone. */
  ghost predicate IgnoresHeartbeats<S(!new), E(!new)>(step: (S, WireMessage, E) -> S) {
    forall s, n, t, e :: step(s, Heartbeat(n, t), e) == s
  }

  /**
   Whatever part of the written messages has been handled, and whatever the
   environment did at each, it is as if some part of the queue had been handled
   message by message; all of them amount to everything drained.
   */
  lemma {:induction false} PartOfWritten<S(!new), E(!new)>(step: (S, WireMessage, E) -> S, s: S, queue: seq<WireMessage>,
                                                           plan: seq<Wake>, es: seq<E>)
    returns (fs: seq<E>)
    requires Overwrites(step) && IgnoresHeartbeats(step) && |es| <= |Written(queue, plan)|
    ensures |fs| <= Drained(queue, plan) && Drawn(fs, es)
    ensures Fold(step, s, Written(queue, plan)[..|es|], es) == Fold(step, s, queue[..|fs|], fs)
    ensures |es| == |Written(queue, plan)| ==> |fs| == Drained(queue, plan)
    decreases |plan|
  {
    var out, n := Written(queue, plan), |es|;
    if plan == [] {
      fs := [];
    } else if plan[0].Beat? {
      var rest := Written(queue, plan[1..]);
      if n == 0 {
        fs := [];
      } else {
        fs := PartOfWritten(step, s, queue, plan[1..], es[1..]);
        assert out[..n][1..] == rest[..n - 1];
      }
    } else if queue == [] {
      fs := PartOfWritten(step, s, queue, plan[1..], es);
    } else {
      var k := TakenBy(queue, plan[0].more);
      var head, rest := WithoutSuperseded(queue[..k]), Written(queue[k..], plan[1..]);
      if n < |head| {
        fs := PartOfCoalesced(step, s, queue[..k], es);
        assert out[..n] == head[..n];
        assert queue[..k][..|fs|] == queue[..|fs|];
      } else {
        fs := PartOfBatches(step, s, queue, plan, k, es);
      }
    }
  }

  /** Behind the first batch comes what is written of the rest of the queue. */
  lemma FirstBatchWritten(queue: seq<WireMessage>, plan: seq<Wake>, n: nat)
    requires plan != [] && plan[0].Outbound? && queue != []
    requires |WithoutSuperseded(queue[..TakenBy(queue, plan[0].more)])| <= n <= |Written(queue, plan)|
    ensures var k := TakenBy(queue, plan[0].more);
            var head, rest := WithoutSuperseded(queue[..k]), Written(queue[k..], plan[1..]);
            Written(queue, plan) == head + rest && Written(queue, plan)[..n] == head + rest[..n - |head|]
  {
  }

  /** A whole batch, and some part of what is written after it. */
  lemma {:induction false} PartOfBatches<S(!new), E(!new)>(step: (S, WireMessage, E) -> S, s: S, queue: seq<WireMessage>,
                                                           plan: seq<Wake>, k: nat, es: seq<E>)
    returns (fs: seq<E>)
    requires Overwrites(step) && IgnoresHeartbeats(step) && plan != [] && plan[0].Outbound? && queue != []
    requires k == TakenBy(queue, plan[0].more) && |WithoutSuperseded(queue[..k])| <= |es| <= |Written(queue, plan)|
    ensures |fs| <= Drained(queue, plan) && Drawn(fs, es)
    ensures Fold(step, s, Written(queue, plan)[..|es|], es) == Fold(step, s, queue[..|fs|], fs)
    ensures |es| == |Written(queue, plan)| ==> |fs| == Drained(queue, plan)
    decreases |plan|, 0
  {
    var head, rest := WithoutSuperseded(queue[..k]), Written(queue[k..], plan[1..]);
    var h := |head|;
    var whole := PartOfCoalesced(step, s, queue[..k], es[..h]);
    assert head[..h] == head && queue[..k][..k] == queue[..k];
    FirstBatchWritten(queue, plan, |es|);
    var more := PartOfWritten(step, Fold(step, s, queue[..k], whole), queue[k..], plan[1..], es[h..]);
    fs := whole + more;
    assert es == es[..h] + es[h..];
    assert queue[..|fs|] == queue[..k] + queue[k..][..|more|];
    FoldAppend(step, s, head, rest[..|es| - h], es[..h], es[h..]);
    FoldAppend(step, s, queue[..k], queue[k..][..|more|], whole, more);
  }
}
