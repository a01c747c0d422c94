/**
 Motion datagrams over UDP (crates/tailkvm-net/src/motion.rs): the fixed binary
 frame, the sequence numbers of the sender and the gate of the receiver.
 */
module UdpMotion {
  import opened Basics

  const U64 := 0x1_0000_0000_0000_0000
  const U32 := 0x1_0000_0000
  const DATAGRAM_LEN := 17
  const TAG_SET_POSITION: Octet := 1
  const TAG_MOVE: Octet := 2

  type Octet = n: nat | n < 256
  type SeqNo = n: nat | n < U64
  type Int32 = i: int | -0x8000_0000 <= i < 0x8000_0000

  datatype Motion = SetPosition(x: Int32, y: Int32) | Move(dx: Int32, dy: Int32)

  datatype Datagram = Datagram(seqNo: SeqNo, motion: Motion)

  // ----- little-endian numbers -----

  function Pow256(k: nat): (p: nat)
    ensures p > 0
  {
    if k == 0 then 1 else 256 * Pow256(k - 1)
  }

  function ToLe(n: nat, k: nat): (bs: seq<Octet>)
    ensures |bs| == k
  {
    if k == 0 then [] else [n % 256] + ToLe(n / 256, k - 1)
  }

  function FromLe(bs: seq<Octet>): nat {
    if bs == [] then 0 else bs[0] + 256 * FromLe(bs[1..])
  }

  lemma {:induction false} FromToLe(n: nat, k: nat)
    requires n < Pow256(k)
    ensures FromLe(ToLe(n, k)) == n
  {
    if k > 0 {
      assert n / 256 < Pow256(k - 1);
      FromToLe(n / 256, k - 1);
      assert ToLe(n, k)[1..] == ToLe(n / 256, k - 1);
    }
  }

  lemma {:induction false} ToFromLe(bs: seq<Octet>)
    ensures FromLe(bs) < Pow256(|bs|)
    ensures ToLe(FromLe(bs), |bs|) == bs
  {
    if bs != [] {
      ToFromLe(bs[1..]);
      var n := FromLe(bs);
      assert n % 256 == bs[0] && n / 256 == FromLe(bs[1..]);
      assert bs == [bs[0]] + bs[1..];
    }
  }

  lemma Widths()
    ensures Pow256(4) == U32 && Pow256(8) == U64
  {
    assert Pow256(1) == 256 && Pow256(2) == 0x1_0000 && Pow256(3) == 0x100_0000 && Pow256(4) == U32;
    assert Pow256(5) == 256 * U32 && Pow256(6) == 0x1_0000 * U32 && Pow256(7) == 0x100_0000 * U32;
  }

  /** Two's complement. */
  function ToU32(i: Int32): (n: nat)
    ensures n < U32
  {
    if i < 0 then i + U32 else i
  }

  function FromU32(n: nat): Int32
    requires n < U32
  {
    if n < 0x8000_0000 then n else n - U32
  }

  function Int32At(bs: seq<Octet>): Int32
    requires |bs| == 4
  {
    ToFromLe(bs);
    Widths();
    FromU32(FromLe(bs))
  }

  lemma Int32RoundTrip(i: Int32, bs: seq<Octet>)
    requires |bs| == 4
    ensures Int32At(ToLe(ToU32(i), 4)) == i
    ensures ToLe(ToU32(Int32At(bs)), 4) == bs
  {
    Widths();
    FromToLe(ToU32(i), 4);
    ToFromLe(bs);
  }

  // ----- the frame -----

  function TagOf(m: Motion): Octet {
    if m.SetPosition? then TAG_SET_POSITION else TAG_MOVE
  }

  function Arguments(m: Motion): (Int32, Int32) {
    match m
    case SetPosition(x, y) => (x, y)
    case Move(dx, dy) => (dx, dy)
  }

  function Frame(seqNo: SeqNo, tag: Octet, a: Int32, b: Int32): (bs: seq<Octet>)
    ensures |bs| == DATAGRAM_LEN
  {
    ToLe(seqNo, 8) + [tag] + ToLe(ToU32(a), 4) + ToLe(ToU32(b), 4)
  }

  function Encoded(d: Datagram): (bs: seq<Octet>)
    ensures |bs| == DATAGRAM_LEN
  {
    Frame(d.seqNo, TagOf(d.motion), Arguments(d.motion).0, Arguments(d.motion).1)
  }

  function Decode(bs: seq<Octet>): Option<Datagram> {
    if |bs| != DATAGRAM_LEN then None
    else
      ToFromLe(bs[0..8]);
      Widths();
      var a, b := Int32At(bs[9..13]), Int32At(bs[13..17]);
      if bs[8] == TAG_SET_POSITION then Some(Datagram(FromLe(bs[0..8]), SetPosition(a, b)))
      else if bs[8] == TAG_MOVE then Some(Datagram(FromLe(bs[0..8]), Move(a, b)))
      else None
  }

  /** The buffer is filled field by field. */
  method Encode(d: Datagram) returns (buf: array<Octet>)
    ensures fresh(buf) && buf[..] == Encoded(d)
  {
    buf := new Octet[DATAGRAM_LEN](_ => 0);
    var (a, b) := Arguments(d.motion);
    CopyInto(buf, 0, ToLe(d.seqNo, 8));
    buf[8] := TagOf(d.motion);
    CopyInto(buf, 9, ToLe(ToU32(a), 4));
    CopyInto(buf, 13, ToLe(ToU32(b), 4));
    assert buf[..] == buf[0..8] + [buf[8]] + buf[9..13] + buf[13..17];
  }

  /** `copy_from_slice` at an offset. */
  method CopyInto(buf: array<Octet>, at: nat, bs: seq<Octet>)
    requires at + |bs| <= buf.Length
    modifies buf
    ensures buf[at..at + |bs|] == bs
    ensures forall i | 0 <= i < buf.Length && !(at <= i < at + |bs|) :: buf[i] == old(buf[i])
  {
    for i := 0 to |bs|
      invariant forall j | 0 <= j < i :: buf[at + j] == bs[j]
      invariant forall j | 0 <= j < buf.Length && !(at <= j < at + i) :: buf[j] == old(buf[j])
    {
      buf[at + i] := bs[i];
    }
  }

  lemma FrameParts(seqNo: SeqNo, tag: Octet, a: Int32, b: Int32)
    ensures var bs := Frame(seqNo, tag, a, b);
            && bs[0..8] == ToLe(seqNo, 8) && bs[8] == tag
            && bs[9..13] == ToLe(ToU32(a), 4) && bs[13..17] == ToLe(ToU32(b), 4)
  {
  }

  /** The i-th digit of n to the base 256, from the lowest. */
  function Digit(n: nat, i: nat): nat {
    if i == 0 then n % 256 else Digit(n / 256, i - 1)
  }

  lemma {:induction false} ByteOf(n: nat, k: nat, i: nat)
    requires i < k
    ensures ToLe(n, k)[i] == Digit(n, i)
  {
    if i > 0 {
      ByteOf(n / 256, k - 1, i - 1);
    }
  }

  /**
   The frame byte by byte: the number in bytes 0 to 7, the tag in byte 8, the two
   coordinates in two's complement in bytes 9 to 12 and 13 to 16, all low byte first.
   */
  lemma EncodedBytes(d: Datagram, i: nat)
    ensures var bs, (x, y) := Encoded(d), Arguments(d.motion);
            && bs[8] == (if d.motion.SetPosition? then 1 else 2)
            && (d.motion.SetPosition? ==> x == d.motion.x && y == d.motion.y)
            && (d.motion.Move? ==> x == d.motion.dx && y == d.motion.dy)
            && (i < 8 ==> bs[i] == Digit(d.seqNo, i))
            && (i < 4 ==> bs[9 + i] == Digit(x % U32, i) && bs[13 + i] == Digit(y % U32, i))
  {
    var (x, y) := Arguments(d.motion);
    FrameParts(d.seqNo, TagOf(d.motion), x, y);
    var bs := Encoded(d);
    if i < 8 {
      ByteOf(d.seqNo, 8, i);
      assert bs[i] == bs[0..8][i];
    }
    if i < 4 {
      ByteOf(ToU32(x), 4, i);
      ByteOf(ToU32(y), 4, i);
      assert bs[9 + i] == bs[9..13][i] && bs[13 + i] == bs[13..17][i];
    }
  }

  lemma DecodeEncoded(d: Datagram)
    ensures Decode(Encoded(d)) == Some(d)
  {
    var (a, b) := Arguments(d.motion);
    FrameParts(d.seqNo, TagOf(d.motion), a, b);
    Widths();
    FromToLe(d.seqNo, 8);
    Int32RoundTrip(a, ToLe(ToU32(a), 4));
    Int32RoundTrip(b, ToLe(ToU32(b), 4));
  }

  /** Whatever is accepted is the encoding of what it is taken for. */
  lemma EncodeDecoded(bs: seq<Octet>)
    requires Decode(bs).Some?
    ensures Encoded(Decode(bs).value) == bs
  {
    var d := Decode(bs).value;
    ToFromLe(bs[0..8]);
    Int32RoundTrip(Int32At(bs[9..13]), bs[9..13]);
    Int32RoundTrip(Int32At(bs[13..17]), bs[13..17]);
    assert bs == bs[0..8] + [bs[8]] + bs[9..13] + bs[13..17];
  }

  /** Decoding accepts exactly the image of encoding, and is its inverse. */
  lemma AcceptsExactlyEncodings(bs: seq<Octet>, d: Datagram)
    ensures Decode(bs) == Some(d) <==> bs == Encoded(d)
    ensures Decode(bs).Some? <==> |bs| == DATAGRAM_LEN && bs[8] in {TAG_SET_POSITION, TAG_MOVE}
  {
    DecodeEncoded(d);
    if Decode(bs).Some? {
      EncodeDecoded(bs);
    }
  }

  // ----- sequence numbers -----

  class SeqSource {
    var next: SeqNo

    constructor ()
      ensures next == 0
    {
      next := 0;
    }

    method NextSeq() returns (n: SeqNo)
      modifies this
      ensures n == old(next) && next == (old(next) + 1) % U64
    {
      n := next;
      next := if next == U64 - 1 then 0 else next + 1;
    }
  }

  /** The high-water mark after some numbers. */
  function Mark(ns: seq<SeqNo>): Option<SeqNo> {
    if ns == [] then None
    else
      var before, n := Mark(ns[..|ns| - 1]), ns[|ns| - 1];
      if Newer(before, n) then Some(n) else before
  }

  predicate Newer(mark: Option<SeqNo>, n: SeqNo) {
    mark.None? || n > mark.value
  }

  class SeqGate {
    var last: Option<SeqNo>

    constructor ()
      ensures last == None
    {
      last := None;
    }

    method Accept(n: SeqNo) returns (ok: bool)
      modifies this
      ensures ok <==> Newer(old(last), n)
      ensures last == if ok then Some(n) else old(last)
    {
      if last.Some? && n <= last.value {
        return false;
      }
      last := Some(n);
      ok := true;
    }
  }

  /** The mark is the greatest number delivered. */
  lemma {:induction false} MarkIsGreatest(ns: seq<SeqNo>)
    ensures Mark(ns).None? <==> ns == []
    ensures Mark(ns).Some? ==> Mark(ns).value in ns && forall i | 0 <= i < |ns| :: ns[i] <= Mark(ns).value
  {
    if ns != [] {
      var front := ns[..|ns| - 1];
      MarkIsGreatest(front);
      assert forall i | 0 <= i < |front| :: front[i] == ns[i];
    }
  }

  /** A number is accepted exactly if it is a strict maximum of all delivered so far. */
  lemma AcceptedIffRecord(ns: seq<SeqNo>, n: SeqNo)
    ensures Newer(Mark(ns), n) <==> forall i | 0 <= i < |ns| :: ns[i] < n
  {
    MarkIsGreatest(ns);
  }

  /**
   After the counter has wrapped, every number up to one that was delivered before
   is refused; for good, if that one was the last before the wrap.
   */
  lemma WrappedIsStuck(ns: seq<SeqNo>, m: SeqNo, n: SeqNo)
    requires m in ns
    ensures n <= m || m == U64 - 1 ==> !Newer(Mark(ns), n)
  {
    MarkIsGreatest(ns);
  }

  // ----- loss, duplication and reordering -----

  function Numbers(ds: seq<Datagram>): (ns: seq<SeqNo>)
    ensures |ns| == |ds| && forall i | 0 <= i < |ds| :: ns[i] == ds[i].seqNo
  {
    seq(|ds|, i requires 0 <= i < |ds| => ds[i].seqNo)
  }

  /** The datagrams let through, in order of arrival. */
  function Applied(ds: seq<Datagram>): seq<Datagram> {
    if ds == [] then []
    else
      var front, d := ds[..|ds| - 1], ds[|ds| - 1];
      Applied(front) + if Newer(Mark(Numbers(front)), d.seqNo) then [d] else []
  }

  predicate Increasing(ds: seq<Datagram>) {
    forall i, j | 0 <= i < j < |ds| :: ds[i].seqNo < ds[j].seqNo
  }

  lemma AppliedNext(ds: seq<Datagram>, d: Datagram)
    ensures var mark := Mark(Numbers(ds));
            && Applied(ds + [d]) == Applied(ds) + (if Newer(mark, d.seqNo) then [d] else [])
            && Mark(Numbers(ds + [d])) == (if Newer(mark, d.seqNo) then Some(d.seqNo) else mark)
  {
    assert (ds + [d])[..|ds|] == ds;
    assert Numbers(ds + [d])[..|ds|] == Numbers(ds);
  }

  lemma IncreasingAppend(a: seq<Datagram>, d: Datagram)
    requires Increasing(a) && (a != [] ==> a[|a| - 1].seqNo < d.seqNo)
    ensures Increasing(a + [d])
  {
    assert forall i | 0 <= i < |a| :: a[i].seqNo <= a[|a| - 1].seqNo;
  }

  /** None is applied twice, none after a newer one, and the newest is the last. */
  ghost predicate InOrder(ds: seq<Datagram>, applied: seq<Datagram>) {
    && Increasing(applied)
    && (forall d | d in applied :: d in ds)
    && Mark(Numbers(ds)) == (if applied == [] then None else Some(applied[|applied| - 1].seqNo))
    && (ds != [] ==> applied != [])
  }

  lemma InOrderNext(ds: seq<Datagram>, d: Datagram)
    requires InOrder(ds, Applied(ds))
    ensures InOrder(ds + [d], Applied(ds + [d]))
  {
    AppliedNext(ds, d);
    if Newer(Mark(Numbers(ds)), d.seqNo) {
      IncreasingAppend(Applied(ds), d);
    }
  }

  lemma {:induction false} AppliedInOrder(ds: seq<Datagram>)
    ensures InOrder(ds, Applied(ds))
  {
    if ds != [] {
      var front, d := ds[..|ds| - 1], ds[|ds| - 1];
      AppliedInOrder(front);
      InOrderNext(front, d);
      assert ds == front + [d];
    }
  }

  function Moved(p: (int, int), m: Motion): (int, int) {
    match m
    case SetPosition(x, y) => (x, y)
    case Move(dx, dy) => (p.0 + dx, p.1 + dy)
  }

  function Cursor(start: (int, int), applied: seq<Datagram>): (int, int) {
    if applied == [] then start
    else Moved(Cursor(start, applied[..|applied| - 1]), applied[|applied| - 1].motion)
  }

  lemma CursorNext(start: (int, int), applied: seq<Datagram>, d: Datagram)
    ensures Cursor(start, applied + [d]) == Moved(Cursor(start, applied), d.motion)
  {
    assert (applied + [d])[..|applied|] == applied;
  }

  function Travel(ds: seq<Datagram>): (int, int) {
    if ds == [] then (0, 0)
    else
      var rest := Travel(ds[1..]);
      match ds[0].motion
      case SetPosition(_, _) => rest
      case Move(dx, dy) => (dx + rest.0, dy + rest.1)
  }

  lemma {:induction false} TravelLast(ds: seq<Datagram>, d: Datagram)
    requires d.motion.Move?
    ensures Travel(ds + [d]) == (Travel(ds).0 + d.motion.dx, Travel(ds).1 + d.motion.dy)
  {
    if ds == [] {
      assert ds + [d] == [d] && [d][1..] == [];
    } else {
      assert (ds + [d])[1..] == ds[1..] + [d];
      TravelLast(ds[1..], d);
    }
  }

  /** Behind an absolute position the cursor is that position plus the relative motion applied since. */
  lemma {:induction false} CursorTravels(start: (int, int), before: seq<Datagram>, at: Datagram, since: seq<Datagram>)
    requires at.motion.SetPosition? && forall d | d in since :: d.motion.Move?
    ensures Cursor(start, before + [at] + since) == (at.motion.x + Travel(since).0, at.motion.y + Travel(since).1)
    decreases |since|
  {
    if since == [] {
      assert before + [at] + since == before + [at];
      CursorNext(start, before, at);
    } else {
      var front, last := since[..|since| - 1], since[|since| - 1];
      assert since == front + [last] && before + [at] + since == before + [at] + front + [last];
      CursorTravels(start, before, at, front);
      CursorNext(start, before + [at] + front, last);
      TravelLast(front, last);
    }
  }

  /** Arrivals of a sender: the k-th one is the datagram that was sent as number ix[k]. */
  ghost predicate Delivery(sent: seq<Motion>, ix: seq<nat>, ds: seq<Datagram>) {
    && |sent| <= U64 && |ds| == |ix|
    && forall k | 0 <= k < |ix| :: ix[k] < |sent| && ds[k] == Datagram(ix[k], sent[ix[k]])
  }

  /**
   However datagrams are lost, duplicated and reordered, with only absolute
   positions the cursor ends at the one of the greatest number delivered.
   */
  lemma NewestWins(sent: seq<Motion>, ix: seq<nat>, ds: seq<Datagram>, start: (int, int), m: nat)
    requires Delivery(sent, ix, ds) && forall i | 0 <= i < |sent| :: sent[i].SetPosition?
    requires m in ix && forall k | 0 <= k < |ix| :: ix[k] <= m
    ensures Cursor(start, Applied(ds)) == (sent[m].x, sent[m].y)
  {
    AppliedInOrder(ds);
    MarkIsGreatest(Numbers(ds));
    var k :| 0 <= k < |ix| && ix[k] == m;
    assert Numbers(ds)[k] == m;
    var a := Applied(ds);
    var last := a[|a| - 1];
    assert last in ds && last.seqNo == m;
    assert last == Datagram(m, sent[m]);
  }

  method SendOne(source: SeqSource, motion: Motion) returns (packet: seq<Octet>)
    modifies source
    ensures Decode(packet) == Some(Datagram(old(source.next), motion))
    ensures source.next == (old(source.next) + 1) % U64
  {
    var n := source.NextSeq();
    var buf := Encode(Datagram(n, motion));
    DecodeEncoded(Datagram(n, motion));
    packet := buf[..];
  }

  /** The sender numbers and frames every motion. */
  method SendAll(motions: seq<Motion>) returns (wire: seq<seq<Octet>>)
    ensures |wire| == |motions|
    ensures forall i | 0 <= i < |wire| :: Decode(wire[i]) == Some(Datagram(i % U64, motions[i]))
  {
    var source := new SeqSource();
    wire := [];
    for i := 0 to |motions|
      invariant fresh(source) && |wire| == i && source.next == i % U64
      invariant forall j | 0 <= j < i :: Decode(wire[j]) == Some(Datagram(j % U64, motions[j]))
    {
      var packet := SendOne(source, motions[i]);
      wire := wire + [packet];
    }
  }

  /** The datagrams among some packets; anything else is dropped. */
  function Genuine(packets: seq<seq<Octet>>): seq<Datagram> {
    if packets == [] then []
    else
      var d := Decode(packets[|packets| - 1]);
      Genuine(packets[..|packets| - 1]) + if d.Some? then [d.value] else []
  }

  lemma GenuineNext(packets: seq<seq<Octet>>, packet: seq<Octet>)
    ensures var d := Decode(packet);
            Genuine(packets + [packet]) == if d.Some? then Genuine(packets) + [d.value] else Genuine(packets)
  {
    assert (packets + [packet])[..|packets|] == packets;
  }

  /** Frames are taken for what they are, and anything among them that is none is passed over. */
  lemma {:induction false} GenuineAre(ds: seq<Datagram>, packets: seq<seq<Octet>>, junk: seq<Octet>)
    requires |packets| == |ds| && (forall i | 0 <= i < |ds| :: packets[i] == Encoded(ds[i])) && Decode(junk).None?
    ensures Genuine(packets) == ds && Genuine(packets + [junk]) == ds
  {
    GenuineNext(packets, junk);
    if ds != [] {
      var n := |ds| - 1;
      GenuineAre(ds[..n], packets[..n], junk);
      DecodeEncoded(ds[n]);
      assert ds == ds[..n] + [ds[n]];
    }
  }

  /** One datagram at the gate, after those in `before`. */
  method ReceiveOne(gate: SeqGate, d: Datagram, ghost before: seq<Datagram>, start: (int, int),
                    cursor: (int, int), applied: seq<Datagram>)
    returns (cursor': (int, int), applied': seq<Datagram>)
    requires gate.last == Mark(Numbers(before)) && applied == Applied(before) && cursor == Cursor(start, applied)
    modifies gate
    ensures gate.last == Mark(Numbers(before + [d]))
    ensures applied' == Applied(before + [d]) && cursor' == Cursor(start, applied')
  {
    AppliedNext(before, d);
    CursorNext(start, applied, d);
    cursor', applied' := cursor, applied;
    var ok := gate.Accept(d.seqNo);
    if ok {
      cursor', applied' := Moved(cursor, d.motion), applied + [d];
    }
  }

  /** What the receiver does with packets from the expected peer. */
  method ReceiveAll(packets: seq<seq<Octet>>, start: (int, int)) returns (cursor: (int, int), applied: seq<Datagram>)
    ensures applied == Applied(Genuine(packets))
    ensures cursor == Cursor(start, applied)
  {
    var gate := new SeqGate();
    cursor, applied := start, [];
    for i := 0 to |packets|
      invariant fresh(gate) && gate.last == Mark(Numbers(Genuine(packets[..i])))
      invariant applied == Applied(Genuine(packets[..i])) && cursor == Cursor(start, applied)
    {
      GenuineNext(packets[..i], packets[i]);
      assert packets[..i + 1] == packets[..i] + [packets[i]];
      var d := Decode(packets[i]);
      if d.Some? {
        cursor, applied := ReceiveOne(gate, d.value, Genuine(packets[..i]), start, cursor, applied);
      }
    }
    assert packets[..|packets|] == packets;
  }
}
