/**
 The capped line reader (`read_capped_line`,
 apps/tailkvm-ui/src-tauri/src/session/wire.rs). The future is polled against
 the chunks that have arrived; a poll that finds none is pending, and dropping
 the future then loses nothing because all progress is in `buf`.
 */
module LineReader {
  import opened Basics
  import opened Protocol

  datatype ReadResult =
    | Pending
    | Line(text: seq<Byte>)
    | EndOfStream
    | TooLong
    | NotUtf8
    | ReadError

  // ----- reference: one simple split -----

  /** Position of the first newline, or the length. */
  function NewlineAt(s: seq<Byte>): (p: nat)
    ensures p <= |s| && forall i | 0 <= i < p :: s[i] != NEWLINE
    ensures p < |s| ==> s[p] == NEWLINE
  {
    if s == [] || s[0] == NEWLINE then 0 else 1 + NewlineAt(s[1..])
  }

  predicate OneLine(s: seq<Byte>) {
    forall i | 0 <= i < |s| :: s[i] != NEWLINE
  }

  function StripCr(s: seq<Byte>): seq<Byte> {
    if s != [] && s[|s| - 1] == CARRIAGE_RETURN then s[..|s| - 1] else s
  }

  /** A line may end in CR LF: one CR before the newline is no part of the text. */
  lemma CrLfIsLf(content: seq<Byte>)
    ensures StripCr(content + [CARRIAGE_RETURN]) == content
    ensures content == [] || content[|content| - 1] != CARRIAGE_RETURN ==> StripCr(content) == content
  {
  }

  /** The lines of a stream; a remainder without newline is a last line. */
  function Split(s: seq<Byte>): seq<seq<Byte>>
    decreases |s|
  {
    var p := NewlineAt(s);
    if p < |s| then [s[..p]] + Split(s[p + 1..])
    else if s == [] then [] else [s]
  }

  /** What one line of the given content yields. */
  function Outcome(content: seq<Byte>, max: nat, utf8: seq<Byte> -> bool): (r: ReadResult)
    ensures r.Line? || r.TooLong? || r.NotUtf8?
  {
    if |content| > max then TooLong
    else if utf8(StripCr(content)) then Line(StripCr(content))
    else NotUtf8
  }

  /** A line is refused exactly if it is longer than the cap or its text is no UTF-8; a line of the length of the cap passes. */
  lemma RefusedIff(content: seq<Byte>, max: nat, utf8: seq<Byte> -> bool)
    ensures Outcome(content, max, utf8) == TooLong <==> |content| > max
    ensures Outcome(content, max, utf8) == NotUtf8 <==> |content| <= max && !utf8(StripCr(content))
    ensures Outcome(content, max, utf8).Line? ==> Outcome(content, max, utf8).text == StripCr(content)
  {
  }

  /** Outcomes of the lines up to and including the first error. */
  function Outcomes(lines: seq<seq<Byte>>, max: nat, utf8: seq<Byte> -> bool): seq<ReadResult> {
    if lines == [] then []
    else
      var first := Outcome(lines[0], max, utf8);
      if first.Line? then [first] + Outcomes(lines[1..], max, utf8) else [first]
  }

  predicate EndsLine(s: seq<Byte>) {
    s == [] || s[|s| - 1] == NEWLINE
  }

  // ----- the reader -----

  function Concat(chunks: seq<seq<Byte>>): seq<Byte> {
    if chunks == [] then [] else chunks[0] + Concat(chunks[1..])
  }

  lemma {:induction false} ConcatAppend(chunks: seq<seq<Byte>>, c: seq<Byte>)
    ensures Concat(chunks + [c]) == Concat(chunks) + c
  {
    if chunks == [] {
      assert chunks + [c] == [c];
    } else {
      ConcatAppend(chunks[1..], c);
      assert (chunks + [c])[1..] == chunks[1..] + [c];
    }
  }

  /** What a poll yields on unread bytes `u`, however they were cut into chunks. */
  function Expected(u: seq<Byte>, eof: bool, failed: bool, max: nat, utf8: seq<Byte> -> bool): ReadResult {
    var p := NewlineAt(u);
    if p < |u| then Outcome(u[..p], max, utf8)
    else if |u| > max then TooLong
    else if failed then ReadError
    else if !eof then Pending
    else if u == [] then EndOfStream
    else Outcome(u, max, utf8)
  }

  /** The first newline is determined by what it is. */
  lemma NewlineAtUnique(s: seq<Byte>, p: nat)
    requires p <= |s| && (forall i | 0 <= i < p :: s[i] != NEWLINE)
    requires p < |s| ==> s[p] == NEWLINE
    ensures NewlineAt(s) == p
  {
  }

  lemma NewlineAtPrefix(s: seq<Byte>, t: seq<Byte>)
    requires OneLine(s)
    ensures NewlineAt(s + t) == |s| + NewlineAt(t)
  {
    var u := s + t;
    forall i | 0 <= i < |s| + NewlineAt(t) ensures u[i] != NEWLINE {
      assert u[i] == if i < |s| then s[i] else t[i - |s|];
    }
    NewlineAtUnique(u, |s| + NewlineAt(t));
  }

  /** A newline that has arrived stays the first one whatever follows. */
  lemma NewlineAtStable(s: seq<Byte>, t: seq<Byte>)
    requires NewlineAt(s) < |s|
    ensures NewlineAt(s + t) == NewlineAt(s)
  {
    var u := s + t;
    forall i | 0 <= i < NewlineAt(s) ensures u[i] != NEWLINE {
      assert u[i] == s[i];
    }
    NewlineAtUnique(u, NewlineAt(s));
  }

  lemma TerminatedChunk(buf: seq<Byte>, chunk: seq<Byte>, rest: seq<Byte>)
    requires OneLine(buf) && NewlineAt(chunk) < |chunk|
    ensures var u, p := buf + (chunk + rest), |buf| + NewlineAt(chunk);
            && NewlineAt(u) == p < |u|
            && u[..p] == buf + chunk[..NewlineAt(chunk)]
            && u[p + 1..] == (chunk + rest)[NewlineAt(chunk) + 1..]
  {
    var u, p := buf + (chunk + rest), |buf| + NewlineAt(chunk);
    forall i | 0 <= i < p ensures u[i] != NEWLINE {
      assert u[i] == if i < |buf| then buf[i] else chunk[i - |buf|];
    }
    NewlineAtUnique(u, p);
  }

  lemma OpenChunk(buf: seq<Byte>, chunk: seq<Byte>, rest: seq<Byte>)
    requires OneLine(buf) && NewlineAt(chunk) == |chunk|
    ensures OneLine(buf + chunk)
    ensures buf + (chunk + rest) == buf + chunk + rest
    ensures (chunk + rest)[|chunk|..] == rest
    ensures |buf| + |chunk| <= NewlineAt(buf + (chunk + rest))
  {
    var open := buf + chunk;
    assert buf + (chunk + rest) == open + rest;
    forall i | 0 <= i < |open| ensures open[i] != NEWLINE {
      assert open[i] == if i < |buf| then buf[i] else chunk[i - |buf|];
    }
    NewlineAtPrefix(open, rest);
  }

  /** What is left after the first line. */
  function AfterLine(u: seq<Byte>): seq<Byte> {
    u[Min(NewlineAt(u) + 1, |u|)..]
  }

  datatype Taken = More | Whole | Over

  class Reader {
    const max: nat
    const utf8: seq<Byte> -> bool
    var buf: seq<Byte>
    /** Chunks that arrived and were not consumed; then end of stream or an error. */
    var chunks: seq<seq<Byte>>
    var eof: bool
    var failed: bool

    /** The accumulator never exceeds the cap. */
    ghost predicate Valid()
      reads this
    {
      |buf| <= max && OneLine(buf) && forall i | 0 <= i < |chunks| :: chunks[i] != []
    }

    ghost function Unread(): seq<Byte>
      reads this
    {
      buf + Concat(chunks)
    }

    constructor (max: nat, utf8: seq<Byte> -> bool)
      ensures Valid() && this.max == max && this.utf8 == utf8
      ensures Unread() == [] && !eof && !failed
    {
      this.max, this.utf8 := max, utf8;
      buf, chunks, eof, failed := [], [], false, false;
    }

    method Arrive(c: seq<Byte>)
      requires Valid()
      modifies this
      ensures Valid() && eof == old(eof) && failed == old(failed)
      ensures Unread() == old(Unread()) + c
    {
      if c != [] {
        ConcatAppend(chunks, c);
        assert buf + (Concat(chunks) + c) == buf + Concat(chunks) + c;
        chunks := chunks + [c];
      }
    }

    /** `consume` of the buffered reader, on the chunk `fill_buf` returned. */
    method Consume(n: nat)
      requires chunks != [] && n <= |chunks[0]|
      requires forall i | 0 <= i < |chunks| :: chunks[i] != []
      modifies this`chunks
      ensures Concat(chunks) == old(Concat(chunks))[n..]
      ensures forall i | 0 <= i < |chunks| :: chunks[i] != []
      ensures |chunks| <= |old(chunks)| && (n == |old(chunks)[0]| ==> |chunks| < |old(chunks)|)
    {
      var rest := chunks[0][n..];
      ghost var later := chunks[1..];
      assert (chunks[0] + Concat(later))[n..] == rest + Concat(later);
      if rest == [] {
        chunks := chunks[1..];
      } else {
        chunks := [rest] + chunks[1..];
        assert chunks[1..] == later;
      }
    }

    /** One turn of the read loop on the chunk at hand. */
    method TakeChunk() returns (t: Taken)
      requires Valid() && chunks != []
      modifies this`buf, this`chunks
      ensures Valid()
      ensures t.More? ==> Unread() == old(Unread()) && |chunks| < |old(chunks)|
      ensures t.Over? ==> NewlineAt(old(Unread())) > max
      ensures t.Whole? ==>
        var u := old(Unread());
        NewlineAt(u) < |u| && buf == u[..NewlineAt(u)] && Concat(chunks) == u[NewlineAt(u) + 1..]
    {
      var chunk := chunks[0];
      ghost var rest := Concat(chunks[1..]);
      var pos := NewlineAt(chunk);
      if pos < |chunk| {
        TerminatedChunk(buf, chunk, rest);
        var over := |buf| + pos > max;
        if !over {
          buf := buf + chunk[..pos];
        }
        Consume(pos + 1);
        if over {
          buf := [];
        }
        t := if over then Over else Whole;
      } else {
        OpenChunk(buf, chunk, rest);
        var over := |buf| + |chunk| > max;
        if !over {
          buf := buf + chunk;
        }
        Consume(|chunk|);
        if over {
          buf := [];
        }
        t := if over then Over else More;
      }
    }

    /** The accumulated line is taken out, stripped and checked. */
    method TakeLine() returns (r: ReadResult)
      requires Valid()
      modifies this`buf
      ensures Valid() && buf == []
      ensures r == Outcome(old(buf), max, utf8)
    {
      var line := buf;
      buf := [];
      if line != [] && line[|line| - 1] == CARRIAGE_RETURN {
        line := line[..|line| - 1];
      }
      r := if utf8(line) then Line(line) else NotUtf8;
    }

    method PollLine() returns (r: ReadResult)
      requires Valid()
      modifies this`buf, this`chunks
      ensures Valid()
      ensures r == Expected(old(Unread()), eof, failed, max, utf8)
      ensures r.Pending? || r.ReadError? || r.EndOfStream? ==> Unread() == old(Unread()) && chunks == []
      ensures r.Line? ==> Unread() == AfterLine(old(Unread())) && |Unread()| < |old(Unread())|
    {
      ghost var u := Unread();
      while true
        invariant Valid() && Unread() == u
        decreases |chunks|
      {
        if chunks == [] {
          assert u == buf;
          NewlineAtUnique(u, |u|);
          if failed {
            return ReadError;
          }
          if !eof {
            return Pending;
          }
          if buf == [] {
            return EndOfStream;
          }
          r := TakeLine();
          return;
        }
        var t := TakeChunk();
        if t.Over? {
          return TooLong;
        }
        if t.Whole? {
          r := TakeLine();
          return;
        }
      }
    }
  }

  /** A poll, with the part of the stream that a line came from. */
  method PollCut(reader: Reader) returns (r: ReadResult, ghost content: seq<Byte>, ghost end: seq<Byte>)
    requires reader.Valid()
    modifies reader`buf, reader`chunks
    ensures reader.Valid()
    ensures r.Pending? || r.EndOfStream? ==> reader.Unread() == old(reader.Unread())
    ensures r.EndOfStream? ==> reader.eof && reader.Unread() == []
    ensures r.Line? ==>
      && old(reader.Unread()) == content + end + reader.Unread()
      && r.text == StripCr(content) && OneLine(content) && |content| <= reader.max
      && (end == [NEWLINE] || (end == [] && content != [] && reader.eof && reader.Unread() == []))
    ensures r.ReadError? ==> reader.failed
    ensures r.TooLong? || r.NotUtf8? ==>
      BadLine(content, end, old(reader.Unread()), reader.eof, reader.max, reader.utf8)
  {
    ghost var u := reader.Unread();
    r := reader.PollLine();
    content, end := [], [];
    if r.Line? || r.TooLong? || r.NotUtf8? {
      if u != [] {
        content, end := CutFirstLine(u);
      }
    }
  }

  /** A first line that is longer than the cap, or complete and not text. */
  ghost predicate BadLine(content: seq<Byte>, end: seq<Byte>, u: seq<Byte>, eof: bool, max: nat, utf8: seq<Byte> -> bool) {
    && OneLine(content) && content + end <= u
    && (|content| > max
        || (!utf8(StripCr(content)) && (end == [NEWLINE] || (eof && content == u && content != []))))
  }

  // ----- a whole stream -----

  /** A line whose newline has arrived is the first line of the whole stream. */
  lemma FirstLineArrived(u: seq<Byte>, rest: seq<Byte>)
    requires NewlineAt(u) < |u|
    ensures Split(u + rest) == [u[..NewlineAt(u)]] + Split(u[NewlineAt(u) + 1..] + rest)
  {
    var s, p := u + rest, NewlineAt(u);
    forall i | 0 <= i < p ensures s[i] != NEWLINE {
      assert s[i] == u[i];
    }
    NewlineAtUnique(s, p);
    assert s[..p] == u[..p] && s[p + 1..] == u[p + 1..] + rest;
  }

  lemma SplitOne(c: seq<Byte>, end: seq<Byte>)
    requires OneLine(c) && (end == [NEWLINE] || (end == [] && c != []))
    ensures Split(c + end) == [c]
  {
    NewlineAtUnique(c + end, |c|);
    assert (c + end)[..|c|] == c;
    if end != [] {
      assert (c + end)[|c| + 1..] == [];
      assert Split(c + end) == [c] + Split([]);
    } else {
      assert c + end == c;
    }
  }

  lemma TailEndsLine(s: seq<Byte>, p: nat)
    requires p < |s| && EndsLine(s)
    ensures EndsLine(s[p + 1..])
  {
    var tail := s[p + 1..];
    if tail != [] {
      assert tail[|tail| - 1] == s[|s| - 1];
    }
  }

  lemma HasFirstLine(s: seq<Byte>)
    requires s != [] && EndsLine(s)
    ensures NewlineAt(s) < |s|
  {
    var p := NewlineAt(s);
    assert s[|s| - 1] == NEWLINE;
  }

  lemma SplitFirst(s: seq<Byte>, p: nat)
    requires p == NewlineAt(s) < |s|
    ensures Split(s) == [s[..p]] + Split(s[p + 1..])
  {
  }

  lemma CutLine(s: seq<Byte>, more: seq<Byte>) returns (p: nat)
    requires s != [] && EndsLine(s)
    ensures p < |s| && EndsLine(s[p + 1..])
    ensures Split(s) == [s[..p]] + Split(s[p + 1..])
    ensures Split(s + more) == [s[..p]] + Split(s[p + 1..] + more)
  {
    p := NewlineAt(s);
    HasFirstLine(s);
    TailEndsLine(s, p);
    SplitFirst(s, p);
    FirstLineArrived(s, more);
  }

  lemma Associative<T>(a: seq<T>, b: seq<T>, c: seq<T>)
    ensures a + (b + c) == a + b + c
  {
  }

  lemma {:induction false} SplitBehindLines(s: seq<Byte>, more: seq<Byte>)
    requires EndsLine(s)
    ensures Split(s + more) == Split(s) + Split(more)
    decreases |s|
  {
    if s == [] {
      assert s + more == more;
    } else {
      var p := CutLine(s, more);
      SplitBehindLines(s[p + 1..], more);
      Associative([s[..p]], Split(s[p + 1..]), Split(more));
    }
  }

  /** Split takes a stream apart line by line. */
  lemma SplitAppend(s: seq<Byte>, c: seq<Byte>, end: seq<Byte>)
    requires EndsLine(s) && OneLine(c) && (end == [NEWLINE] || (end == [] && c != []))
    ensures Split(s + (c + end)) == Split(s) + [c]
  {
    SplitBehindLines(s, c + end);
    SplitOne(c, end);
  }

  /** The first line of some bytes, its newline if it has one, and the rest. */
  lemma CutFirstLine(u: seq<Byte>) returns (content: seq<Byte>, end: seq<Byte>)
    requires u != []
    ensures u == content + end + AfterLine(u)
    ensures content == u[..NewlineAt(u)] && OneLine(content)
    ensures end == if NewlineAt(u) < |u| then [NEWLINE] else []
    ensures end == [] ==> AfterLine(u) == []
  {
    var p := NewlineAt(u);
    content, end := u[..p], if p < |u| then [NEWLINE] else [];
  }

  /** Too many bytes without a newline are too many whatever follows. */
  lemma OverlongArrived(u: seq<Byte>, rest: seq<Byte>, max: nat, utf8: seq<Byte> -> bool)
    requires max < NewlineAt(u)
    ensures Outcomes(Split(u + rest), max, utf8) == [TooLong]
  {
    var s, p := u + rest, NewlineAt(u);
    forall i | 0 <= i < p ensures s[i] != NEWLINE {
      assert s[i] == u[i];
    }
    assert p <= NewlineAt(s);
    assert |Split(s)[0]| > max;
  }

  /** The outcomes still to come, given the unread bytes and the later chunks. */
  function Remaining(u: seq<Byte>, later: seq<seq<Byte>>, max: nat, utf8: seq<Byte> -> bool): seq<ReadResult> {
    Outcomes(Split(u + Concat(later)), max, utf8)
  }

  /** A result that is not pending is the next outcome of the whole stream. */
  lemma NextOutcome(u: seq<Byte>, later: seq<seq<Byte>>, eof: bool, max: nat, utf8: seq<Byte> -> bool)
    requires eof ==> later == []
    ensures var r := Expected(u, eof, false, max, utf8);
            && (r.EndOfStream? ==> Remaining(u, later, max, utf8) == [])
            && (r.TooLong? || r.NotUtf8? ==> Remaining(u, later, max, utf8) == [r])
            && (r.Line? ==> u != [] && Remaining(u, later, max, utf8) == [r] + Remaining(AfterLine(u), later, max, utf8))
  {
    var rest := Concat(later);
    if max < NewlineAt(u) {
      OverlongArrived(u, rest, max, utf8);
      assert NewlineAt(u) == |u[..NewlineAt(u)]|;
    } else if NewlineAt(u) < |u| {
      FirstLineArrived(u, rest);
    } else if eof {
      assert u + rest == u && AfterLine(u) + rest == [];
      assert u != [] ==> Split(u) == [u] && [u][1..] == [];
    }
  }

  lemma RemainingMoves(u: seq<Byte>, later: seq<seq<Byte>>, max: nat, utf8: seq<Byte> -> bool)
    requires later != []
    ensures Remaining(u + later[0], later[1..], max, utf8) == Remaining(u, later, max, utf8)
  {
    assert u + later[0] + Concat(later[1..]) == u + Concat(later);
  }

  /**
   Poll until nothing more can be read now; `done` at the end of the stream or
   on an error. With the later chunks still to come, the results are the first
   outcomes of the whole stream.
   */
  method PollArrived(reader: Reader, ghost later: seq<seq<Byte>>) returns (results: seq<ReadResult>, done: bool)
    requires reader.Valid() && !reader.failed && (reader.eof ==> later == [])
    modifies reader`buf, reader`chunks
    ensures reader.Valid() && (reader.eof ==> done)
    ensures old(Remaining(reader.Unread(), later, reader.max, reader.utf8))
         == results + if done then [] else Remaining(reader.Unread(), later, reader.max, reader.utf8)
    decreases |reader.Unread()|
  {
    ghost var all := Remaining(reader.Unread(), later, reader.max, reader.utf8);
    NextOutcome(reader.Unread(), later, reader.eof, reader.max, reader.utf8);
    var r := reader.PollLine();
    if r.Line? {
      ghost var after := Remaining(reader.Unread(), later, reader.max, reader.utf8);
      assert all == [r] + after;
      results, done := PollArrived(reader, later);
      Associative([r], results, if done then [] else Remaining(reader.Unread(), later, reader.max, reader.utf8));
      results := [r] + results;
    } else {
      results := if r.Pending? || r.EndOfStream? then [] else [r];
      done := !r.Pending?;
    }
  }

  /** The results of reading a stream that came in the given chunks, then ended. */
  method ReadAll(arrivals: seq<seq<Byte>>, max: nat, utf8: seq<Byte> -> bool) returns (results: seq<ReadResult>)
    ensures results == Outcomes(Split(Concat(arrivals)), max, utf8)
  {
    var reader := new Reader(max, utf8);
    assert reader.Unread() + Concat(arrivals) == Concat(arrivals);
    results := ReadOn(reader, arrivals);
  }

  method ReadOn(reader: Reader, later: seq<seq<Byte>>) returns (results: seq<ReadResult>)
    requires reader.Valid() && !reader.failed && !reader.eof
    modifies reader
    ensures results == old(Remaining(reader.Unread(), later, reader.max, reader.utf8))
    decreases |later|
  {
    if later == [] {
      reader.eof := true;
    }
    var done;
    results, done := PollArrived(reader, later);
    if !done {
      RemainingMoves(reader.Unread(), later, reader.max, reader.utf8);
      reader.Arrive(later[0]);
      var more := ReadOn(reader, later[1..]);
      results := results + more;
    }
  }
}
