/**
 End to end: controller queue, batches, wire, chunks, receiver
 (apps/tailkvm-ui/src-tauri/src/session/controller.rs, wire.rs, receiver.rs).
 */
module Pipeline {
  import opened Basics
  import opened Protocol
  import opened LineReader
  import opened Coalescing
  import opened Receiver

  /** The lines are messages, and perhaps a last one that was cut short. */
  ghost predicate LinesAre(c: Codec, lines: seq<seq<Byte>>, ms: seq<WireMessage>) {
    && |ms| <= |lines| <= |ms| + 1
    && (forall i | 0 <= i < |ms| :: lines[i] == c.encode(ms[i]))
    && (|lines| > |ms| ==> exists m: WireMessage, k: nat :: k < |c.encode(m)| && lines[|ms|] == c.encode(m)[..k])
  }

  lemma BodyIsOneLine(c: Codec, m: WireMessage)
    requires Lawful(c)
    ensures OneLine(c.encode(m)) && StripCr(c.encode(m)) == c.encode(m)
  {
    var body := c.encode(m);
    forall i | 0 <= i < |body| ensures body[i] != NEWLINE && body[i] != CARRIAGE_RETURN {
      assert body[i] in body;
    }
  }

  lemma CutInsideLine(body: seq<Byte>, rest: seq<Byte>, got: seq<Byte>)
    requires OneLine(body) && got != [] && |got| <= |body| && got <= body + [NEWLINE] + rest
    ensures got == body[..|got|] && Split(got) == [got]
  {
    assert got == (body + [NEWLINE] + rest)[..|got|];
    SplitOne(got, []);
    assert got + [] == got;
  }

  lemma CutBehindLine(body: seq<Byte>, rest: seq<Byte>, got: seq<Byte>) returns (tail: seq<Byte>)
    requires OneLine(body) && |got| > |body| && got <= body + [NEWLINE] + rest
    ensures tail <= rest && Split(got) == [body] + Split(tail)
    ensures got == body + [NEWLINE] + rest ==> tail == rest
  {
    var line := body + [NEWLINE];
    tail := got[|line|..];
    assert got == (line + rest)[..|got|];
    assert got == line + tail && tail == rest[..|tail|];
    NewlineAtUnique(line, |body|);
    FirstLineArrived(line, tail);
    assert line[..|body|] == body && line[|body| + 1..] + tail == tail;
  }

  /** Cutting the wire anywhere leaves whole messages and at most one stump. */
  lemma {:induction false} LinesOfPrefix(c: Codec, ms: seq<WireMessage>, got: seq<Byte>) returns (n: nat)
    requires Lawful(c) && got <= EncodeAll(c, ms)
    ensures n <= |ms| && LinesAre(c, Split(got), ms[..n])
    ensures got == EncodeAll(c, ms) ==> n == |ms|
  {
    n := 0;
    if ms != [] && got != [] {
      var body, rest := c.encode(ms[0]), EncodeAll(c, ms[1..]);
      BodyIsOneLine(c, ms[0]);
      if |got| <= |body| {
        CutInsideLine(body, rest, got);
        if |got| == |body| {
          n := 1;
        }
      } else {
        var tail := CutBehindLine(body, rest, got);
        var k := LinesOfPrefix(c, ms[1..], tail);
        n := k + 1;
        ConsLine(c, ms[0], Split(tail), ms[1..][..k]);
        assert ms[..n] == [ms[0]] + ms[1..][..k];
      }
    }
  }

  lemma ConsLine(c: Codec, m: WireMessage, lines: seq<seq<Byte>>, ms: seq<WireMessage>)
    requires LinesAre(c, lines, ms)
    ensures LinesAre(c, [c.encode(m)] + lines, [m] + ms)
  {
  }

  predicate AllFit(c: Codec, ms: seq<WireMessage>, max: nat) {
    forall i | 0 <= i < |ms| :: |c.encode(ms[i])| <= max
  }

  lemma FirstNewline(c: Codec, ms: seq<WireMessage>)
    requires Lawful(c) && ms != []
    ensures NewlineAt(EncodeAll(c, ms)) == |c.encode(ms[0])|
  {
    var body := c.encode(ms[0]);
    BodyIsOneLine(c, ms[0]);
    assert EncodeAll(c, ms) == body + ([NEWLINE] + EncodeAll(c, ms[1..]));
    NewlineAtUnique(EncodeAll(c, ms), |body|);
  }

  lemma FirstLineFits(c: Codec, ms: seq<WireMessage>, max: nat, content: seq<Byte>, end: seq<Byte>)
    requires Lawful(c) && AllFit(c, ms, max)
    ensures !BadLine(content, end, EncodeAll(c, ms), true, max, c.utf8)
  {
    var stream := EncodeAll(c, ms);
    if ms != [] && OneLine(content) && content + end <= stream {
      var body := c.encode(ms[0]);
      BodyIsOneLine(c, ms[0]);
      FirstNewline(c, ms);
      var later := stream[|content|..];
      assert stream == content + later by { assert content == (content + end)[..|content|]; }
      NewlineAtPrefix(content, later);
      assert content == body[..|content|];
      if end == [NEWLINE] {
        assert later[0] == stream[|content|] == (content + end)[|content|];
        assert content == body;
      }
    }
  }

  /** If every message fits the cap, the whole wire holds nothing to refuse. */
  lemma {:induction false} NothingToRefuse(c: Codec, ms: seq<WireMessage>, max: nat, consumed: seq<Byte>)
    requires Lawful(c) && AllFit(c, ms, max)
    ensures !BadInput(EncodeAll(c, ms), consumed, true, max, c.utf8)
  {
    var stream := EncodeAll(c, ms);
    if consumed <= stream && EndsLine(consumed) {
      if consumed == [] {
        assert stream[0..] == stream;
        forall content, end ensures !BadLine(content, end, stream, true, max, c.utf8) {
          FirstLineFits(c, ms, max, content, end);
        }
      } else {
        var line, rest := EncodeLine(c, ms[0]), EncodeAll(c, ms[1..]);
        FirstNewline(c, ms);
        NewlineAtStable(consumed, stream[|consumed|..]);
        assert stream == consumed + stream[|consumed|..];
        var tail := consumed[|line|..];
        assert tail == rest[..|tail|] && stream[|consumed|..] == rest[|tail|..];
        NothingToRefuse(c, ms[1..], max, tail);
      }
    }
  }

  lemma NothingRefused(c: Codec, ms: seq<WireMessage>, max: nat, stream: seq<Byte>, consumed: seq<Byte>)
    requires Lawful(c) && AllFit(c, ms, max) && stream == EncodeAll(c, ms)
    ensures !BadInput(stream, consumed, true, max, c.utf8)
  {
    NothingToRefuse(c, ms, max, consumed);
  }

  // ----- the receiver as a fold over messages -----

  function Under(d: Desktop): (Session, WireMessage, Env) -> Session {
    (s, m, e: Env) => Exec(d, s, m, e.policy, e.injected)
  }

  lemma UnderLaws(d: Desktop)
    ensures Overwrites(Under(d)) && IgnoresHeartbeats(Under(d))
  {
  }

  /** Once the session is closed nothing is carried out. */
  lemma {:induction false} ClosedIsIdle(d: Desktop, s: Session, ms: seq<WireMessage>, es: seq<Env>)
    requires !s.open && |ms| == |es|
    ensures Fold(Under(d), s, ms, es) == s
  {
    if ms != [] {
      ClosedIsIdle(d, s, ms[1..], es[1..]);
    }
  }

  /** What the environment did at each line. */
  function Envs(log: seq<(seq<Byte>, Env)>): (es: seq<Env>)
    ensures |es| == |log| && forall i | 0 <= i < |log| :: es[i] == log[i].1
  {
    seq(|log|, i requires 0 <= i < |log| => log[i].1)
  }

  /** The log holds exactly these messages. */
  ghost predicate Handles(c: Codec, log: seq<(seq<Byte>, Env)>, ms: seq<WireMessage>) {
    |log| == |ms| && forall i | 0 <= i < |log| :: log[i].0 == StripCr(c.encode(ms[i]))
  }

  lemma {:induction false} OneMoreFolds(c: Codec, d: Desktop, s: Session, log: seq<(seq<Byte>, Env)>, ms: seq<WireMessage>,
                     last: (seq<Byte>, Env), m: WireMessage)
    requires Lawful(c) && |log| == |ms| && Replay(c, d, s, log) == Fold(Under(d), s, ms, Envs(log))
    requires last.0 == StripCr(c.encode(m))
    ensures Replay(c, d, s, log + [last]) == Fold(Under(d), s, ms + [m], Envs(log + [last]))
  {
    ReplayNext(c, d, s, log, last);
    MessageIsExecuted(c, d, Replay(c, d, s, log), m, last);
    FoldLast(Under(d), s, ms, m, Envs(log), last.1);
    assert Envs(log + [last]) == Envs(log) + [last.1];
  }

  lemma {:induction false} WholeMessagesFold(c: Codec, d: Desktop, s: Session, log: seq<(seq<Byte>, Env)>, ms: seq<WireMessage>)
    requires Lawful(c) && Handles(c, log, ms)
    ensures Replay(c, d, s, log) == Fold(Under(d), s, ms, Envs(log))
    decreases |log|
  {
    if log != [] {
      var n := |log| - 1;
      FrontAndLast(log);
      FrontAndLast(ms);
      HandlesFront(c, log, ms);
      WholeMessagesFold(c, d, s, log[..n], ms[..n]);
      OneMoreFolds(c, d, s, log[..n], ms[..n], log[n], ms[n]);
    }
  }

  lemma FrontAndLast<T>(xs: seq<T>)
    requires xs != []
    ensures xs == xs[..|xs| - 1] + [xs[|xs| - 1]]
  {
  }

  lemma HandlesFront(c: Codec, log: seq<(seq<Byte>, Env)>, ms: seq<WireMessage>)
    requires Handles(c, log, ms) && log != []
    ensures Handles(c, log[..|log| - 1], ms[..|ms| - 1])
  {
  }

  /** Replaying the lines is executing the messages; a stump does nothing. */
  lemma {:induction false} ReplayIsFold(c: Codec, d: Desktop, s: Session,
                                        log: seq<(seq<Byte>, Env)>, lines: seq<seq<Byte>>, ms: seq<WireMessage>)
    requires Lawful(c) && LinesOf(log, lines) && LinesAre(c, lines, ms)
    ensures Replay(c, d, s, log) == Fold(Under(d), s, ms, Envs(log[..|ms|]))
  {
    var n := |ms|;
    assert forall i | 0 <= i < n :: log[..n][i] == log[i];
    WholeMessagesFold(c, d, s, log[..n], ms);
    if |log| > n {
      StumpDoesNothing(c, d, Replay(c, d, s, log[..n]), lines[n], log[n]);
    } else {
      assert log[..n] == log;
    }
  }

  lemma {:induction false} FoldLast<S, E>(step: (S, WireMessage, E) -> S, s: S, ms: seq<WireMessage>, m: WireMessage, es: seq<E>, e: E)
    requires |ms| == |es|
    ensures Fold(step, s, ms + [m], es + [e]) == step(Fold(step, s, ms, es), m, e)
  {
    FoldAppend(step, s, ms, [m], es, [e]);
    var t := step(Fold(step, s, ms, es), m, e);
    assert Fold(step, t, [m][1..], [e][1..]) == t;
  }

  lemma StumpDoesNothing(c: Codec, d: Desktop, s: Session, line: seq<Byte>, handled: (seq<Byte>, Env))
    requires Lawful(c) && handled.0 == StripCr(line)
    requires exists m: WireMessage, k: nat :: k < |c.encode(m)| && line == c.encode(m)[..k]
    ensures ExecLine(c, d, s, handled.0, handled.1) == s
  {
    var m: WireMessage, k: nat :| k < |c.encode(m)| && line == c.encode(m)[..k];
    StumpKeepsItsEnd(c, m, k);
  }

  lemma MessageIsExecuted(c: Codec, d: Desktop, s: Session, m: WireMessage, handled: (seq<Byte>, Env))
    requires Lawful(c) && handled.0 == StripCr(c.encode(m))
    ensures ExecLine(c, d, s, handled.0, handled.1) == Under(d)(s, m, handled.1)
  {
    BodyIsOneLine(c, m);
  }

  lemma StumpKeepsItsEnd(c: Codec, m: WireMessage, k: nat)
    requires Lawful(c) && k < |c.encode(m)|
    ensures StripCr(c.encode(m)[..k]) == c.encode(m)[..k]
    ensures c.decode(c.encode(m)[..k]) == None
  {
    BodyIsOneLine(c, m);
    if k > 0 {
      assert c.encode(m)[k - 1] in c.encode(m);
    }
  }

  // ----- what is carried out, without reference to the session -----

  /** A Disconnect, and a Hello that is turned away, end the session. */
  predicate EndsSession(m: WireMessage, p: Policy) {
    m.Disconnect? || (m.Hello? && !Admits(p, m))
  }

  /** The injected input and clipboard messages up to the end of the session, each with the cursor in force. */
  function Actions(d: Desktop, cursor: Point, ms: seq<WireMessage>, es: seq<Env>): seq<(WireMessage, Point)>
    requires |ms| == |es|
    decreases |ms|
  {
    if ms == [] || EndsSession(ms[0], es[0].policy) then []
    else
      var done := if es[0].injected && Performable(ms[0]) then [(ms[0], cursor)] else [];
      done + Actions(d, CursorAfter(d, cursor, ms[0], es[0].injected), ms[1..], es[1..])
  }

  function CursorAtEnd(d: Desktop, cursor: Point, ms: seq<WireMessage>, es: seq<Env>): Point
    requires |ms| == |es|
    decreases |ms|
  {
    if ms == [] || EndsSession(ms[0], es[0].policy) then cursor
    else CursorAtEnd(d, CursorAfter(d, cursor, ms[0], es[0].injected), ms[1..], es[1..])
  }

  lemma {:induction false} FoldActs(d: Desktop, s: Session, ms: seq<WireMessage>, es: seq<Env>)
    requires s.open && s.accepted && |ms| == |es|
    ensures var t := Fold(Under(d), s, ms, es);
            t.trace == s.trace + Actions(d, s.cursor, ms, es) && t.cursor == CursorAtEnd(d, s.cursor, ms, es)
    decreases |ms|
  {
    if ms != [] {
      var t := Exec(d, s, ms[0], es[0].policy, es[0].injected);
      OneActs(d, s, ms[0], es[0]);
      if EndsSession(ms[0], es[0].policy) {
        ClosedIsIdle(d, t, ms[1..], es[1..]);
      } else {
        FoldActs(d, t, ms[1..], es[1..]);
      }
    }
  }

  lemma OneActs(d: Desktop, s: Session, m: WireMessage, e: Env)
    requires s.open && s.accepted
    ensures var t := Exec(d, s, m, e.policy, e.injected);
            && t.trace == s.trace + (if e.injected && Performable(m) then [(m, s.cursor)] else [])
            && t.cursor == CursorAfter(d, s.cursor, m, e.injected)
            && (EndsSession(m, e.policy) ==> !t.open && t.trace == s.trace && t.cursor == s.cursor)
            && (!EndsSession(m, e.policy) ==> t.open && t.accepted)
  {
    if m.Hello? {
      GateDoes(d, s, m, e.policy, e.injected);
    } else {
      HandlingDoes(d, s, m, e.policy, e.injected);
    }
  }

  function Inputs(ms: seq<WireMessage>): seq<WireMessage> {
    if ms == [] then [] else (if Performable(ms[0]) then [ms[0]] else []) + Inputs(ms[1..])
  }

  function Messages(actions: seq<(WireMessage, Point)>): seq<WireMessage> {
    if actions == [] then [] else [actions[0].0] + Messages(actions[1..])
  }

  predicate NoneEnds(ms: seq<WireMessage>) {
    forall m | m in ms :: !m.Hello? && !m.Disconnect?
  }

  /** If everything is injected and nothing ends the session, exactly the inputs are carried out, in order. */
  lemma {:induction false} ActionsAreInputs(d: Desktop, cursor: Point, ms: seq<WireMessage>, es: seq<Env>)
    requires |ms| == |es| && NoneEnds(ms) && forall e | e in es :: e.injected
    ensures Messages(Actions(d, cursor, ms, es)) == Inputs(ms)
    decreases |ms|
  {
    if ms != [] {
      assert ms[0] in ms && es[0] in es;
      var next := CursorAfter(d, cursor, ms[0], es[0].injected);
      ActionsAreInputs(d, next, ms[1..], es[1..]);
      if Performable(ms[0]) {
        var rest := Actions(d, next, ms[1..], es[1..]);
        assert ([(ms[0], cursor)] + rest)[1..] == rest;
      } else {
        assert [] + Actions(d, next, ms[1..], es[1..]) == Actions(d, next, ms[1..], es[1..]);
      }
    }
  }

  // ----- end to end -----

  /** The session right after the handshake. */
  function Admitted(cursor: Point): Session {
    NewSession(cursor).(accepted := true)
  }

  /** The first message, if it was handled at all, found a policy that admits it. */
  predicate LetIn(hello: WireMessage, es: seq<Env>) {
    es != [] && Admits(es[0].policy, hello)
  }

  lemma {:induction false} AfterHandshake(d: Desktop, cursor: Point, hello: WireMessage, layout: WireMessage, out: seq<WireMessage>, es: seq<Env>)
    requires hello.Hello? && layout.KeyboardLayout? && 2 <= |es| <= 2 + |out| && LetIn(hello, es)
    ensures Fold(Under(d), NewSession(cursor), ([hello, layout] + out)[..|es|], es)
         == Fold(Under(d), Admitted(cursor), out[..|es| - 2], es[2..])
  {
    var step, wire := Under(d), ([hello, layout] + out)[..|es|];
    assert wire[0] == hello && wire[1..][0] == layout && wire[1..][1..] == out[..|es| - 2];
    assert es[1..][0] == es[1] && es[1..][1..] == es[2..];
    assert step(NewSession(cursor), hello, es[0]) == Admitted(cursor);
    assert step(Admitted(cursor), layout, es[1]) == Admitted(cursor);
  }

  lemma {:induction false} TurnedAway(d: Desktop, cursor: Point, hello: WireMessage, ms: seq<WireMessage>, es: seq<Env>)
    requires hello.Hello? && |ms| == |es| && ms != [] && ms[0] == hello && !LetIn(hello, es)
    ensures Fold(Under(d), NewSession(cursor), ms, es) == NewSession(cursor).(open := false)
  {
    ClosedIsIdle(d, NewSession(cursor).(open := false), ms[1..], es[1..]);
  }

  /**
   Whatever part of the written messages was handled, what was carried out and
   where the cursor ended is that of some part of the queue: none of it if the
   session was turned away.
   */
  lemma {:induction false} HandledPartOfQueue(d: Desktop, cursor: Point, hello: WireMessage, layout: WireMessage,
                           queue: seq<WireMessage>, plan: seq<Wake>, es: seq<Env>) returns (fs: seq<Env>)
    requires hello.Hello? && layout.KeyboardLayout? && |es| <= 2 + |Written(queue, plan)|
    ensures |fs| <= Drained(queue, plan) && Drawn(fs, es) && (fs != [] ==> LetIn(hello, es))
    ensures var s := Fold(Under(d), NewSession(cursor), WireOf(hello, layout, queue, plan)[..|es|], es);
            var t := Fold(Under(d), Admitted(cursor), queue[..|fs|], fs);
            s.trace == t.trace && s.cursor == t.cursor && (es != [] ==> (s.open ==> LetIn(hello, es)))
    ensures |es| == 2 + |Written(queue, plan)| && LetIn(hello, es) ==> |fs| == Drained(queue, plan)
  {
    var step, out := Under(d), Written(queue, plan);
    var wire := WireOf(hello, layout, queue, plan);
    fs := [];
    UnderLaws(d);
    if es != [] {
      assert wire[..|es|][0] == hello;
      if !LetIn(hello, es) {
        TurnedAway(d, cursor, hello, wire[..|es|], es);
      } else if |es| == 1 {
        assert wire[..1] == [hello] && [hello][1..] == [];
        assert Fold(step, NewSession(cursor), [hello], es) == step(NewSession(cursor), hello, es[0]);
      } else {
        AfterHandshake(d, cursor, hello, layout, out, es);
        fs := PartOfWritten(step, Admitted(cursor), queue, plan, es[2..]);
      }
    }
  }

  /** The environments of the lines polled. */
  ghost predicate Polled(events: seq<Event>, e: Env) {
    exists i :: 0 <= i < |events| && events[i] == Poll(e)
  }

  /** Everything the controller writes under a schedule. */
  function WireOf(hello: WireMessage, layout: WireMessage, queue: seq<WireMessage>, plan: seq<Wake>): seq<WireMessage> {
    [hello, layout] + Written(queue, plan)
  }

  /** The environments are those of lines polled, and none of the queue is served without being let in. */
  ghost predicate Served(events: seq<Event>, hello: WireMessage, served: seq<Env>) {
    && (forall e | e in served :: Polled(events, e))
    && (served != [] ==> exists e :: Polled(events, e) && Admits(e.policy, hello))
  }

  lemma PolledAreServed(events: seq<Event>, hello: WireMessage, es: seq<Env>, fs: seq<Env>)
    requires Drawn(fs, es) && (fs != [] ==> LetIn(hello, es)) && forall e | e in es :: Polled(events, e)
    ensures Served(events, hello, fs)
  {
    if fs != [] {
      assert es[0] in es;
    }
  }

  /** What a session that handled these lines has served of the queue. */
  lemma {:induction false} ServedPart(c: Codec, d: Desktop, cursor: Point, hello: WireMessage, layout: WireMessage, queue: seq<WireMessage>,
                   plan: seq<Wake>, events: seq<Event>, log: seq<(seq<Byte>, Env)>, consumed: seq<Byte>)
    returns (served: seq<Env>)
    requires Lawful(c) && hello.Hello? && layout.KeyboardLayout? && consumed <= EncodeAll(c, WireOf(hello, layout, queue, plan))
    requires LinesOf(log, Split(consumed)) && forall i | 0 <= i < |log| :: Polled(events, log[i].1)
    ensures |served| <= Drained(queue, plan) && Served(events, hello, served)
    ensures var s, t := Replay(c, d, NewSession(cursor), log), Fold(Under(d), Admitted(cursor), queue[..|served|], served);
            && s.trace == t.trace && s.cursor == t.cursor
            && (s.open && consumed == EncodeAll(c, WireOf(hello, layout, queue, plan)) ==> |served| == Drained(queue, plan))
  {
    var wire := WireOf(hello, layout, queue, plan);
    var n := LinesOfPrefix(c, wire, consumed);
    ReplayIsFold(c, d, NewSession(cursor), log, Split(consumed), wire[..n]);
    var es := Envs(log[..n]);
    served := HandledPartOfQueue(d, cursor, hello, layout, queue, plan, es);
    PolledAreServed(events, hello, es, served);
  }

  lemma InputsServed(d: Desktop, cursor: Point, queue: seq<WireMessage>, events: seq<Event>, hello: WireMessage, served: seq<Env>)
    requires Served(events, hello, served) && |served| <= |queue|
    ensures NoneEnds(queue) && (forall e | Polled(events, e) :: e.injected)
            ==> Messages(Actions(d, cursor, queue[..|served|], served)) == Inputs(queue[..|served|])
  {
    if NoneEnds(queue) && forall e | Polled(events, e) :: e.injected {
      ActionsAreInputs(d, cursor, queue[..|served|], served);
    }
  }

  /**
   For every queue, every way of draining it into batches between heartbeats,
   every chunking of the bytes, every interleaving with the other branches of
   the receiver loop, every policy and every failure of injection along the way,
   and every cut or exit, the receiver has carried out exactly what a part of the
   queue says, each action at the cursor position the queue puts in force; none
   of it without being let in, and the whole drained queue if the stream was read
   to its end.
   */
  method Transfer(c: Codec, d: Desktop, max: nat, cursor: Point, hello: WireMessage, layout: WireMessage,
                  queue: seq<WireMessage>, plan: seq<Wake>, events: seq<Event>)
    returns (exit: Option<Exit>, end: Session, ghost served: seq<Env>)
    requires Lawful(c) && hello.Hello? && layout.KeyboardLayout?
    requires Delivered(events) <= EncodeAll(c, WireOf(hello, layout, queue, plan))
    ensures |served| <= Drained(queue, plan) && Served(events, hello, served)
    ensures var t := Fold(Under(d), Admitted(cursor), queue[..|served|], served);
            end.trace == t.trace && end.cursor == t.cursor
    ensures end.trace == Actions(d, cursor, queue[..|served|], served)
            && end.cursor == CursorAtEnd(d, cursor, queue[..|served|], served)
    ensures NoneEnds(queue) && (forall e | Polled(events, e) :: e.injected) ==> Messages(end.trace) == Inputs(queue[..|served|])
    ensures exit == Some(PeerClosed) && Delivered(events) == EncodeAll(c, WireOf(hello, layout, queue, plan))
            ==> |served| == Drained(queue, plan)
    ensures Delivered(events) == EncodeAll(c, WireOf(hello, layout, queue, plan))
            && AllFit(c, WireOf(hello, layout, queue, plan), max) && !NetFails(events)
            ==> exit != Some(ReadFailed)
    ensures exit.Some? && (forall e | Polled(events, e) :: e.injected) ==> end.keysDown == {} && end.buttonsDown == {}
  {
    var box := new Outbox(queue);
    box.Run(plan);
    ghost var wire := [hello, layout] + box.written;
    assert wire == WireOf(hello, layout, queue, plan);
    ghost var log, consumed;
    exit, end, log, consumed := RunSession(c, d, max, cursor, events, (e: Env) => Polled(events, e));
    if AllFit(c, wire, max) && Delivered(events) == EncodeAll(c, wire) {
      NothingRefused(c, wire, max, Delivered(events), consumed);
    }
    if forall e | Polled(events, e) :: e.injected {
      NoneStuck(c, d, NewSession(cursor), log);
    }
    served := ServedPart(c, d, cursor, hello, layout, queue, plan, events, log, consumed);
    FoldActs(d, Admitted(cursor), queue[..|served|], served);
    InputsServed(d, cursor, queue, events, hello, served);
  }
}
