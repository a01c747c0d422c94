/**
 A codec that meets the contract, so that nothing proved about codecs is
 vacuous. It writes a message as a list of numbers in unary.
 */
module CodecInstance {
  import opened Basics
  import opened Protocol

  function Unary(n: nat): seq<Byte> {
    if n == 0 then [0x3B] else [0x31] + Unary(n - 1)
  }

  lemma {:induction false} UnaryUnique(a: nat, b: nat, r: seq<Byte>, s: seq<Byte>)
    requires Unary(a) + r == Unary(b) + s
    ensures a == b && r == s
  {
    assert (Unary(a) + r)[0] == Unary(a)[0] && (Unary(b) + s)[0] == Unary(b)[0];
    assert (Unary(a) + r)[1..] == Unary(a)[1..] + r && (Unary(b) + s)[1..] == Unary(b)[1..] + s;
    if a > 0 {
      UnaryUnique(a - 1, b - 1, r, s);
    } else {
      assert Unary(a)[1..] + r == r && Unary(b)[1..] + s == s;
    }
  }

  function Numbers(ns: seq<nat>): seq<Byte> {
    if ns == [] then [] else Unary(ns[0]) + Numbers(ns[1..])
  }

  lemma {:induction false} NumbersUnique(a: seq<nat>, b: seq<nat>, r: seq<Byte>, s: seq<Byte>)
    requires |a| == |b| && Numbers(a) + r == Numbers(b) + s
    ensures a == b && r == s
  {
    if a == [] {
      assert Numbers(a) + r == r && Numbers(b) + s == s;
    } else {
      assert Numbers(a) + r == Unary(a[0]) + (Numbers(a[1..]) + r);
      assert Numbers(b) + s == Unary(b[0]) + (Numbers(b[1..]) + s);
      UnaryUnique(a[0], b[0], Numbers(a[1..]) + r, Numbers(b[1..]) + s);
      NumbersUnique(a[1..], b[1..], r, s);
    }
  }

  /** Self-delimiting: the count, then the numbers. */
  function Text(ns: seq<nat>): seq<Byte> {
    Unary(|ns|) + Numbers(ns)
  }

  lemma TextUnique(a: seq<nat>, b: seq<nat>, r: seq<Byte>, s: seq<Byte>)
    requires Text(a) + r == Text(b) + s
    ensures a == b && r == s
  {
    assert Text(a) + r == Unary(|a|) + (Numbers(a) + r);
    assert Text(b) + s == Unary(|b|) + (Numbers(b) + s);
    UnaryUnique(|a|, |b|, Numbers(a) + r, Numbers(b) + s);
    NumbersUnique(a, b, r, s);
  }

  lemma {:induction false} TextIsPrintable(ns: seq<nat>)
    ensures forall b | b in Text(ns) :: b >= 0x20
  {
    UnaryIsPrintable(|ns|);
    NumbersArePrintable(ns);
  }

  lemma UnaryIsPrintable(n: nat)
    ensures forall b | b in Unary(n) :: b >= 0x20
  {
  }

  lemma {:induction false} NumbersArePrintable(ns: seq<nat>)
    ensures forall b | b in Numbers(ns) :: b >= 0x20
  {
    if ns != [] {
      UnaryIsPrintable(ns[0]);
      NumbersArePrintable(ns[1..]);
    }
  }

  // ----- messages as numbers -----

  function Int(i: int): nat {
    if i >= 0 then 2 * i else -2 * i - 1
  }

  function Bool(b: bool): nat {
    if b then 1 else 0
  }

  function Codes(s: string): (ns: seq<nat>)
    ensures |ns| == |s| && forall i | 0 <= i < |s| :: ns[i] == s[i] as int
  {
    seq(|s|, i requires 0 <= i < |s| => s[i] as int)
  }

  function Str(s: string): seq<nat> {
    [|s|] + Codes(s)
  }

  lemma StrUnique(a: string, b: string, r: seq<nat>, s: seq<nat>)
    requires Str(a) + r == Str(b) + s
    ensures a == b && r == s
  {
    var x, y := Str(a) + r, Str(b) + s;
    assert x[0] == |a| && y[0] == |b|;
    forall i | 0 <= i < |a| ensures a[i] == b[i] {
      assert x[i + 1] == a[i] as int && y[i + 1] == b[i] as int;
    }
    assert x[|a| + 1..] == r && y[|b| + 1..] == s;
  }

  function Rects(ms: seq<(int, int, int, int)>): seq<nat> {
    if ms == [] then []
    else [Int(ms[0].0), Int(ms[0].1), Int(ms[0].2), Int(ms[0].3)] + Rects(ms[1..])
  }

  lemma {:induction false} RectsUnique(a: seq<(int, int, int, int)>, b: seq<(int, int, int, int)>)
    requires Rects(a) == Rects(b)
    ensures a == b
  {
    if a != [] && b != [] {
      var x, y := Rects(a), Rects(b);
      assert x[0] == y[0] && x[1] == y[1] && x[2] == y[2] && x[3] == y[3];
      assert x[4..] == Rects(a[1..]) && y[4..] == Rects(b[1..]);
      RectsUnique(a[1..], b[1..]);
      assert a == [a[0]] + a[1..] && b == [b[0]] + b[1..];
    }
  }

  function Token(t: Option<string>): seq<nat> {
    match t
    case None => [0]
    case Some(s) => [1] + Str(s)
  }

  function Tag(m: WireMessage): nat {
    match m
    case Hello(_, _, _, _) => 0
    case HelloAck(_, _, _, _) => 1
    case Heartbeat(_, _) => 2
    case HeartbeatAck(_, _) => 3
    case MouseSetPosition(_, _) => 4
    case MousePosition(_, _) => 5
    case MouseMove(_, _) => 6
    case MouseButton(_, _) => 7
    case MouseWheel(_, _) => 8
    case KeyboardText(_) => 9
    case KeyboardKey(_, _, _, _) => 10
    case KeyboardLayout(_, _, _, _, _) => 11
    case ClipboardText(_) => 12
    case ClipboardImage(_) => 13
    case ScreenInfo(_, _, _, _) => 14
    case InputInjectionFailed(_, _) => 15
    case Disconnect(_) => 16
  }

  function Fields(m: WireMessage): seq<nat> {
    match m
    case Hello(n, v, t, p) => Str(n) + (Str(v) + ([p] + Token(t)))
    case HelloAck(n, a, t, p) => Str(n) + (Str(t) + [Bool(a), p])
    case Heartbeat(n, t) => [n, t]
    case HeartbeatAck(n, t) => [n, t]
    case MouseSetPosition(x, y) => [Int(x), Int(y)]
    case MousePosition(x, y) => [Int(x), Int(y)]
    case MouseMove(x, y) => [Int(x), Int(y)]
    case MouseButton(b, d) => Str(b) + [Bool(d)]
    case MouseWheel(d, h) => [Int(d), Bool(h)]
    case KeyboardText(t) => Str(t)
    case KeyboardKey(v, s, d, e) => [v, s, Bool(d), Bool(e)]
    case KeyboardLayout(l, k, j, p, s) => [l, Int(k), Bool(j), Bool(p)] + Str(s)
    case ClipboardText(t) => Str(t)
    case ClipboardImage(t) => Str(t)
    case ScreenInfo(n, w, h, ms) => Str(n) + ([Int(w), Int(h)] + Rects(ms))
    case InputInjectionFailed(k, d) => Str(k) + Str(d)
    case Disconnect(r) => Str(r)
  }

  lemma LastStr(a: string, b: string)
    requires Str(a) == Str(b)
    ensures a == b
  {
    assert Str(a) + [] == Str(b) + [];
    StrUnique(a, b, [], []);
  }

  lemma FieldsUnique(m: WireMessage, n: WireMessage)
    requires Tag(m) == Tag(n) && Fields(m) == Fields(n)
    ensures m == n
  {
    match m
    case Hello(a, v, t, p) => HelloUnique(m, n);
    case HelloAck(a, c, t, p) => AckUnique(m, n);
    case MouseButton(b, d) => StrUnique(b, n.button, [Bool(d)], [Bool(n.down)]);
    case KeyboardText(t) => LastStr(t, n.text);
    case KeyboardLayout(l, k, j, p, s) => LayoutUnique(m, n);
    case ClipboardText(t) => LastStr(t, n.text);
    case ClipboardImage(t) => LastStr(t, n.dibBase64);
    case ScreenInfo(s, w, h, ms) => ScreenUnique(m, n);
    case InputInjectionFailed(k, d) =>
      StrUnique(k, n.kind, Str(d), Str(n.detail));
      LastStr(d, n.detail);
    case Disconnect(r) => LastStr(r, n.reason);
    case _ =>
  }

  lemma HelloUnique(m: WireMessage, n: WireMessage)
    requires m.Hello? && n.Hello? && Fields(m) == Fields(n)
    ensures m == n
  {
    var a, b := [m.protocolVersion] + Token(m.authToken), [n.protocolVersion] + Token(n.authToken);
    StrUnique(m.machineName, n.machineName, Str(m.appVersion) + a, Str(n.appVersion) + b);
    StrUnique(m.appVersion, n.appVersion, a, b);
    TokenUnique(m.protocolVersion, m.authToken, n.protocolVersion, n.authToken);
  }

  lemma AckUnique(m: WireMessage, n: WireMessage)
    requires m.HelloAck? && n.HelloAck? && Fields(m) == Fields(n)
    ensures m == n
  {
    var a, b := [Bool(m.accepted), m.protocolVersion], [Bool(n.accepted), n.protocolVersion];
    StrUnique(m.receiverMachineName, n.receiverMachineName, Str(m.message) + a, Str(n.message) + b);
    StrUnique(m.message, n.message, a, b);
  }

  lemma LayoutUnique(m: WireMessage, n: WireMessage)
    requires m.KeyboardLayout? && n.KeyboardLayout? && Fields(m) == Fields(n)
    ensures m == n
  {
    assert Fields(m)[4..] == Str(m.layoutLabel) && Fields(n)[4..] == Str(n.layoutLabel);
    assert Fields(m)[..4] == [m.languageId, Int(m.keyboardType), Bool(m.isJisKeyboard), Bool(m.isJapaneseLocale)];
    assert Fields(n)[..4] == [n.languageId, Int(n.keyboardType), Bool(n.isJisKeyboard), Bool(n.isJapaneseLocale)];
    LastStr(m.layoutLabel, n.layoutLabel);
  }

  lemma ScreenUnique(m: WireMessage, n: WireMessage)
    requires m.ScreenInfo? && n.ScreenInfo? && Fields(m) == Fields(n)
    ensures m == n
  {
    var x := [Int(m.virtualWidth), Int(m.virtualHeight)] + Rects(m.monitors);
    var y := [Int(n.virtualWidth), Int(n.virtualHeight)] + Rects(n.monitors);
    StrUnique(m.name, n.name, x, y);
    assert x[0] == y[0] && x[1] == y[1] && x[2..] == Rects(m.monitors) && y[2..] == Rects(n.monitors);
    RectsUnique(m.monitors, n.monitors);
  }

  lemma TokenUnique(p: nat, t: Option<string>, q: nat, u: Option<string>)
    requires [p] + Token(t) == [q] + Token(u)
    ensures p == q && t == u
  {
    assert ([p] + Token(t))[0] == p && ([q] + Token(u))[0] == q;
    assert ([p] + Token(t))[1..] == Token(t) && ([q] + Token(u))[1..] == Token(u);
    assert Token(t)[0] == Token(u)[0];
    match t
    case None =>
    case Some(s) =>
      assert Token(t)[1..] == Str(s) && Token(u)[1..] == Str(u.value);
      LastStr(s, u.value);
  }

  function Encode(m: WireMessage): seq<Byte> {
    Text([Tag(m)] + Fields(m))
  }

  lemma EncodeUnique(m: WireMessage, n: WireMessage, r: seq<Byte>, s: seq<Byte>)
    requires Encode(m) + r == Encode(n) + s
    ensures m == n && r == s
  {
    var a, b := [Tag(m)] + Fields(m), [Tag(n)] + Fields(n);
    TextUnique(a, b, r, s);
    assert a[0] == b[0] && a[1..] == Fields(m) && b[1..] == Fields(n);
    FieldsUnique(m, n);
  }

  ghost function Decode(text: seq<Byte>): Option<WireMessage> {
    if exists m :: Encode(m) == text then
      var m :| Encode(m) == text;
      Some(m)
    else None
  }

  lemma DecodeFinds(text: seq<Byte>)
    ensures match Decode(text)
            case Some(n) => Encode(n) == text
            case None => forall n :: Encode(n) != text
  {
  }

  lemma DecodeEncode(m: WireMessage)
    ensures Decode(Encode(m)) == Some(m)
  {
    DecodeFinds(Encode(m));
    EncodeUnique(Decode(Encode(m)).value, m, [], []);
  }

  lemma PrefixIsWhole(m: WireMessage, n: WireMessage, text: seq<Byte>, k: nat)
    requires Encode(m) == text && k <= |text| && Encode(n) == text[..k]
    ensures k == |text|
  {
    assert text[..k] + text[k..] == text + [];
    EncodeUnique(n, m, text[k..], []);
  }

  lemma StumpIsNoMessage(m: WireMessage, k: nat)
    requires k < |Encode(m)|
    ensures Decode(Encode(m)[..k]) == None
  {
    var text := Encode(m);
    DecodeFinds(text[..k]);
    if Decode(text[..k]).Some? {
      PrefixIsWhole(m, Decode(text[..k]).value, text, k);
    }
  }

  lemma LawfulCodecExists()
    ensures exists c :: Lawful(c)
  {
    var c := Codec(m => Encode(m), b => Decode(b), b => true);
    forall m ensures c.utf8(c.encode(m)) && c.decode(c.encode(m)) == Some(m) {
      DecodeEncode(m);
    }
    forall m, b | b in c.encode(m) ensures b >= 0x20 {
      TextIsPrintable([Tag(m)] + Fields(m));
    }
    forall m, k | 0 <= k < |c.encode(m)| ensures c.decode(c.encode(m)[..k]) == None {
      StumpIsNoMessage(m, k);
    }
    assert Lawful(c);
  }
}
