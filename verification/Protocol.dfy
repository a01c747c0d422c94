/**
 The wire messages and the codec contract
 (crates/tailkvm-net/src/protocol.rs). JSON text is not modelled: the codec is a
 parameter with the facts the framing relies on.
 */
module Protocol {
  import opened Basics

  type Byte = bv8

  const NEWLINE: Byte := 10
  const CARRIAGE_RETURN: Byte := 13

  datatype WireMessage =
    | Hello(machineName: string, appVersion: string, authToken: Option<string>, protocolVersion: nat)
    | HelloAck(receiverMachineName: string, accepted: bool, message: string, protocolVersion: nat)
    | Heartbeat(seqNo: nat, unixMs: nat)
    | HeartbeatAck(seqNo: nat, unixMs: nat)
    | MouseSetPosition(x: int, y: int)
    | MousePosition(x: int, y: int)
    | MouseMove(dx: int, dy: int)
    | MouseButton(button: string, down: bool)
    | MouseWheel(delta: int, horizontal: bool)
    | KeyboardText(text: string)
    | KeyboardKey(vk: nat, scanCode: nat, down: bool, extended: bool)
    | KeyboardLayout(languageId: nat, keyboardType: int, isJisKeyboard: bool, isJapaneseLocale: bool, layoutLabel: string)
    | ClipboardText(text: string)
    | ClipboardImage(dibBase64: string)
    | ScreenInfo(name: string, virtualWidth: int, virtualHeight: int, monitors: seq<(int, int, int, int)>)
    | InputInjectionFailed(kind: string, detail: string)
    | Disconnect(reason: string)

  /** `decode` reads the text of one line; `utf8` is `String::from_utf8`. */
  datatype Codec = Codec(
    encode: WireMessage -> seq<Byte>,
    decode: seq<Byte> -> Option<WireMessage>,
    utf8: seq<Byte> -> bool)

  /**
   Every message survives encoding, its text holds no raw control character
   (section 7 of RFC 8259), and no strict prefix of it is a message.
   */
  ghost predicate Lawful(c: Codec) {
    && (forall m :: c.utf8(c.encode(m)) && c.decode(c.encode(m)) == Some(m))
    && (forall m, b :: b in c.encode(m) ==> b >= 0x20)
    && (forall m, n | 0 <= n < |c.encode(m)| :: c.decode(c.encode(m)[..n]) == None)
  }

  function EncodeLine(c: Codec, m: WireMessage): seq<Byte> {
    c.encode(m) + [NEWLINE]
  }

  function EncodeAll(c: Codec, ms: seq<WireMessage>): seq<Byte> {
    if ms == [] then [] else EncodeLine(c, ms[0]) + EncodeAll(c, ms[1..])
  }
}
