/**
 Keys and buttons that were pressed and not yet released
 (`track_key_press`, `track_button_press`,
 apps/tailkvm-ui/src-tauri/src/forwarding.rs), and the OS key or button that a
 name denotes (crates/tailkvm-win32/src/keyboard.rs, mouse.rs).
 */
module HeldInput {
  import opened Basics

  datatype Key = Key(vk: nat, scanCode: nat, extended: bool)

  /** `SendInput` goes by scan code if there is one, otherwise by virtual key. */
  datatype OsKey = ByScanCode(scanCode: nat, extended: bool) | ByVirtualKey(vk: nat, extended: bool)

  function OsKeyOf(k: Key): Option<OsKey> {
    Some(if k.scanCode != 0 then ByScanCode(k.scanCode, k.extended) else ByVirtualKey(k.vk, k.extended))
  }

  /** Which keys are one and the same to the OS; the virtual key only counts without a scan code. */
  lemma SameOsKeyIff(a: Key, b: Key)
    ensures OsKeyOf(a) == OsKeyOf(b) <==>
            a.extended == b.extended && a.scanCode == b.scanCode && (a.scanCode == 0 ==> a.vk == b.vk)
  {
  }

  datatype OsButton = LeftButton | RightButton | MiddleButton | XButton1 | XButton2

  predicate IsSpace(c: char) {
    c == ' ' || '\t' <= c <= '\r'
  }

  function Trim(s: string): string
    decreases |s|
  {
    if s == [] then s
    else if IsSpace(s[0]) then Trim(s[1..])
    else if IsSpace(s[|s| - 1]) then Trim(s[..|s| - 1])
    else s
  }

  function LowerChar(c: char): char {
    if 'A' <= c <= 'Z' then (c as int + 32) as char else c
  }

  function Lower(s: string): string {
    if s == [] then [] else [LowerChar(s[0])] + Lower(s[1..])
  }

  /** Aliases included; an unsupported name denotes nothing. */
  function OsButtonOf(name: string): Option<OsButton> {
    var n := Lower(Trim(name));
    if n == "left" then Some(LeftButton)
    else if n == "right" then Some(RightButton)
    else if n == "middle" then Some(MiddleButton)
    else if n in {"x1", "xbutton1", "back"} then Some(XButton1)
    else if n in {"x2", "xbutton2", "forward"} then Some(XButton2)
    else None
  }

  predicate AllSpace(s: string) {
    forall c | c in s :: IsSpace(c)
  }

  predicate Bare(s: string) {
    s != [] ==> !IsSpace(s[0]) && !IsSpace(s[|s| - 1])
  }

  lemma {:induction false} TrimTakesThePadding(left: string, s: string, right: string)
    requires AllSpace(left) && AllSpace(right) && Bare(s)
    ensures Trim(left + s + right) == s
    decreases |left| + |right|
  {
    var padded := left + s + right;
    if left != [] {
      assert padded[1..] == left[1..] + s + right;
      TrimTakesThePadding(left[1..], s, right);
    } else if right != [] {
      var n := |right| - 1;
      assert padded == s + right;
      if s == [] {
        assert padded[1..] == [] + s + right[1..];
        TrimTakesThePadding([], s, right[1..]);
      } else {
        assert padded[..|padded| - 1] == [] + s + right[..n];
        TrimTakesThePadding([], s, right[..n]);
      }
    } else {
      assert padded == s;
    }
  }

  lemma {:induction false} LowerIsPointwise(s: string)
    ensures |Lower(s)| == |s| && forall i | 0 <= i < |s| :: Lower(s)[i] == LowerChar(s[i])
  {
    if s != [] {
      LowerIsPointwise(s[1..]);
    }
  }

  predicate SameLetters(s: string, t: string) {
    |s| == |t| && forall i | 0 <= i < |s| :: LowerChar(s[i]) == LowerChar(t[i])
  }

  lemma LowerIsNoSpace(c: char, d: char)
    requires LowerChar(c) == LowerChar(d)
    ensures IsSpace(c) <==> IsSpace(d)
  {
  }

  /** Neither case nor the space around a name matters. */
  lemma ButtonSpeltOtherwise(left: string, s: string, right: string, name: string)
    requires AllSpace(left) && AllSpace(right) && Bare(name) && SameLetters(s, name)
    ensures OsButtonOf(left + s + right) == OsButtonOf(name)
  {
    if s != [] {
      LowerIsNoSpace(s[0], name[0]);
      LowerIsNoSpace(s[|s| - 1], name[|s| - 1]);
    }
    TrimTakesThePadding(left, s, right);
    TrimTakesThePadding([], name, []);
    assert [] + name + [] == name;
    LowerIsPointwise(s);
    LowerIsPointwise(name);
    assert Lower(s) == Lower(name);
  }

  predicate Plain(s: string) {
    forall c | c in s :: !IsSpace(c) && !('A' <= c <= 'Z')
  }

  lemma PlainStays(s: string)
    requires Plain(s)
    ensures Lower(Trim(s)) == s
  {
    assert forall i | 0 <= i < |s| :: s[i] in s;
    TrimTakesThePadding([], s, []);
    assert [] + s + [] == s;
    LowerIsPointwise(s);
    assert Lower(s) == s;
  }

  /** What a plainly spelt name denotes: the nine names of the five buttons, and no other. */
  lemma ButtonNamed(name: string)
    requires Plain(name)
    ensures OsButtonOf(name) == Some(LeftButton) <==> name == "left"
    ensures OsButtonOf(name) == Some(RightButton) <==> name == "right"
    ensures OsButtonOf(name) == Some(MiddleButton) <==> name == "middle"
    ensures OsButtonOf(name) == Some(XButton1) <==> name == "x1" || name == "xbutton1" || name == "back"
    ensures OsButtonOf(name) == Some(XButton2) <==> name == "x2" || name == "xbutton2" || name == "forward"
  {
    PlainStays(name);
  }

  /** `Vec::retain` with "is not k". */
  function Without<K(==,!new)>(held: seq<K>, k: K): (r: seq<K>)
    ensures forall x :: x in r <==> x in held && x != k
  {
    if held == [] then [] else (if held[0] == k then [] else [held[0]]) + Without(held[1..], k)
  }

  function Track<K(==,!new)>(held: seq<K>, k: K, down: bool): seq<K> {
    if !down then Without(held, k)
    else if k in held then held else held + [k]
  }

  /** The OS side: a press of what `o` names, or a release. */
  function Press<O(==)>(down: set<O>, o: Option<O>, isDown: bool): set<O> {
    if o.None? then down else if isDown then down + {o.value} else down - {o.value}
  }

  predicate NoDuplicates<K(==,!new)>(held: seq<K>) {
    forall i, j | 0 <= i < j < |held| :: held[i] != held[j]
  }

  lemma {:induction false} WithoutKeepsDistinct<K(!new)>(held: seq<K>, k: K)
    requires NoDuplicates(held)
    ensures NoDuplicates(Without(held, k))
  {
    if held != [] {
      var tail := held[1..];
      assert forall i, j | 0 <= i < j < |tail| :: tail[i] == held[i + 1] && tail[j] == held[j + 1];
      WithoutKeepsDistinct(tail, k);
      assert held[0] !in tail;
    }
  }

  /** Each held key is recorded once, and the record is the set of pressed keys. */
  lemma TrackIsASet<K(!new)>(held: seq<K>, k: K, down: bool)
    requires NoDuplicates(held)
    ensures NoDuplicates(Track(held, k, down))
    ensures forall x :: x in Track(held, k, down) <==> if x == k then down else x in held
  {
    WithoutKeepsDistinct(held, k);
  }

  /** Everything down in the OS is named by something recorded. */
  ghost predicate Covers<K(!new), O(!new)>(held: seq<K>, name: K -> Option<O>, down: set<O>) {
    forall o | o in down :: Named(held, name, o)
  }

  ghost predicate Named<K(!new), O(!new)>(held: seq<K>, name: K -> Option<O>, o: O) {
    exists k :: k in held && name(k) == Some(o)
  }

  /** The keys whose last press or release was a release that could not be injected. */
  function Lost<O(==)>(lost: set<O>, o: Option<O>, isDown: bool, injected: bool): set<O> {
    if o.None? then lost else if !isDown && !injected then lost + {o.value} else lost - {o.value}
  }

  /** For any naming, tracking keeps everything down in the OS covered, but for the lost keys. */
  lemma TrackKeepsCover<K(!new), O(!new)>(held: seq<K>, name: K -> Option<O>, down: set<O>, lost: set<O>,
                                          k: K, isDown: bool, injected: bool)
    requires Covers(held, name, down - lost)
    ensures Covers(Track(held, k, isDown), name,
                   (if injected then Press(down, name(k), isDown) else down) - Lost(lost, name(k), isDown, injected))
  {
    var held' := Track(held, k, isDown);
    var down' := if injected then Press(down, name(k), isDown) else down;
    forall o | o in down' - Lost(lost, name(k), isDown, injected) ensures Named(held', name, o) {
      if name(k) == Some(o) {
        assert isDown;
        assert k in held';
      } else {
        assert o in down - lost;
        var h :| h in held && name(h) == Some(o);
        assert h in held';
      }
    }
  }

  function ReleaseAll<K, O(==)>(down: set<O>, held: seq<K>, name: K -> Option<O>): set<O> {
    if held == [] then down else ReleaseAll(Press(down, name(held[0]), false), held[1..], name)
  }

  lemma NothingIsCovered<K(!new), O(!new)>(name: K -> Option<O>, down: set<O>)
    requires Covers([], name, down)
    ensures down == {}
  {
    assert forall o | o in down :: !Named([], name, o);
  }

  /** Releasing everything recorded leaves nothing down that was covered. */
  lemma {:induction false} ReleaseAllEmpties<K(!new), O(!new)>(down: set<O>, held: seq<K>, name: K -> Option<O>, lost: set<O>)
    requires Covers(held, name, down - lost)
    ensures ReleaseAll(down, held, name) <= lost
  {
    if held != [] {
      var after := Press(down, name(held[0]), false);
      forall o | o in after - lost ensures Named(held[1..], name, o) {
        assert o in down - lost && Named(held, name, o);
        var h :| h in held && name(h) == Some(o);
        assert h in held[1..];
      }
      ReleaseAllEmpties(after, held[1..], name, lost);
    } else {
      NothingIsCovered(name, down - lost);
      assert forall o | o in down :: o in lost || o in down - lost;
    }
  }
}
