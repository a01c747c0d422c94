/**
 Which way a key goes (crates/tailkvm-win32/src/key_class.rs) and the states of
 the composition mode (apps/tailkvm-ui/src-tauri/src/ime_mode.rs).
 */
module KeyRouting {
  import opened Basics

  datatype KeyRoute = Physical | Character | ImeLocal

  datatype Modifier = Ctrl | Alt | Win | Shift

  function ModifierKind(vk: nat): Option<Modifier> {
    if vk in {0x10, 0xA0, 0xA1} then Some(Shift)
    else if vk in {0x11, 0xA2, 0xA3} then Some(Ctrl)
    else if vk in {0x12, 0xA4, 0xA5} then Some(Alt)
    else if vk in {0x5B, 0x5C} then Some(Win)
    else None
  }

  /** Hankaku/zenkaku and the Kanji key. */
  predicate IsImeToggleKey(vk: nat) {
    vk in {0x19, 0xF3, 0xF4}
  }

  predicate IsImeKey(vk: nat) {
    vk in {0x15, 0x16, 0x17, 0x19, 0x1C, 0x1D, 0x1E, 0x1F} || 0xF0 <= vk <= 0xFF
  }

  predicate IsControlNavOrFunction(vk: nat) {
    || vk in {0x08, 0x09, 0x0D, 0x1B, 0x20, 0x13, 0x14, 0x5D, 0x90, 0x91}
    || 0x2C <= vk <= 0x2E || 0x21 <= vk <= 0x28 || 0x70 <= vk <= 0x87
  }

  function ClassifyKey(vk: nat, ctrl: bool, alt: bool, win: bool): KeyRoute {
    if IsImeKey(vk) then ImeLocal
    else if ModifierKind(vk).Some? then Physical
    else if ctrl || alt || win then Physical
    else if IsControlNavOrFunction(vk) then Physical
    else Character
  }

  /** Letters and digits type characters, unless Ctrl, Alt or Win is down. */
  lemma LettersAndDigits(vk: nat, ctrl: bool, alt: bool, win: bool)
    requires 0x41 <= vk <= 0x5A || 0x30 <= vk <= 0x39
    ensures ClassifyKey(vk, ctrl, alt, win) == if ctrl || alt || win then Physical else Character
  {
  }

  /** Enter, Tab, Escape, Backspace, Space, Delete, the arrows, the function keys and all modifiers are always physical. */
  lemma KeysOfTheMachine(vk: nat, ctrl: bool, alt: bool, win: bool)
    requires || vk in {0x0D, 0x09, 0x1B, 0x08, 0x20, 0x2E} || 0x25 <= vk <= 0x28 || 0x70 <= vk <= 0x87
             || vk in {0x10, 0x11, 0x12, 0x5B, 0x5C, 0xA0, 0xA1, 0xA2, 0xA3, 0xA4, 0xA5}
    ensures ClassifyKey(vk, ctrl, alt, win) == Physical
  {
  }

  /** The IME keys stay local under any modifiers, the toggle keys among them. */
  lemma KeysOfTheIme(vk: nat, ctrl: bool, alt: bool, win: bool)
    ensures IsImeToggleKey(vk) ==> ClassifyKey(vk, ctrl, alt, win) == ImeLocal
    ensures vk in {0x15, 0x1C, 0x1D, 0xF0, 0xF2} ==> ClassifyKey(vk, ctrl, alt, win) == ImeLocal && !IsImeToggleKey(vk)
    ensures ClassifyKey(vk, ctrl, alt, win) == ImeLocal ==> ModifierKind(vk).None? && !IsControlNavOrFunction(vk)
  {
  }

  datatype ImeMode = Off | Armed | Composing | Suspended {
    predicate IsOn() {
      Armed? || Composing?
    }

    function OnToggle(): ImeMode {
      if Off? || Suspended? then Armed else Off
    }

    function ObserveComposition(composing: bool): ImeMode {
      if Armed? && composing then Composing
      else if Composing? && !composing then Armed
      else this
    }

    function OnEntryFailure(): ImeMode {
      Suspended
    }
  }
}
