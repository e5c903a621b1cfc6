/**
 * Token normalisation of the global key listener: raw keyboard keys and
 * mouse buttons become the lower-case token strings the window matches
 * against its two configured keys (app.py, GlobalKeyListener._norm_key and
 * GlobalKeyListener._norm_mouse).
 */
module Normalize {
  import opened Wrappers
  import opened Text

  /**
   * What the listener can read off a keyboard key object: its `char` (ch), its
   * `name` and its virtual-key code `vk`, each possibly absent (None).
   */
  datatype RawKey = RawKey(ch: Option<string>, name: Option<string>, vk: Option<int>)

  /** The mouse buttons the listener distinguishes; Other is every other button. */
  datatype MouseButton = Left | Right | Middle | X1 | X2 | Other

  /** Python truthiness of an optional string: present and non-empty. */
  predicate HasText(s: Option<string>) {
    s.Some? && s.value != []
  }

  /** The numeric-keypad table of virtual-key codes. */
  const Keypad: map<int, string> := map[
    96 := "num0", 97 := "num1", 98 := "num2", 99 := "num3", 100 := "num4",
    101 := "num5", 102 := "num6", 103 := "num7", 104 := "num8", 105 := "num9",
    110 := "num_decimal", 106 := "num_multiply", 107 := "num_add",
    109 := "num_subtract", 111 := "num_divide"]

  /** Codes 96-107 and 109-111 are in the keypad table, and nothing else is. */
  lemma KeypadDomain(vk: int)
    ensures vk in Keypad <==> 96 <= vk <= 107 || 109 <= vk <= 111
  {
  }

  /** The fifteen keypad tokens are pairwise distinct, non-empty and lower-case. */
  lemma KeypadTokens(a: int, b: int)
    requires a in Keypad && b in Keypad
    ensures Keypad[a] != [] && IsLower(Keypad[a])
    ensures Keypad[a] == Keypad[b] ==> a == b
  {
  }

  /**
   * _norm_key: a non-empty `char` wins, then a non-empty `name`, then a
   * keypad code; everything else gives None.
   */
  function NormKey(key: RawKey): (r: Option<string>)
    ensures HasText(key.ch) ==> r == Some(Lower(key.ch.value))
    ensures !HasText(key.ch) && HasText(key.name) ==> r == Some(Lower(key.name.value))
    ensures !HasText(key.ch) && !HasText(key.name) ==>
      r == (if key.vk.Some? && key.vk.value in Keypad then Some(Keypad[key.vk.value]) else None)
    ensures r.None? <==> !HasText(key.ch) && !HasText(key.name) && (key.vk.None? || key.vk.value !in Keypad)
  {
    if HasText(key.ch) then Some(Lower(key.ch.value))
    else if HasText(key.name) then Some(Lower(key.name.value))
    else if key.vk.Some? && key.vk.value in Keypad then Some(Keypad[key.vk.value])
    else None
  }

  /** A token from _norm_key is never the empty string and has no upper-case letter. */
  lemma NormKeyToken(key: RawKey)
    requires NormKey(key).Some?
    ensures HasText(NormKey(key)) && IsLower(NormKey(key).value)
  {
  }

  /**
   * Re-feeding a token as the `name` of a key gives the same token back:
   * normalisation is idempotent.
   */
  lemma NormKeyIdempotent(key: RawKey)
    requires NormKey(key).Some?
    ensures NormKey(RawKey(None, Some(NormKey(key).value), None)) == NormKey(key)
  {
    var t := NormKey(key).value;
    NormKeyToken(key);
    LowerOfLower(t);
  }

  /** _norm_mouse: five buttons have fixed tokens, every other button gives None. */
  function NormMouse(button: MouseButton): (r: Option<string>)
    ensures r.None? <==> button == Other
    ensures r.Some? ==> HasText(r) && IsLower(r.value)
  {
    match button
    case Left => Some("mouse_left")
    case Right => Some("mouse_right")
    case Middle => Some("mouse_middle")
    case X1 => Some("mouse4")
    case X2 => Some("mouse5")
    case Other => None
  }

  /** Distinct buttons give distinct tokens. */
  lemma NormMouseInjective(a: MouseButton, b: MouseButton)
    requires NormMouse(a).Some? && NormMouse(a) == NormMouse(b)
    ensures a == b
  {
  }
}
