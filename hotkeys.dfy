/**
  The hotkey listener's registration list and the conversions to the hotkey library's
  codes. The modifier masks and the codes of the named keys are the library's constants,
  which differ by platform; they are the `masks` and `special` parameters.
*/
module Hotkeys {
  import opened Wrappers
  import opened HotkeyStructs
  import opened HotkeyParsing
  import opened ProviderApi

  /** `Hotkey<T>`: a binding and the value it sends. */
  datatype Hotkey<T> = Hotkey(modifiers: set<Modifier>, key: Key, value: T)

  /** `Listener<T>`: the hotkeys registered so far, in order. */
  class Listener<T> {
    var hotkeys: seq<Hotkey<T>>

    /** `Listener::new`: no hotkeys. */
    constructor ()
      ensures hotkeys == []
    {
      hotkeys := [];
    }

    /** `register`: appends exactly one hotkey; earlier entries are unchanged. */
    method Register(modifiers: set<Modifier>, key: Key, value: T)
      modifies this
      ensures hotkeys == old(hotkeys) + [Hotkey(modifiers, key, value)]
    {
      hotkeys := hotkeys + [Hotkey(modifiers, key, value)];
    }

    /**
      `register_emacs`: on a successful parse, appends the parsed binding; on a parse
      error, returns that error and leaves the list as it was.
    */
    method RegisterEmacs(binding: string, value: T) returns (r: Result<(), ParseError>)
      modifies this
      ensures match Parse(binding)
        case Success(p) => r.Success? && hotkeys == old(hotkeys) + [Hotkey(p.modifiers, p.key, value)]
        case Failure(e) => r == Failure(e) && hotkeys == old(hotkeys)
    {
      var result := ParseBinding(binding);
      if result.Failure? {
        return Failure(result.error);
      }
      Register(result.value.modifiers, result.value.key, value);
      return Success(());
    }
  }

  /**
    A `u32` flag word, as the set of the positions of its one bits: `0` is the empty set
    and `|` is union.
  */
  type Flags = s: set<nat> | forall b :: b in s ==> b < 32

  /** The hotkey library's modifier masks. */
  datatype ModifierMasks = ModifierMasks(alt: Flags, control: Flags, shift: Flags, superKey: Flags)

  /** `convert_modifier`. */
  function ConvertModifier(value: Modifier, masks: ModifierMasks): Flags
  {
    match value
    case Alt => masks.alt
    case Control => masks.control
    case Shift => masks.shift
    case Super => masks.superKey
  }

  /** The mask of `m` when it is in the set, else no bits. */
  function MaskIf(m: Modifier, modifiers: set<Modifier>, masks: ModifierMasks): Flags
  {
    if m in modifiers then ConvertModifier(m, masks) else {}
  }

  /** The code of a set of modifiers: the OR of its members' masks. */
  function ModifierBits(modifiers: set<Modifier>, masks: ModifierMasks): Flags
  {
    MaskIf(Alt, modifiers, masks) + MaskIf(Control, modifiers, masks)
    + MaskIf(Shift, modifiers, masks) + MaskIf(Super, modifiers, masks)
  }

  /** A bit is set in the code exactly when it is set in the mask of a member. */
  lemma ModifierBitsMembers(modifiers: set<Modifier>, masks: ModifierMasks, b: nat)
    ensures b in ModifierBits(modifiers, masks) <==> exists m :: m in modifiers && b in ConvertModifier(m, masks)
  {
    if b in ModifierBits(modifiers, masks) {
      if b in MaskIf(Alt, modifiers, masks) {
        assert Alt in modifiers && b in ConvertModifier(Alt, masks);
      } else if b in MaskIf(Control, modifiers, masks) {
        assert Control in modifiers && b in ConvertModifier(Control, masks);
      } else if b in MaskIf(Shift, modifiers, masks) {
        assert Shift in modifiers && b in ConvertModifier(Shift, masks);
      } else {
        assert Super in modifiers && b in ConvertModifier(Super, masks);
      }
    }
  }

  /** No modifiers is code 0; one modifier is its mask; a union is the OR of the parts. */
  lemma ModifierBitsLaws(a: set<Modifier>, b: set<Modifier>, m: Modifier, masks: ModifierMasks)
    ensures ModifierBits({}, masks) == {}
    ensures ModifierBits({m}, masks) == ConvertModifier(m, masks)
    ensures ModifierBits(a + b, masks) == ModifierBits(a, masks) + ModifierBits(b, masks)
  {
  }

  /** The flags in the order `BitFlags` iterates them. */
  const AllModifiers: seq<Modifier> := [Alt, Control, Shift, Super]

  /** `convert_modifiers`: ORs the mask of each member in turn, in iteration order. */
  method ConvertModifiers(modifiers: set<Modifier>, masks: ModifierMasks) returns (result: Flags)
    ensures result == ModifierBits(modifiers, masks)
  {
    result := {};
    var i := 0;
    while i < |AllModifiers|
      invariant 0 <= i <= |AllModifiers|
      invariant result == set m, b | m in AllModifiers[..i] && m in modifiers && b in ConvertModifier(m, masks) :: b
    {
      var modifier := AllModifiers[i];
      assert AllModifiers[..i + 1] == AllModifiers[..i] + [modifier];
      if modifier in modifiers {
        result := result + ConvertModifier(modifier, masks);
      }
      i := i + 1;
    }
    assert AllModifiers[..i] == AllModifiers;
    forall b | b in ModifierBits(modifiers, masks)
      ensures b in result
    {
      ModifierBitsMembers(modifiers, masks, b);
    }
    forall b | b in result
      ensures b in ModifierBits(modifiers, masks)
    {
      ModifierBitsMembers(modifiers, masks, b);
    }
  }

  /** The upper-case ASCII letter of a letter key. */
  function LetterChar(k: Key): (c: char)
    requires IsLetter(k)
    ensures 'A' <= c <= 'Z'
  {
    match k
    case A => 'A' case B => 'B' case C => 'C' case D => 'D' case E => 'E' case F => 'F'
    case G => 'G' case H => 'H' case I => 'I' case J => 'J' case K => 'K' case L => 'L'
    case M => 'M' case N => 'N' case O => 'O' case P => 'P' case Q => 'Q' case R => 'R'
    case S => 'S' case T => 'T' case U => 'U' case V => 'V' case W => 'W' case X => 'X'
    case Y => 'Y' case Z => 'Z'
  }

  /** `convert_key`: a letter is the code of its upper-case ASCII letter; a named key the library's code. */
  function ConvertKey(value: Key, special: Key -> u32): (code: u32)
    ensures IsLetter(value) ==> code == LetterChar(value) as int
    ensures !IsLetter(value) ==> code == special(value)
  {
    if IsLetter(value) then LetterChar(value) as int else special(value)
  }

  /** The letter key of an upper-case ASCII letter. */
  function LetterKey(c: char): (k: Key)
    requires 'A' <= c <= 'Z'
    ensures IsLetter(k)
  {
    match c
    case 'A' => A case 'B' => B case 'C' => C case 'D' => D case 'E' => E case 'F' => F
    case 'G' => G case 'H' => H case 'I' => I case 'J' => J case 'K' => K case 'L' => L
    case 'M' => M case 'N' => N case 'O' => O case 'P' => P case 'Q' => Q case 'R' => R
    case 'S' => S case 'T' => T case 'U' => U case 'V' => V case 'W' => W case 'X' => X
    case 'Y' => Y case _ => Z
  }

  /** Each letter key has its own letter. */
  lemma LetterKeyOfLetterChar(k: Key)
    requires IsLetter(k)
    ensures LetterKey(LetterChar(k)) == k
  {
    match k
    case A => case B => case C => case D => case E => case F => case G => case H => case I =>
    case J => case K => case L => case M => case N => case O => case P => case Q => case R =>
    case S => case T => case U => case V => case W => case X => case Y => case Z =>
  }

  /** Letter keys map to the codes 65 to 90, a different code for each letter. */
  lemma LetterCodes(k1: Key, k2: Key, special: Key -> u32)
    requires IsLetter(k1) && IsLetter(k2)
    ensures 65 <= ConvertKey(k1, special) <= 90
    ensures ConvertKey(k1, special) == ConvertKey(k2, special) <==> k1 == k2
  {
    LetterKeyOfLetterChar(k1);
    LetterKeyOfLetterChar(k2);
  }
}
