/**
  The emacs-style binding parser: `-`-separated segments, the last one a key named in any
  letter case, the others modifiers written exactly `A`, `C`, `S` or `M`.
*/
module HotkeyParsing {
  import opened Wrappers
  import opened Strings
  import opened HotkeyStructs

  /** `ParseError`. */
  datatype ParseError = InvalidModifier | InvalidKey

  /** `ParsedBinding`: the modifier flags form a set. */
  datatype ParsedBinding = ParsedBinding(modifiers: set<Modifier>, key: Key)

  /**
    `char::to_lowercase`, as far as it can make a key name: `A`..`Z` and the Kelvin sign
    (U+212A) become ASCII lower case; every other character stays as it is. Rust lowers
    more characters, but each of them to a text holding a non-ASCII character, so which
    key names match is the same.
  */
  function LowerChar(c: char): (r: char)
    ensures 'a' <= r <= 'z' ==> 'a' <= c <= 'z' || 'A' <= c <= 'Z' || c == '\U{212A}'
  {
    if 'A' <= c <= 'Z' then (c as int + 32) as char
    else if c == '\U{212A}' then 'k'
    else c
  }

  /** `str::to_lowercase`, character by character. */
  function Lowercase(s: string): (r: string)
    ensures |r| == |s| && forall k :: 0 <= k < |s| ==> r[k] == LowerChar(s[k])
  {
    if s == [] then [] else [LowerChar(s[0])] + Lowercase(s[1..])
  }

  /** Lowering twice is lowering once. */
  lemma LowercaseIdempotent(s: string)
    ensures Lowercase(Lowercase(s)) == Lowercase(s)
  {
  }

  /** `convert_modifier`: exactly one upper-case letter each; anything else is invalid. */
  function ConvertModifier(value: string): (r: Result<Modifier, ParseError>)
    ensures r.Failure? ==> r.error == InvalidModifier
    ensures r.Success? <==> value in {"A", "C", "S", "M"}
  {
    if value == "A" then Success(Alt)
    else if value == "C" then Success(Control)
    else if value == "S" then Success(Shift)
    else if value == "M" then Success(Super)
    else Failure(InvalidModifier)
  }

  /** The key a lower-case name stands for: a letter, or a special key in angle brackets. */
  function KeyNamed(name: string): Option<Key>
  {
    if |name| == 1 then LetterNamed(name[0]) else SpecialNamed(name)
  }

  /** The letter key a lower-case letter stands for. */
  function LetterNamed(c: char): Option<Key>
  {
    match c
    case 'a' => Some(A) case 'b' => Some(B) case 'c' => Some(C) case 'd' => Some(D)
    case 'e' => Some(E) case 'f' => Some(F) case 'g' => Some(G) case 'h' => Some(H)
    case 'i' => Some(I) case 'j' => Some(J) case 'k' => Some(K) case 'l' => Some(L)
    case 'm' => Some(M) case 'n' => Some(N) case 'o' => Some(O) case 'p' => Some(P)
    case 'q' => Some(Q) case 'r' => Some(R) case 's' => Some(S) case 't' => Some(T)
    case 'u' => Some(U) case 'v' => Some(V) case 'w' => Some(W) case 'x' => Some(X)
    case 'y' => Some(Y) case 'z' => Some(Z)
    case _ => None
  }

  /** The special key a name in angle brackets stands for. */
  function SpecialNamed(name: string): Option<Key>
  {
    match name
    case "<backspace>" => Some(Backspace)
    case "<tab>" => Some(Tab)
    case "<enter>" => Some(Enter)
    case "<caps_lock>" => Some(CapsLock)
    case "<escape>" => Some(Escape)
    case "<space>" => Some(Space)
    case "<page_up>" => Some(PageUp)
    case "<page_down>" => Some(PageDown)
    case "<end>" => Some(End)
    case "<home>" => Some(Home)
    case "<left>" => Some(Left)
    case "<right>" => Some(Right)
    case "<up>" => Some(Up)
    case "<down>" => Some(Down)
    case "<print_screen>" => Some(PrintScreen)
    case "<insert>" => Some(Insert)
    case "<delete>" => Some(Delete)
    case _ => None
  }

  /** `convert_key`: the key whose name is the lowered value. */
  function ConvertKey(value: string): (r: Result<Key, ParseError>)
    ensures r.Failure? ==> r.error == InvalidKey
    ensures r.Success? <==> KeyNamed(Lowercase(value)).Some?
    ensures r.Success? ==> r.value == KeyNamed(Lowercase(value)).value
  {
    match KeyNamed(Lowercase(value))
    case Some(k) => Success(k)
    case None => Failure(InvalidKey)
  }

  /** The key segment ignores letter case: values that lower alike name the same key. */
  lemma ConvertKeyCaseInsensitive(v1: string, v2: string)
    requires Lowercase(v1) == Lowercase(v2)
    ensures ConvertKey(v1) == ConvertKey(v2)
  {
  }

  /**
    The modifier segments, folded left to right: the union of their flags, or
    `InvalidModifier` at the first segment that is not a modifier.
  */
  function ModifiersOf(parts: seq<string>): (r: Result<set<Modifier>, ParseError>)
    ensures r.Success? <==> forall k :: 0 <= k < |parts| ==> ConvertModifier(parts[k]).Success?
    ensures r.Failure? ==> r.error == InvalidModifier
    ensures r.Success? ==> forall m :: m in r.value <==> exists k :: 0 <= k < |parts| && ConvertModifier(parts[k]) == Success(m)
  {
    if parts == [] then Success({})
    else
      var init := parts[..|parts| - 1];
      assert forall k :: 0 <= k < |init| ==> init[k] == parts[k];
      match ModifiersOf(init)
      case Failure(e) => Failure(e)
      case Success(ms) =>
        match ConvertModifier(parts[|parts| - 1])
        case Failure(e) => Failure(e)
        case Success(m) => Success(ms + {m})
  }

  /** The result of a binding whose key and modifier segments have been converted: the key's error first. */
  function Assemble(key: Result<Key, ParseError>, modifiers: Result<set<Modifier>, ParseError>): (r: Result<ParsedBinding, ParseError>)
    ensures key.Failure? ==> r == Failure(key.error)
    ensures key.Success? && modifiers.Failure? ==> r == Failure(modifiers.error)
    ensures r.Success? <==> key.Success? && modifiers.Success?
  {
    match key
    case Failure(e) => Failure(e)
    case Success(k) =>
      match modifiers
      case Failure(e) => Failure(e)
      case Success(ms) => Success(ParsedBinding(ms, k))
  }

  /** `parse_binding`, as a function of the binding: the last segment is the key, the others modifiers. */
  function Parse(binding: string): Result<ParsedBinding, ParseError>
  {
    var parts := Split(binding, '-');
    Assemble(ConvertKey(parts[|parts| - 1]), ModifiersOf(parts[..|parts| - 1]))
  }

  /** `parse_binding`: the key first, then the modifiers one segment at a time. */
  method ParseBinding(binding: string) returns (r: Result<ParsedBinding, ParseError>)
    ensures r == Parse(binding)
  {
    var parts := Split(binding, '-');
    var key := ConvertKey(parts[|parts| - 1]);
    if key.Failure? {
      return Failure(key.error);
    }
    var modifiers := FoldModifiers(parts[..|parts| - 1]);
    if modifiers.Failure? {
      return Failure(modifiers.error);
    }
    return Success(ParsedBinding(modifiers.value, key.value));
  }

  /** The loop of `parse_binding` over the modifier segments: stops at the first invalid one. */
  method FoldModifiers(parts: seq<string>) returns (r: Result<set<Modifier>, ParseError>)
    ensures r == ModifiersOf(parts)
  {
    var modifiers: set<Modifier> := {};
    var i := 0;
    while i < |parts|
      invariant 0 <= i <= |parts|
      invariant ModifiersOf(parts[..i]) == Success(modifiers)
    {
      assert parts[..i + 1][..i] == parts[..i];
      var modifier := ConvertModifier(parts[i]);
      if modifier.Failure? {
        assert ModifiersOf(parts[..i + 1]).Failure?;
        ModifiersOfPrefixFails(parts, i + 1);
        return Failure(modifier.error);
      }
      modifiers := modifiers + {modifier.value};
      i := i + 1;
    }
    assert parts[..i] == parts;
    return Success(modifiers);
  }

  /** Once a prefix of the segments fails, so do the segments. */
  lemma ModifiersOfPrefixFails(parts: seq<string>, n: nat)
    requires n <= |parts| && ModifiersOf(parts[..n]).Failure?
    ensures ModifiersOf(parts).Failure?
  {
    var k :| 0 <= k < n && ConvertModifier(parts[..n][k]).Failure?;
    assert parts[..n][k] == parts[k];
  }

  /** Folding two runs of segments: the union of the flags, failing when either fails. */
  lemma {:induction false} ModifiersOfAppend(a: seq<string>, b: seq<string>)
    ensures ModifiersOf(a + b).Failure? <==> ModifiersOf(a).Failure? || ModifiersOf(b).Failure?
    ensures ModifiersOf(a + b).Success? ==> ModifiersOf(a + b).value == ModifiersOf(a).value + ModifiersOf(b).value
    decreases |b|
  {
    if b == [] {
      assert a + b == a;
    } else {
      var b' := b[..|b| - 1];
      assert (a + b)[..|a + b| - 1] == a + b';
      assert (a + b)[|a + b| - 1] == b[|b| - 1];
      ModifiersOfAppend(a, b');
    }
  }

  /** A binding written with its segments: the parse of `m1-…-mk-key`. */
  lemma ParseSegments(mods: seq<string>, key: string)
    requires '-' !in key && forall k :: 0 <= k < |mods| ==> '-' !in mods[k]
    ensures Parse(Join(mods + [key], '-')) == Assemble(ConvertKey(key), ModifiersOf(mods))
  {
    var parts := mods + [key];
    SplitJoin(parts, '-');
    assert parts[..|parts| - 1] == mods;
  }

  /**
    An invalid key is reported as `InvalidKey` whatever the modifiers; with a valid key,
    an unknown modifier segment is reported as `InvalidModifier`; a binding parses exactly
    when its key and all its modifiers are valid.
  */
  lemma ErrorPrecedence(mods: seq<string>, key: string)
    requires '-' !in key && forall k :: 0 <= k < |mods| ==> '-' !in mods[k]
    ensures ConvertKey(key).Failure? ==> Parse(Join(mods + [key], '-')) == Failure(InvalidKey)
    ensures ConvertKey(key).Success? && (exists k :: 0 <= k < |mods| && ConvertModifier(mods[k]).Failure?)
      ==> Parse(Join(mods + [key], '-')) == Failure(InvalidModifier)
    ensures Parse(Join(mods + [key], '-')).Success?
      <==> ConvertKey(key).Success? && forall k :: 0 <= k < |mods| ==> ConvertModifier(mods[k]).Success?
  {
    ParseSegments(mods, key);
  }

  /** The key segment is matched in any letter case. */
  lemma ParseCaseInsensitiveKey(mods: seq<string>, k1: string, k2: string)
    requires '-' !in k1 && '-' !in k2 && forall k :: 0 <= k < |mods| ==> '-' !in mods[k]
    requires Lowercase(k1) == Lowercase(k2)
    ensures Parse(Join(mods + [k1], '-')) == Parse(Join(mods + [k2], '-'))
  {
    ParseSegments(mods, k1);
    ParseSegments(mods, k2);
  }

  /** Repeating the modifier segments repeats no flag. */
  lemma ModifiersTwice(mods: seq<string>)
    ensures ModifiersOf(mods + mods) == ModifiersOf(mods)
  {
    ModifiersOfAppend(mods, mods);
    var once := ModifiersOf(mods);
    var twice := ModifiersOf(mods + mods);
    if once.Success? {
      assert twice.value == once.value + once.value == once.value;
    }
  }

  /** Writing the modifiers twice gives the same binding as writing them once. */
  lemma RepeatedModifiers(mods: seq<string>, key: string)
    requires '-' !in key && forall k :: 0 <= k < |mods| ==> '-' !in mods[k]
    ensures Parse(Join(mods + mods + [key], '-')) == Parse(Join(mods + [key], '-'))
  {
    ParseSegments(mods, key);
    assert forall k :: 0 <= k < |mods + mods| ==> '-' !in (mods + mods)[k];
    ParseSegments(mods + mods, key);
    ModifiersTwice(mods);
  }

  /** `should_parse_single_key`: `q` is the key Q without modifiers. */
  lemma ParseSingleKey(b: string)
    requires b == "q"
    ensures Parse(b) == Success(ParsedBinding({}, Q))
  {
    assert Split(b, '-') == ["q"];
    assert Lowercase("q") == "q";
    assert ["q"][..0] == [];
  }

  /** `should_parse_single_modifier`: `C-a` is Control with A. */
  lemma ParseSingleModifier(b: string)
    requires b == "C-a"
    ensures Parse(b) == Success(ParsedBinding({Control}, A))
  {
    var parts := ["C", "a"];
    assert Split(b, '-') == parts by {
      assert Join(parts, '-') == b;
      SplitJoin(parts, '-');
    }
    ParseControlA(b);
  }

  /** The segments `C`, `a` are Control with A. */
  lemma ParseControlA(b: string)
    requires Split(b, '-') == ["C", "a"]
    ensures Parse(b) == Success(ParsedBinding({Control}, A))
  {
    var parts := Split(b, '-');
    KeyOfLetter(parts[1], 'a', A);
    assert parts[..1] == ["C"];
    ModifierControl(parts[..1]);
    ParseOfSegments(b, parts, A, {Control});
  }

  /** The key segment `s`. */
  lemma KeyOfS(v: string)
    requires v == "s"
    ensures ConvertKey(v) == Success(S)
  {
    KeyOfLetter(v, 's', S);
  }

  /** A one-letter key segment in lower case. */
  lemma KeyOfLetter(v: string, c: char, key: Key)
    requires v == [c] && LetterNamed(c) == Some(key)
    ensures ConvertKey(v) == Success(key)
  {
    assert Lowercase(v) == [LowerChar(c)];
    assert LowerChar(c) == c;
  }

  /** The modifier segment `C` alone. */
  lemma ModifierControl(mods: seq<string>)
    requires mods == ["C"]
    ensures ModifiersOf(mods) == Success({Control})
  {
    assert mods[..0] == [];
    assert ModifiersOf(mods) == Success({} + {Control});
    assert {} + {Control} == {Control};
  }

  /** The modifier segments `C`, `A`, `S`. */
  lemma ControlAltShift(mods: seq<string>)
    requires mods == ["C", "A", "S"]
    ensures ModifiersOf(mods) == Success({Control, Alt, Shift})
  {
    assert mods[..2] == ["C", "A"];
    assert mods[..2][..1] == ["C"];
    assert ["C"][..0] == [];
    assert ModifiersOf(["C"]) == Success({} + {Control});
    assert ModifiersOf(["C", "A"]) == Success({} + {Control} + {Alt});
    assert ModifiersOf(mods) == Success({} + {Control} + {Alt} + {Shift});
    assert {} + {Control} + {Alt} + {Shift} == {Control, Alt, Shift};
  }

  /** `C-A-S-s` has the segments `C`, `A`, `S`, `s`. */
  lemma SegmentsOfControlAltShiftS(b: string)
    requires b == "C-A-S-s"
    ensures Split(b, '-') == ["C", "A", "S", "s"]
  {
    var parts := ["C", "A", "S", "s"];
    assert Join(parts, '-') == b;
    SplitJoin(parts, '-');
  }

  /** `should_parse_multi_modifier`: `C-A-S-s` is Control, Alt and Shift with S. */
  lemma ParseMultiModifier(b: string)
    requires b == "C-A-S-s"
    ensures Parse(b) == Success(ParsedBinding({Control, Alt, Shift}, S))
  {
    SegmentsOfControlAltShiftS(b);
    ParseControlAltShiftS(b);
  }

  /** The segments `C`, `A`, `S`, `s` are Control, Alt and Shift with S. */
  lemma ParseControlAltShiftS(b: string)
    requires Split(b, '-') == ["C", "A", "S", "s"]
    ensures Parse(b) == Success(ParsedBinding({Control, Alt, Shift}, S))
  {
    var parts := ["C", "A", "S", "s"];
    KeyOfS(parts[3]);
    assert parts[..3] == ["C", "A", "S"];
    ControlAltShift(parts[..3]);
    ParseOfSegments(b, parts, S, {Control, Alt, Shift});
  }

  /** A binding whose key segment and modifier segments convert parses to their results. */
  lemma ParseOfSegments(b: string, parts: seq<string>, key: Key, modifiers: set<Modifier>)
    requires Split(b, '-') == parts && |parts| >= 1
    requires ConvertKey(parts[|parts| - 1]) == Success(key)
    requires ModifiersOf(parts[..|parts| - 1]) == Success(modifiers)
    ensures Parse(b) == Success(ParsedBinding(modifiers, key))
  {
  }

  /** No key name is twelve characters long. */
  lemma NoTwelveCharacterKeyName(name: string)
    ensures |name| == 12 ==> KeyNamed(name).None?
  {
  }

  /** `should_fail`: the last segment, ` garbage out`, is no key. */
  lemma ParseGarbage(b: string)
    requires b == "garbage in - garbage out"
    ensures Parse(b) == Failure(InvalidKey)
  {
    var parts := ["garbage in ", " garbage out"];
    assert Split(b, '-') == parts by {
      assert Join(parts, '-') == b;
      SplitJoin(parts, '-');
    }
    NoTwelveCharacterKeyName(Lowercase(" garbage out"));
  }
}
