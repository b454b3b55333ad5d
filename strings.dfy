/**
  The parts of Rust's `str` that the launcher relies on, on `string` (a sequence of
  Unicode scalar values): `split` with a one-character pattern, `join`, `trim_start`,
  `trim`, `lines`, `replace` and the lexicographic order `cmp`.
*/
module Strings {

  /** Index of the first occurrence of `c` in `s`. */
  function IndexOf(s: string, c: char): (i: nat)
    requires c in s
    ensures i < |s| && s[i] == c && c !in s[..i]
  {
    if s[0] == c then 0
    else
      var j := IndexOf(s[1..], c);
      assert s[..1 + j] == [s[0]] + s[1..][..j];
      1 + j
  }

  /** Joins the parts with the separator between consecutive parts (`[&str]::join`). */
  function Join(parts: seq<string>, sep: char): string
  {
    if |parts| == 0 then ""
    else if |parts| == 1 then parts[0]
    else parts[0] + [sep] + Join(parts[1..], sep)
  }

  /**
    `str::split` on one character: the maximal separator-free pieces, left to right,
    empty pieces included. There is always at least one piece, and joining the pieces
    with the separator gives back the input.
  */
  function Split(s: string, sep: char): (parts: seq<string>)
    ensures |parts| >= 1
    ensures forall k :: 0 <= k < |parts| ==> sep !in parts[k]
    ensures Join(parts, sep) == s
    decreases |s|
  {
    if sep !in s then [s]
    else
      var i := IndexOf(s, sep);
      var rest := Split(s[i + 1..], sep);
      assert s == s[..i] + [sep] + s[i + 1..];
      [s[..i]] + rest
  }

  /** The first occurrence is where the character occurs with none before it. */
  lemma {:induction false} IndexOfAt(s: string, c: char, n: nat)
    requires n < |s| && s[n] == c && c !in s[..n]
    ensures IndexOf(s, c) == n
  {
    if n > 0 {
      assert s[0] == s[..n][0];
      assert s[1..][..n - 1] == s[1..n];
      assert s[1..n] == s[..n][1..];
      IndexOfAt(s[1..], c, n - 1);
    }
  }

  /** Splitting `a + [sep] + b` with a separator-free `a` gives `a` followed by the parts of `b`. */
  lemma SplitCons(a: string, sep: char, b: string)
    requires sep !in a
    ensures Split(a + [sep] + b, sep) == [a] + Split(b, sep)
  {
    var s := a + [sep] + b;
    assert s[..|a|] == a;
    IndexOfAt(s, sep, |a|);
    assert s[|a| + 1..] == b;
  }

  /** Splitting a join of separator-free parts gives back the parts. */
  lemma {:induction false} SplitJoin(parts: seq<string>, sep: char)
    requires |parts| >= 1
    requires forall k :: 0 <= k < |parts| ==> sep !in parts[k]
    ensures Split(Join(parts, sep), sep) == parts
  {
    if |parts| > 1 {
      SplitCons(parts[0], sep, Join(parts[1..], sep));
      SplitJoin(parts[1..], sep);
    }
  }

  /** The first piece of a split is a prefix of the input, followed by the separator or the end. */
  lemma FirstPiece(s: string, sep: char)
    ensures |Split(s, sep)[0]| <= |s|
    ensures s[..|Split(s, sep)[0]|] == Split(s, sep)[0]
    ensures sep !in Split(s, sep)[0]
    ensures |Split(s, sep)[0]| < |s| ==> s[|Split(s, sep)[0]|] == sep
  {
  }

  /** `char::is_whitespace`: the Unicode White_Space property. */
  predicate IsWhitespace(c: char)
  {
    ('\t' <= c <= '\r') || c == ' ' || c == '\U{85}' || c == '\U{A0}' || c == '\U{1680}'
    || ('\U{2000}' <= c <= '\U{200A}') || c == '\U{2028}' || c == '\U{2029}'
    || c == '\U{202F}' || c == '\U{205F}' || c == '\U{3000}'
  }

  /** `str::trim_start`: drops the leading whitespace. */
  function TrimStart(s: string): (r: string)
    ensures |r| <= |s| && r == s[|s| - |r|..]
    ensures forall k :: 0 <= k < |s| - |r| ==> IsWhitespace(s[k])
    ensures r == [] || !IsWhitespace(r[0])
  {
    if s != [] && IsWhitespace(s[0]) then TrimStart(s[1..]) else s
  }

  /** `str::trim_end`: drops the trailing whitespace. */
  function TrimEnd(s: string): (r: string)
    ensures |r| <= |s| && r == s[..|r|]
    ensures forall k :: |r| <= k < |s| ==> IsWhitespace(s[k])
    ensures r == [] || !IsWhitespace(r[|r| - 1])
  {
    if s != [] && IsWhitespace(s[|s| - 1]) then TrimEnd(s[..|s| - 1]) else s
  }

  /** `str::trim`. */
  function Trim(s: string): string
  {
    TrimEnd(TrimStart(s))
  }

  /** A string trims to nothing exactly when every character in it is whitespace. */
  lemma TrimEmptyIffBlank(s: string)
    ensures Trim(s) == [] <==> forall k :: 0 <= k < |s| ==> IsWhitespace(s[k])
  {
    var t := TrimStart(s);
    assert t != [] ==> t[0] == s[|s| - |t|];
    assert Trim(s) == [] ==> t == [];
  }

  /** Strict lexicographic order on strings: `str::cmp` returning `Less`. */
  predicate StrLess(a: string, b: string)
  {
    if a == [] then b != []
    else if b == [] then false
    else a[0] < b[0] || (a[0] == b[0] && StrLess(a[1..], b[1..]))
  }

  /** `str::cmp` returning `Less` or `Equal`. */
  predicate StrLeq(a: string, b: string)
  {
    a == b || StrLess(a, b)
  }

  lemma {:induction false} StrLessIrreflexive(a: string)
    ensures !StrLess(a, a)
  {
    if a != [] {
      StrLessIrreflexive(a[1..]);
    }
  }

  lemma {:induction false} StrLessTransitive(a: string, b: string, c: string)
    requires StrLess(a, b) && StrLess(b, c)
    ensures StrLess(a, c)
  {
    if a != [] && a[0] == b[0] && b[0] == c[0] {
      StrLessTransitive(a[1..], b[1..], c[1..]);
    }
  }

  /** Any two different strings are ordered one way or the other, and never both. */
  lemma {:induction false} StrLessTotal(a: string, b: string)
    ensures a == b || StrLess(a, b) || StrLess(b, a)
    ensures !(StrLess(a, b) && StrLess(b, a))
  {
    if a != [] && b != [] && a[0] == b[0] {
      StrLessTotal(a[1..], b[1..]);
      if a[1..] == b[1..] {
        assert a == [a[0]] + a[1..] && b == [b[0]] + b[1..];
      }
    }
  }

  /** `str::lines`: pieces ended by `\n`, a `\r` just before that `\n` dropped; no piece after a final `\n`. */
  function Lines(s: string): (ls: seq<string>)
    ensures forall k :: 0 <= k < |ls| ==> '\n' !in ls[k]
    ensures s == [] <==> ls == []
    decreases |s|
  {
    if s == [] then []
    else if '\n' !in s then [s]
    else
      var i := IndexOf(s, '\n');
      var line := s[..i];
      var stripped := if line != [] && line[|line| - 1] == '\r' then line[..|line| - 1] else line;
      assert '\n' !in stripped by {
        assert forall k :: 0 <= k < |stripped| ==> stripped[k] == line[k];
      }
      [stripped] + Lines(s[i + 1..])
  }

  /**
    Without carriage returns and without a final newline, the lines are exactly the
    pieces between the newlines.
  */
  lemma {:induction false} LinesIsSplit(s: string)
    requires s != [] && '\r' !in s && s[|s| - 1] != '\n'
    ensures Lines(s) == Split(s, '\n')
    decreases |s|
  {
    if '\n' in s {
      var i := IndexOf(s, '\n');
      var line := s[..i];
      var rest := s[i + 1..];
      assert i < |s| - 1;
      assert line != [] ==> line[|line| - 1] in s;
      assert forall k :: 0 <= k < |rest| ==> rest[k] == s[i + 1 + k];
      assert rest[|rest| - 1] == s[|s| - 1];
      LinesIsSplit(rest);
    }
  }

  /** A line ended by `\n` is one line, with the `\r` of a `\r\n` ending removed. */
  lemma LinesCons(a: string, b: string)
    requires '\n' !in a
    ensures Lines(a + "\n" + b) == [if a != [] && a[|a| - 1] == '\r' then a[..|a| - 1] else a] + Lines(b)
  {
    var t := a + "\n" + b;
    assert t[..|a|] == a;
    IndexOfAt(t, '\n', |a|);
    assert t[|a| + 1..] == b;
  }

  /** A final newline ends the last line and adds no empty line after it. */
  lemma {:induction false} LinesFinalNewline(s: string)
    requires s != [] && s[|s| - 1] != '\r' && s[|s| - 1] != '\n'
    ensures Lines(s + "\n") == Lines(s)
    decreases |s|
  {
    var t := s + "\n";
    var i := IndexOf(t, '\n');
    if '\n' in s {
      var j := IndexOf(s, '\n');
      IndexOfAt(t, '\n', j);
      assert t[..j] == s[..j];
      var rest := s[j + 1..];
      assert t[j + 1..] == rest + "\n";
      assert j < |s| - 1;
      assert rest[|rest| - 1] == s[|s| - 1];
      LinesFinalNewline(rest);
    } else {
      IndexOfAt(t, '\n', |s|);
      assert t[..|s|] == s;
      assert t[|s| + 1..] == [];
    }
  }

  /** `str::replace`: every non-overlapping occurrence of `from`, leftmost first, becomes `to`. */
  function Replace(s: string, from: string, to: string): string
    requires from != []
  {
    if s == [] then []
    else if |from| <= |s| && s[..|from|] == from then to + Replace(s[|from|..], from, to)
    else [s[0]] + Replace(s[1..], from, to)
  }

  /** Does `pat` occur in `s`? */
  predicate Contains(s: string, pat: string)
  {
    exists i | 0 <= i <= |s| :: OccursAt(s, pat, i)
  }

  /** Does `pat` occur in `s` starting at index `i`? */
  predicate OccursAt(s: string, pat: string, i: int)
  {
    0 <= i <= |s| - |pat| && s[i..i + |pat|] == pat
  }

  /** An occurrence in the tail of a string is an occurrence in the string. */
  lemma ContainsTail(s: string, pat: string)
    requires s != []
    ensures Contains(s[1..], pat) ==> Contains(s, pat)
  {
    if Contains(s[1..], pat) {
      var i :| 0 <= i <= |s[1..]| && OccursAt(s[1..], pat, i);
      assert 0 <= i <= |s| - 1 - |pat|;
      assert s[1..][i..i + |pat|] == s[i + 1..i + 1 + |pat|];
      assert OccursAt(s, pat, i + 1);
    }
  }

  /** A string without an occurrence of the pattern is left as it is. */
  lemma {:induction false} ReplaceAbsent(s: string, from: string, to: string)
    requires from != [] && !Contains(s, from)
    ensures Replace(s, from, to) == s
  {
    if s != [] {
      assert !OccursAt(s, from, 0);
      ContainsTail(s, from);
      ReplaceAbsent(s[1..], from, to);
    }
  }

  /** A replacement by a text not starting with `}` starts with `}` only where the input does. */
  lemma ReplaceBraceHead(s: string, to: string)
    requires to != [] && to[0] != '}'
    ensures Replace(s, "{}", to) != [] && Replace(s, "{}", to)[0] == '}' ==> s != [] && s[0] == '}'
  {
  }

  /**
    Replacing `{}` by a non-empty text free of braces leaves no `{}` behind: every
    placeholder of a URL pattern is filled.
  */
  lemma {:induction false} ReplaceFillsPlaceholders(s: string, to: string)
    requires to != [] && '{' !in to && '}' !in to
    ensures !Contains(Replace(s, "{}", to), "{}")
  {
    if s != [] {
      if 2 <= |s| && s[..2] == "{}" {
        var tail := Replace(s[2..], "{}", to);
        ReplaceFillsPlaceholders(s[2..], to);
        assert Replace(s, "{}", to) == to + tail;
        BraceFreeNoPlaceholder(to);
        assert to[|to| - 1] in to;
        NoPlaceholderAcross(to, tail);
      } else {
        var tail := Replace(s[1..], "{}", to);
        ReplaceFillsPlaceholders(s[1..], to);
        assert Replace(s, "{}", to) == [s[0]] + tail;
        ReplaceBraceHead(s[1..], to);
        assert 2 <= |s| ==> s[..2] == [s[0], s[1]];
        NoPlaceholderAcross([s[0]], tail);
      }
    }
  }

  /** A text without `{` holds no `{}`. */
  lemma BraceFreeNoPlaceholder(t: string)
    requires '{' !in t
    ensures !Contains(t, "{}")
  {
    forall i | 0 <= i <= |t| - 2
      ensures !OccursAt(t, "{}", i)
    {
      assert t[i..i + 2][0] == t[i];
      assert t[i] in t;
    }
  }

  /** Two texts without `{}` concatenate to one without `{}` unless a `{` meets a `}` at the seam. */
  lemma NoPlaceholderAcross(a: string, b: string)
    requires !Contains(a, "{}") && !Contains(b, "{}")
    requires a != [] && b != [] ==> !(a[|a| - 1] == '{' && b[0] == '}')
    ensures !Contains(a + b, "{}")
  {
    if Contains(a + b, "{}") {
      var i :| 0 <= i <= |a + b| && OccursAt(a + b, "{}", i);
      PlaceholderInConcat(a, b, i);
    }
  }

  /** A `{}` in a concatenation lies in the left part, across the seam, or in the right part. */
  lemma PlaceholderInConcat(a: string, b: string, i: int)
    requires OccursAt(a + b, "{}", i)
    ensures || (i + 2 <= |a| && OccursAt(a, "{}", i))
            || (i == |a| - 1 && a[|a| - 1] == '{' && b[0] == '}')
            || (i >= |a| && OccursAt(b, "{}", i - |a|))
  {
    var ab := a + b;
    assert ab[i] == '{' && ab[i + 1] == '}' by {
      assert ab[i..i + 2] == "{}";
      assert ab[i..i + 2][0] == ab[i] && ab[i..i + 2][1] == ab[i + 1];
    }
    if i + 2 <= |a| {
      assert a[i..i + 2] == [a[i], a[i + 1]];
    } else if i >= |a| {
      assert b[i - |a|..i - |a| + 2] == [b[i - |a|], b[i - |a| + 1]];
    }
  }
}
