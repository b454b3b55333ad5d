/**
  Scoring: each hit gets its pinned score or the fuzzy matcher's score, hits the matcher
  rejects are dropped, and the survivors are stably ordered by score, highest first,
  then by title.

  The skim matcher is a library outside the model; it is the `Matcher` parameter, a
  function from (title, query) to an optional `i64` score.
*/
module Scoring {
  import opened Wrappers
  import opened Strings
  import opened ProviderApi

  const MAX_SCORE: u32 := 0xFFFF_FFFF
  const MIN_SCORE: u32 := 0

  /** Rust's `i64`, the type of the matcher's scores. */
  type i64 = x: int | -0x8000_0000_0000_0000 <= x < 0x8000_0000_0000_0000

  /** `SkimMatcherV2::fuzzy_match(choice, pattern)`. */
  type Matcher = (string, string) -> Option<i64>

  /** `ScoredHit`. */
  datatype ScoredHit = ScoredHit(hit: Hit, score: u32)

  datatype Ordering = Less | Equal | Greater

  /** The cast `s as u32` of an `i64`: keeps the low 32 bits. */
  function AsU32(x: i64): (r: u32)
    ensures 0 <= x < 0x1_0000_0000 ==> r == x
    ensures (x - r) % 0x1_0000_0000 == 0
  {
    x % 0x1_0000_0000
  }

  /** `get_score`: the matcher's score of the title against the query, truncated to `u32`. */
  function GetScore(hit: Hit, query: string, matcher: Matcher): (r: Option<u32>)
    ensures r.None? <==> matcher(hit.title, query).None?
    ensures r.Some? ==> r.value == AsU32(matcher(hit.title, query).value)
    ensures r.Some? ==> 0 <= matcher(hit.title, query).value < 0x1_0000_0000 ==> r.value == matcher(hit.title, query).value
  {
    match matcher(hit.title, query)
    case None => None
    case Some(s) => Some(AsU32(s))
  }

  /** `get_scored_hit`: a pinned score is taken as it is; otherwise the matcher decides. */
  function GetScoredHit(hit: Hit, query: string, matcher: Matcher): (r: Option<ScoredHit>)
    ensures r.Some? ==> r.value.hit == hit
    ensures hit.overrideScore.Some? ==> r == Some(ScoredHit(hit, hit.overrideScore.value))
    ensures hit.overrideScore.None? ==> (r.None? <==> matcher(hit.title, query).None?)
    ensures hit.overrideScore.None? && r.Some? ==> r.value.score == AsU32(matcher(hit.title, query).value)
  {
    var score := if hit.overrideScore.Some? then hit.overrideScore else GetScore(hit, query, matcher);
    match score
    case None => None
    case Some(s) => Some(ScoredHit(hit, s))
  }

  /** A pinned hit is scored without consulting the matcher: any two matchers agree on it. */
  lemma PinnedIgnoresMatcher(hit: Hit, query: string, m1: Matcher, m2: Matcher)
    requires hit.overrideScore.Some?
    ensures GetScoredHit(hit, query, m1) == GetScoredHit(hit, query, m2)
  {
  }

  /** The `filter_map(get_scored_hit)` step: the scored hits, in input order. */
  function ScoreEach(hits: seq<Hit>, query: string, matcher: Matcher): (r: seq<ScoredHit>)
    ensures |r| <= |hits|
    ensures forall sh :: sh in r <==> sh.hit in hits && GetScoredHit(sh.hit, query, matcher) == Some(sh)
  {
    if hits == [] then []
    else
      var rest := ScoreEach(hits[1..], query, matcher);
      assert forall h :: h in hits <==> h == hits[0] || h in hits[1..];
      match GetScoredHit(hits[0], query, matcher)
      case None => rest
      case Some(sh) => [sh] + rest
  }

  /** Scoring one more hit appends its scored form, if it has one: order and multiplicity follow the input. */
  lemma {:induction false} ScoreEachSnoc(hits: seq<Hit>, h: Hit, query: string, matcher: Matcher)
    ensures ScoreEach(hits + [h], query, matcher)
         == ScoreEach(hits, query, matcher)
            + (if GetScoredHit(h, query, matcher).Some? then [GetScoredHit(h, query, matcher).value] else [])
  {
    if hits == [] {
      assert [h][1..] == [];
      assert hits + [h] == [h];
    } else {
      assert (hits + [h])[0] == hits[0];
      assert (hits + [h])[1..] == hits[1..] + [h];
      ScoreEachSnoc(hits[1..], h, query, matcher);
    }
  }

  /** `compare_hits`: higher score first, then title in ascending order. */
  function CompareHits(a: ScoredHit, b: ScoredHit): Ordering
  {
    if b.score < a.score then Less
    else if b.score > a.score then Greater
    else if StrLess(a.hit.title, b.hit.title) then Less
    else if a.hit.title == b.hit.title then Equal
    else Greater
  }

  /** `a` may stand before `b` in the result. */
  predicate InOrder(a: ScoredHit, b: ScoredHit)
  {
    a.score > b.score || (a.score == b.score && StrLeq(a.hit.title, b.hit.title))
  }

  /** Score descending, and title ascending among equal scores. */
  predicate Sorted(s: seq<ScoredHit>)
  {
    forall i, j :: 0 <= i < j < |s| ==> InOrder(s[i], s[j])
  }

  /**
    `compare_hits` is a total preorder on (score, title): `Equal` exactly on equal keys,
    antisymmetric, transitive, and `InOrder` is "not `Greater`".
  */
  lemma CompareHitsTotalPreorder(a: ScoredHit, b: ScoredHit, c: ScoredHit)
    ensures CompareHits(a, b) == Equal <==> a.score == b.score && a.hit.title == b.hit.title
    ensures CompareHits(a, b) == Less <==> CompareHits(b, a) == Greater
    ensures CompareHits(a, b) == Less && CompareHits(b, c) == Less ==> CompareHits(a, c) == Less
    ensures InOrder(a, b) <==> CompareHits(a, b) != Greater
  {
    StrLessTotal(a.hit.title, b.hit.title);
    StrLessIrreflexive(a.hit.title);
    if CompareHits(a, b) == Less && CompareHits(b, c) == Less && a.score == b.score && b.score == c.score {
      StrLessTransitive(a.hit.title, b.hit.title, c.hit.title);
    }
  }

  lemma InOrderTransitive(a: ScoredHit, b: ScoredHit, c: ScoredHit)
    requires InOrder(a, b) && InOrder(b, c)
    ensures InOrder(a, c)
  {
    if a.score == b.score == c.score && StrLess(a.hit.title, b.hit.title) && StrLess(b.hit.title, c.hit.title) {
      StrLessTransitive(a.hit.title, b.hit.title, c.hit.title);
    }
  }

  /** Inserts `x` before the first element that does not strictly precede it. */
  function Insert(x: ScoredHit, l: seq<ScoredHit>): (r: seq<ScoredHit>)
    ensures multiset(r) == multiset(l) + multiset{x}
  {
    if l == [] then [x]
    else if CompareHits(l[0], x) == Less then
      assert l == [l[0]] + l[1..];
      [l[0]] + Insert(x, l[1..])
    else [x] + l
  }

  /** `sorted_by(compare_hits)`: a stable insertion sort. */
  function SortHits(s: seq<ScoredHit>): (r: seq<ScoredHit>)
    ensures multiset(r) == multiset(s)
  {
    if s == [] then []
    else
      assert s == [s[0]] + s[1..];
      Insert(s[0], SortHits(s[1..]))
  }

  lemma {:induction false} InsertSorted(x: ScoredHit, l: seq<ScoredHit>)
    requires Sorted(l)
    ensures Sorted(Insert(x, l))
  {
    if l != [] {
      var r := Insert(x, l);
      CompareHitsTotalPreorder(l[0], x, x);
      if CompareHits(l[0], x) == Less {
        var tail := l[1..];
        InsertSorted(x, tail);
        assert r == [l[0]] + Insert(x, tail);
        forall j | 1 <= j < |r|
          ensures InOrder(r[0], r[j])
        {
          assert r[j] in multiset(Insert(x, tail));
          if r[j] != x {
            assert r[j] in tail;
            var k :| 0 <= k < |tail| && tail[k] == r[j];
            assert l[k + 1] == r[j];
          }
        }
      } else {
        assert r == [x] + l;
        forall j | 0 <= j < |l|
          ensures InOrder(x, l[j])
        {
          if j > 0 {
            InOrderTransitive(x, l[0], l[j]);
          }
        }
      }
    }
  }

  lemma {:induction false} SortHitsSorted(s: seq<ScoredHit>)
    ensures Sorted(SortHits(s))
  {
    if s != [] {
      SortHitsSorted(s[1..]);
      InsertSorted(s[0], SortHits(s[1..]));
    }
  }

  /** The elements with the given score and title, in order. */
  function SameKey(s: seq<ScoredHit>, score: u32, title: string): (r: seq<ScoredHit>)
    ensures forall k :: 0 <= k < |r| ==> r[k].score == score && r[k].hit.title == title
  {
    if s == [] then []
    else (if s[0].score == score && s[0].hit.title == title then [s[0]] else []) + SameKey(s[1..], score, title)
  }

  /** The key filter of a sequence with a known head. */
  lemma SameKeyCons(h: ScoredHit, t: seq<ScoredHit>, score: u32, title: string)
    ensures SameKey([h] + t, score, title)
         == (if h.score == score && h.hit.title == title then [h] else []) + SameKey(t, score, title)
  {
    assert ([h] + t)[0] == h;
    assert ([h] + t)[1..] == t;
  }

  lemma {:induction false} InsertSameKey(x: ScoredHit, l: seq<ScoredHit>, score: u32, title: string)
    ensures SameKey(Insert(x, l), score, title)
         == (if x.score == score && x.hit.title == title then [x] else []) + SameKey(l, score, title)
  {
    var hx := if x.score == score && x.hit.title == title then [x] else [];
    if l == [] {
      assert Insert(x, l) == [x] + [];
      SameKeyCons(x, [], score, title);
      assert SameKey(Insert(x, l), score, title) == hx + SameKey(l, score, title);
    } else {
      var hl := if l[0].score == score && l[0].hit.title == title then [l[0]] else [];
      assert l == [l[0]] + l[1..];
      SameKeyCons(l[0], l[1..], score, title);
      if CompareHits(l[0], x) == Less {
        assert Insert(x, l) == [l[0]] + Insert(x, l[1..]);
        InsertSameKey(x, l[1..], score, title);
        SameKeyCons(l[0], Insert(x, l[1..]), score, title);
        var rest := SameKey(l[1..], score, title);
        assert SameKey(Insert(x, l), score, title) == hl + (hx + rest);
        assert SameKey(l, score, title) == hl + rest;
        if hx != [] {
          StrLessIrreflexive(x.hit.title);
          assert hl == [];
          assert hl + (hx + rest) == hx + rest;
          assert hl + rest == rest;
        } else {
          assert hx + (hl + rest) == hl + rest;
        }
      } else {
        assert Insert(x, l) == [x] + l;
        SameKeyCons(x, l, score, title);
        assert SameKey(Insert(x, l), score, title) == hx + SameKey(l, score, title);
      }
    }
  }

  /** Sorting is stable: for every key, the hits with that key keep their relative order. */
  lemma {:induction false} SortHitsStable(s: seq<ScoredHit>, score: u32, title: string)
    ensures SameKey(SortHits(s), score, title) == SameKey(s, score, title)
  {
    if s != [] {
      SortHitsStable(s[1..], score, title);
      InsertSameKey(s[0], SortHits(s[1..]), score, title);
    }
  }

  /**
    `get_scored_hits`: the scored survivors, sorted by score descending and then by title,
    a permutation of the `filter_map` result.
  */
  function GetScoredHits(hits: seq<Hit>, query: string, matcher: Matcher): (r: seq<ScoredHit>)
    ensures Sorted(r)
    ensures multiset(r) == multiset(ScoreEach(hits, query, matcher))
    ensures |r| <= |hits|
    ensures forall sh :: sh in r <==> sh.hit in hits && GetScoredHit(sh.hit, query, matcher) == Some(sh)
  {
    var scored := ScoreEach(hits, query, matcher);
    SortHitsSorted(scored);
    var r := SortHits(scored);
    assert |r| == |multiset(r)| == |scored|;
    assert forall sh :: sh in r <==> sh in multiset(r);
    r
  }

  /** Hits with equal score and title come out in the order they went in. */
  lemma GetScoredHitsStable(hits: seq<Hit>, query: string, matcher: Matcher, score: u32, title: string)
    ensures SameKey(GetScoredHits(hits, query, matcher), score, title) == SameKey(ScoreEach(hits, query, matcher), score, title)
  {
    SortHitsStable(ScoreEach(hits, query, matcher), score, title);
  }

  /** A pinned hit is never dropped, whatever the matcher says. */
  lemma PinnedHitKept(hits: seq<Hit>, query: string, matcher: Matcher, h: Hit)
    requires h in hits && h.overrideScore.Some?
    ensures ScoredHit(h, h.overrideScore.value) in GetScoredHits(hits, query, matcher)
  {
  }

  /** A hit without a pinned score that the matcher rejects appears in no form in the result. */
  lemma RejectedHitDropped(hits: seq<Hit>, query: string, matcher: Matcher, h: Hit)
    requires h.overrideScore.None? && matcher(h.title, query).None?
    ensures forall sh :: sh in GetScoredHits(hits, query, matcher) ==> sh.hit != h
  {
  }

  /** A `MAX_SCORE` hit precedes every hit with a lower score. */
  lemma MaxScoreFirst(hits: seq<Hit>, query: string, matcher: Matcher, i: nat, j: nat)
    requires var r := GetScoredHits(hits, query, matcher);
      i < |r| && j < |r| && r[j].score == MAX_SCORE && r[i].score < MAX_SCORE
    ensures j < i
  {
  }
}
