/**
  The query engine: a registration-ordered list of providers, each with an optional
  keyword, and the routing of a query to them.

  A blank query yields nothing. A query whose first space-separated word is some provider's
  keyword goes to the first such provider alone, with that word and the whitespace after it
  removed. Any other query goes, unchanged, to every provider without a keyword. The hits
  are then scored and ordered against the text the providers received.
*/
module Engine {
  import opened Wrappers
  import opened Strings
  import opened Frontend
  import opened ProviderApi
  import opened Scoring
  import opened Dispatch

  /** `ProviderInfo`: a provider and its optional keyword. */
  datatype ProviderInfo = ProviderInfo(provider: Provider, keyword: Option<string>)

  /** `QueryResult`: the scored hits, in display order. */
  datatype QueryResult = QueryResult(hits: seq<ScoredHit>)

  /**
    Where a query goes: nowhere (a blank query), or to the listed providers, each
    receiving `input`.
  */
  datatype Route = Blank | Routed(targets: seq<ProviderInfo>, input: string)

  /** The first `' '`-separated word of the query. */
  function FirstWord(query: string): (w: string)
    ensures |w| <= |query| && query[..|w|] == w && ' ' !in w
    ensures |w| < |query| ==> query[|w|] == ' '
  {
    FirstPiece(query, ' ');
    Split(query, ' ')[0]
  }

  /** The first provider, in registration order, whose keyword is exactly `word`. */
  function KeywordIndex(ps: seq<ProviderInfo>, word: string): (r: Option<nat>)
    ensures r.Some? ==> r.value < |ps| && ps[r.value].keyword == Some(word)
    ensures r.Some? ==> forall k :: 0 <= k < r.value ==> ps[k].keyword != Some(word)
    ensures r.None? ==> forall k :: 0 <= k < |ps| ==> ps[k].keyword != Some(word)
  {
    if ps == [] then None
    else if ps[0].keyword == Some(word) then Some(0)
    else
      match KeywordIndex(ps[1..], word)
      case None => None
      case Some(i) => Some(i + 1)
  }

  /** The providers without a keyword, in registration order (`full_query`'s filter). */
  function Unkeyworded(ps: seq<ProviderInfo>): (r: seq<ProviderInfo>)
    ensures |r| <= |ps|
    ensures forall k :: 0 <= k < |r| ==> r[k].keyword.None?
    ensures forall p :: p in r <==> p in ps && p.keyword.None?
  {
    if ps == [] then []
    else
      var init := Unkeyworded(ps[..|ps| - 1]);
      assert forall p :: p in ps <==> p in ps[..|ps| - 1] || p == ps[|ps| - 1];
      init + (if ps[|ps| - 1].keyword.None? then [ps[|ps| - 1]] else [])
  }

  /** The filter keeps order: filtering a concatenation concatenates the filtered parts. */
  lemma {:induction false} UnkeywordedAppend(a: seq<ProviderInfo>, b: seq<ProviderInfo>)
    ensures Unkeyworded(a + b) == Unkeyworded(a) + Unkeyworded(b)
    decreases |b|
  {
    if b != [] {
      var b' := b[..|b| - 1];
      assert (a + b)[..|a + b| - 1] == a + b';
      assert (a + b)[|a + b| - 1] == b[|b| - 1];
      UnkeywordedAppend(a, b');
    } else {
      assert a + b == a;
    }
  }

  /** What `query` does with a query, before any provider runs. */
  function RouteQuery(ps: seq<ProviderInfo>, query: string): Route
  {
    if Trim(query) == [] then Blank
    else
      var word := FirstWord(query);
      match KeywordIndex(ps, word)
      case Some(i) => Routed([ps[i]], TrimStart(query[|word|..]))
      case None => Routed(Unkeyworded(ps), query)
  }

  /** Each provider's result for the input, in provider order. */
  function ResultsOf(providers: seq<ProviderInfo>, input: string, c: Collaborators): (r: seq<ProviderResult>)
    ensures |r| == |providers|
    ensures forall k :: 0 <= k < |r| ==> r[k] == RunProvider(providers[k].provider, input, c)
  {
    seq(|providers|, k requires 0 <= k < |providers| => RunProvider(providers[k].provider, input, c))
  }

  /** The concatenation of the results' hits, in result order. */
  function Aggregate(results: seq<ProviderResult>): (r: ProviderResult)
    ensures forall h :: h in r.hits <==> exists k :: 0 <= k < |results| && h in results[k].hits
  {
    if results == [] then NewResult([])
    else
      var init := results[..|results| - 1];
      var r := NewResult(Aggregate(init).hits + results[|results| - 1].hits);
      assert forall k :: 0 <= k < |init| ==> init[k] == results[k];
      r
  }

  /** The number of hits in all the results together. */
  function TotalHits(results: seq<ProviderResult>): nat
  {
    if results == [] then 0 else |results[0].hits| + TotalHits(results[1..])
  }

  lemma {:induction false} TotalHitsAppend(a: seq<ProviderResult>, b: seq<ProviderResult>)
    ensures TotalHits(a + b) == TotalHits(a) + TotalHits(b)
  {
    if a != [] {
      assert (a + b)[1..] == a[1..] + b;
      assert (a + b)[0] == a[0];
      TotalHitsAppend(a[1..], b);
    } else {
      assert a + b == b;
    }
  }

  /** Aggregation neither drops nor duplicates: its size is the sum of the parts. */
  lemma {:induction false} AggregateCount(results: seq<ProviderResult>)
    ensures |Aggregate(results).hits| == TotalHits(results)
  {
    if results != [] {
      var init := results[..|results| - 1];
      AggregateCount(init);
      assert results == init + [results[|results| - 1]];
      TotalHitsAppend(init, [results[|results| - 1]]);
    }
  }

  /** Aggregation of a concatenation is the concatenation of the aggregations. */
  lemma {:induction false} AggregateAppend(a: seq<ProviderResult>, b: seq<ProviderResult>)
    ensures Aggregate(a + b).hits == Aggregate(a).hits + Aggregate(b).hits
    decreases |b|
  {
    if b != [] {
      var b' := b[..|b| - 1];
      assert (a + b)[..|a + b| - 1] == a + b';
      assert (a + b)[|a + b| - 1] == b[|b| - 1];
      AggregateAppend(a, b');
    } else {
      assert a + b == a;
    }
  }

  /** `inner_query`: query the providers, aggregate, then score and order against the same input. */
  function InnerQuery(providers: seq<ProviderInfo>, input: string, c: Collaborators): QueryResult
  {
    QueryResult(GetScoredHits(Aggregate(ResultsOf(providers, input, c)).hits, input, c.matcher))
  }

  /** `QueryEngine::query`, as a function of the registered providers. */
  function QueryOf(ps: seq<ProviderInfo>, query: string, c: Collaborators): QueryResult
  {
    match RouteQuery(ps, query)
    case Blank => QueryResult([])
    case Routed(targets, input) => InnerQuery(targets, input, c)
  }

  /** `QueryEngine`: the registered providers and the sender to the front end. */
  class QueryEngine {
    var providers: seq<ProviderInfo>
    const sender: Channel

    /** `QueryEngine::new`: no providers yet. */
    constructor (sender: Channel)
      ensures providers == [] && this.sender == sender
    {
      providers := [];
      this.sender := sender;
    }

    /** `register`: appends one entry with the given keyword; earlier entries are unchanged. */
    method Register(provider: Provider, keyword: Option<string>)
      modifies this
      ensures providers == old(providers) + [ProviderInfo(provider, keyword)]
    {
      providers := providers + [ProviderInfo(provider, keyword)];
    }

    /** `check_keywords`: the first provider whose keyword equals the word. */
    method CheckKeywords(firstWord: string) returns (r: Option<nat>)
      ensures r == KeywordIndex(providers, firstWord)
    {
      var i := 0;
      while i < |providers|
        invariant 0 <= i <= |providers|
        invariant forall k :: 0 <= k < i ==> providers[k].keyword != Some(firstWord)
      {
        var keyword := providers[i].keyword;
        if keyword.Some? && keyword.value == firstWord {
          KeywordIndexIs(providers, firstWord, i);
          return Some(i);
        }
        i := i + 1;
      }
      KeywordIndexNone(providers, firstWord);
      return None;
    }

    /** `full_query`: every provider without a keyword, on the unchanged query. */
    method FullQuery(query: string, c: Collaborators) returns (r: QueryResult)
      ensures r == InnerQuery(Unkeyworded(providers), query, c)
    {
      r := RunInnerQuery(Unkeyworded(providers), query, c);
    }

    /**
      `try_keyword_query`: on a keyword match, that provider alone, on the query with the
      first word and the whitespace after it removed; otherwise nothing.
    */
    method TryKeywordQuery(query: string, c: Collaborators) returns (r: Option<QueryResult>)
      ensures var word := FirstWord(query);
        match KeywordIndex(providers, word)
        case None => r.None?
        case Some(i) => r == Some(InnerQuery([providers[i]], TrimStart(query[|word|..]), c))
    {
      var words := Split(query, ' ');
      var firstWord := words[0];
      var found := CheckKeywords(firstWord);
      if found.Some? {
        var newQuery := TrimStart(query[|firstWord|..]);
        var result := RunInnerQuery([providers[found.value]], newQuery, c);
        return Some(result);
      }
      return None;
    }

    /** `query`. */
    method Query(query: string, c: Collaborators) returns (r: QueryResult)
      ensures r == QueryOf(providers, query, c)
    {
      if Trim(query) == [] {
        return QueryResult([]);
      }
      var keyworded := TryKeywordQuery(query, c);
      if keyworded.Some? {
        return keyworded.value;
      }
      r := FullQuery(query, c);
    }

    /**
      `run_hit_action`: runs the hit's own action once; what it sends goes to the engine's
      sender, after everything sent before.
    */
    method RunHitAction(hit: Hit, c: Collaborators, succeeded: bool) returns (e: Effect)
      requires WellTyped(hit)
      modifies sender
      ensures e == PerformAction(hit, c, succeeded)
      ensures sender.sent == old(sender.sent) + e.sent
    {
      e := PerformAction(hit, c, succeeded);
      sender.SendAll(e.sent);
    }
  }

  lemma {:induction false} KeywordIndexIs(ps: seq<ProviderInfo>, word: string, i: nat)
    requires i < |ps| && ps[i].keyword == Some(word)
    requires forall k :: 0 <= k < i ==> ps[k].keyword != Some(word)
    ensures KeywordIndex(ps, word) == Some(i)
  {
    if i > 0 {
      KeywordIndexIs(ps[1..], word, i - 1);
    }
  }

  lemma KeywordIndexNone(ps: seq<ProviderInfo>, word: string)
    requires forall k :: 0 <= k < |ps| ==> ps[k].keyword != Some(word)
    ensures KeywordIndex(ps, word).None?
  {
  }

  /** `inner_query`. */
  method RunInnerQuery(providers: seq<ProviderInfo>, query: string, c: Collaborators) returns (r: QueryResult)
    ensures r == InnerQuery(providers, query, c)
  {
    var results: seq<ProviderResult> := [];
    var i := 0;
    while i < |providers|
      invariant 0 <= i <= |providers|
      invariant results == ResultsOf(providers[..i], query, c)
    {
      results := results + [RunProvider(providers[i].provider, query, c)];
      i := i + 1;
    }
    assert providers[..i] == providers;
    var aggregate := AggregateResults(results);
    r := QueryResult(GetScoredHits(aggregate.hits, query, c.matcher));
  }

  /** `aggregate_results`: appends each result's hits in turn. */
  method AggregateResults(results: seq<ProviderResult>) returns (r: ProviderResult)
    ensures r == Aggregate(results)
  {
    var hits: seq<Hit> := [];
    var i := 0;
    while i < |results|
      invariant 0 <= i <= |results|
      invariant hits == Aggregate(results[..i]).hits
    {
      assert results[..i + 1][..i] == results[..i];
      hits := hits + results[i].hits;
      i := i + 1;
    }
    assert results[..i] == results;
    r := NewResult(hits);
  }

  /** A blank query goes to no provider and yields no hits. */
  lemma BlankQuery(ps: seq<ProviderInfo>, query: string, c: Collaborators)
    requires forall k :: 0 <= k < |query| ==> IsWhitespace(query[k])
    ensures RouteQuery(ps, query) == Blank
    ensures QueryOf(ps, query, c).hits == []
  {
    TrimEmptyIffBlank(query);
  }

  /**
    A query with visible text whose first word is a keyword goes to the first provider
    with that keyword alone; its input is the rest of the query with the leading
    whitespace removed and the trailing whitespace kept.
  */
  lemma KeywordRouting(ps: seq<ProviderInfo>, query: string, i: nat)
    requires Trim(query) != []
    requires i < |ps| && ps[i].keyword == Some(FirstWord(query))
    requires forall k :: 0 <= k < i ==> ps[k].keyword != Some(FirstWord(query))
    ensures var input := TrimStart(query[|FirstWord(query)|..]);
      && RouteQuery(ps, query) == Routed([ps[i]], input)
      && input == query[|query| - |input|..]
  {
    KeywordIndexIs(ps, FirstWord(query), i);
    RouteOnKeyword(ps, query);
    TrimStartOfTail(query, |FirstWord(query)|);
  }

  /** A non-blank query whose first word is a keyword goes to the provider `KeywordIndex` finds. */
  lemma RouteOnKeyword(ps: seq<ProviderInfo>, query: string)
    requires Trim(query) != [] && KeywordIndex(ps, FirstWord(query)).Some?
    ensures RouteQuery(ps, query)
         == Routed([ps[KeywordIndex(ps, FirstWord(query)).value]], TrimStart(query[|FirstWord(query)|..]))
  {
  }

  /** Trimming the start of a tail of the query leaves a suffix of the query. */
  lemma TrimStartOfTail(query: string, n: nat)
    requires n <= |query|
    ensures var input := TrimStart(query[n..]); input == query[|query| - |input|..]
  {
    var rest := query[n..];
    var input := TrimStart(rest);
    assert input == rest[|rest| - |input|..];
    assert rest[|rest| - |input|..] == query[|query| - |input|..];
  }

  /** One routed provider: the hits are its own, scored against the input it received. */
  lemma SingleTarget(p: ProviderInfo, input: string, c: Collaborators)
    ensures InnerQuery([p], input, c)
         == QueryResult(GetScoredHits(RunProvider(p.provider, input, c).hits, input, c.matcher))
  {
    var results := ResultsOf([p], input, c);
    assert results[..0] == [];
    assert Aggregate(results).hits == RunProvider(p.provider, input, c).hits;
  }

  /**
    A query with visible text whose first word is no keyword goes, unchanged, to every
    provider without a keyword, in registration order; no keyworded provider runs.
  */
  lemma FanOut(ps: seq<ProviderInfo>, query: string)
    requires Trim(query) != []
    requires forall k :: 0 <= k < |ps| ==> ps[k].keyword != Some(FirstWord(query))
    ensures RouteQuery(ps, query) == Routed(Unkeyworded(ps), query)
    ensures forall p :: p in RouteQuery(ps, query).targets ==> p.keyword.None?
  {
    KeywordIndexNone(ps, FirstWord(query));
  }

  /** A routed query receives one result per target, and the hits are all of theirs. */
  lemma RoutedHitCount(ps: seq<ProviderInfo>, query: string, c: Collaborators)
    requires RouteQuery(ps, query).Routed?
    ensures var route := RouteQuery(ps, query);
      |Aggregate(ResultsOf(route.targets, route.input, c)).hits|
      == TotalHits(ResultsOf(route.targets, route.input, c))
  {
    var route := RouteQuery(ps, query);
    AggregateCount(ResultsOf(route.targets, route.input, c));
  }

  /**
    With a provider registered under the keyword `calc` and one without a keyword,
    `calc 2+2` runs only the first, with input `2+2`.
  */
  lemma CalcExample(calculator: Provider, other: Provider, ps: seq<ProviderInfo>, q: string)
    requires ps == [ProviderInfo(calculator, Some("calc")), ProviderInfo(other, None)]
    requires q == "calc 2+2"
    ensures RouteQuery(ps, q) == Routed([ProviderInfo(calculator, Some("calc"))], "2+2")
  {
    CalcQueryVisible(q);
    CalcFirstWord(q);
    CalcInput(q);
    KeywordRouting(ps, q, 0);
  }

  /** `calc 2+2` has visible text. */
  lemma CalcQueryVisible(q: string)
    requires q == "calc 2+2"
    ensures Trim(q) != []
  {
    assert TrimStart(q) == q by { assert !IsWhitespace(q[0]); }
    assert TrimEnd(q) == q by { assert !IsWhitespace(q[|q| - 1]); }
  }

  /** The first word of `calc 2+2` is `calc`. */
  lemma CalcFirstWord(q: string)
    requires q == "calc 2+2"
    ensures FirstWord(q) == "calc"
  {
    assert q == "calc" + [' '] + "2+2";
    assert ' ' !in "calc";
    SplitCons("calc", ' ', "2+2");
  }

  /** After the word `calc`, the input is `2+2`. */
  lemma CalcInput(q: string)
    requires q == "calc 2+2"
    ensures TrimStart(q[4..]) == "2+2"
  {
    assert q[4..] == [' '] + "2+2";
    assert TrimStart("2+2") == "2+2" by { assert !IsWhitespace('2'); }
  }
}
