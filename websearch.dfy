/**
  The web search provider: whatever is typed becomes one hit, pinned at the lowest score,
  whose action opens the configured URL pattern with the encoded query filled in.

  `urlencoding::encode` is a library outside the model; it is the `encode` parameter.
*/
module WebsearchPlugin {
  import opened Wrappers
  import opened Strings
  import opened Frontend
  import opened ProviderApi
  import opened Scoring

  /** The provider's configuration. */
  datatype WebsearchConfig = WebsearchConfig(urlPattern: string, subtitle: string)

  /** `WebsearchProvider`. */
  datatype WebsearchProvider = WebsearchProvider(config: WebsearchConfig)

  /**
    `WebsearchProvider::query`: one hit titled with the query, pinned at `MIN_SCORE`,
    carrying the configured URL pattern unchanged.
  */
  function Query(p: WebsearchProvider, query: string): (r: ProviderResult)
    ensures |r.hits| == 1
    ensures r.hits[0].title == query && r.hits[0].subtitle == p.config.subtitle
    ensures r.hits[0].data == SearchData(p.config.urlPattern)
    ensures r.hits[0].overrideScore == Some(MIN_SCORE) && r.hits[0].action == DoSearch
    ensures WellTyped(r.hits[0])
  {
    var extra := SearchData(p.config.urlPattern);
    SingleResult(WithScore(NewWithData(query, p.config.subtitle, extra, DoSearch), MIN_SCORE))
  }

  /** The URL `do_search` opens: every `{}` of the pattern replaced by the encoded title. */
  function SearchUrl(hit: Hit, encode: string -> string): string
    requires hit.data.SearchData?
  {
    Replace(hit.data.urlPattern, "{}", encode(hit.title))
  }

  /**
    `do_search`: opens the search URL; a failure (`succeeded` false) is logged; `Hide` is
    sent either way.
  */
  function DoSearchEffect(hit: Hit, encode: string -> string, succeeded: bool): (e: Effect)
    requires hit.data.SearchData?
    ensures e.call == Some(OpenUrl(SearchUrl(hit, encode)))
    ensures e.loggedError <==> !succeeded
    ensures e.sent == [Hide]
  {
    Effect(Some(OpenUrl(SearchUrl(hit, encode))), !succeeded, [Hide])
  }

  /** A pattern without a `{}` placeholder is opened exactly as configured. */
  lemma PatternWithoutPlaceholder(hit: Hit, encode: string -> string)
    requires hit.data.SearchData? && !Contains(hit.data.urlPattern, "{}")
    ensures SearchUrl(hit, encode) == hit.data.urlPattern
  {
    ReplaceAbsent(hit.data.urlPattern, "{}", encode(hit.title));
  }

  /**
    When the encoder emits no braces and a non-empty text (percent-encoding does both for a
    non-empty title), the opened URL has no placeholder left.
  */
  lemma UrlFullyFilled(hit: Hit, encode: string -> string)
    requires hit.data.SearchData?
    requires encode(hit.title) != [] && '{' !in encode(hit.title) && '}' !in encode(hit.title)
    ensures !Contains(SearchUrl(hit, encode), "{}")
  {
    ReplaceFillsPlaceholders(hit.data.urlPattern, encode(hit.title));
  }

  /** The web search hit survives scoring with score `MIN_SCORE`, whatever the matcher. */
  lemma QuerySurvivesScoring(p: WebsearchProvider, query: string, scoringQuery: string, matcher: Matcher)
    ensures var hits := Query(p, query).hits;
      GetScoredHits(hits, scoringQuery, matcher) == [ScoredHit(hits[0], MIN_SCORE)]
  {
    var hits := Query(p, query).hits;
    var r := GetScoredHits(hits, scoringQuery, matcher);
    assert ScoreEach(hits, scoringQuery, matcher) == [ScoredHit(hits[0], MIN_SCORE)];
    assert |r| == 1 by {
      assert |r| == |multiset(r)|;
    }
    assert r[0] in r;
  }
}
