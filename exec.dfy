/**
  The exec provider: whatever is typed becomes one hit, pinned at the lowest score, whose
  action runs the text as a shell command and then hides the window.
*/
module ExecPlugin {
  import opened Wrappers
  import opened Frontend
  import opened ProviderApi
  import opened Scoring

  /** The provider's configuration. */
  datatype ExecConfig = ExecConfig(subtitle: string)

  /** `ExecProvider`. */
  datatype ExecProvider = ExecProvider(config: ExecConfig)

  /** `ExecProvider::query`: one hit titled with the query, pinned at `MIN_SCORE`. */
  function Query(p: ExecProvider, query: string): (r: ProviderResult)
    ensures |r.hits| == 1
    ensures r.hits[0].title == query && r.hits[0].subtitle == p.config.subtitle
    ensures r.hits[0].overrideScore == Some(MIN_SCORE) && r.hits[0].action == RunCommand
  {
    SingleResult(WithScore(NewHit(query, p.config.subtitle, RunCommand), MIN_SCORE))
  }

  /**
    `run_command`: the shell runs the hit's title; a failure (`succeeded` false) is logged;
    `Hide` is sent either way.
  */
  function RunCommandEffect(hit: Hit, succeeded: bool): (e: Effect)
    ensures e.call == Some(ShellCommand(hit.title))
    ensures e.loggedError <==> !succeeded
    ensures e.sent == [Hide]
  {
    Effect(Some(ShellCommand(hit.title)), !succeeded, [Hide])
  }

  /**
    Whatever the matcher does, the exec hit survives scoring with score `MIN_SCORE`, so any
    query, including the empty one, yields exactly this one scored hit.
  */
  lemma QuerySurvivesScoring(p: ExecProvider, query: string, scoringQuery: string, matcher: Matcher)
    ensures var hits := Query(p, query).hits;
      GetScoredHits(hits, scoringQuery, matcher) == [ScoredHit(hits[0], MIN_SCORE)]
  {
    var hits := Query(p, query).hits;
    var r := GetScoredHits(hits, scoringQuery, matcher);
    assert ScoreEach(hits, scoringQuery, matcher) == [ScoredHit(hits[0], MIN_SCORE)];
    assert |r| == 1 by {
      assert |r| == |multiset(r)|;
    }
    assert r[0] in r;
  }
}
