/**
  The provider contract: a hit (`Hit`/`SimpleHit`), a provider's result (`ProviderResult`)
  and what running a hit's action does.

  A `SimpleHit` stores a closure as its action. Here the closure is a tag, `Action`, naming
  the function a provider stored and the values it captured; `Dispatch.PerformAction` runs
  it. `SimpleHit<T>`'s extra data is a `HitData`: unit for most providers, the URL pattern
  for web search. The `Hit` getters are the datatype's field selectors.
*/
module ProviderApi {
  import opened Wrappers
  import opened Frontend

  /** Rust's `u32`. */
  type u32 = x: int | 0 <= x < 0x1_0000_0000

  /** The five operating-system subcommands of the system provider. */
  datatype SystemOperation = Lock | Logout | Restart | Shutdown | Sleep

  /** The action functions the providers store in their hits. */
  datatype Action =
    | RunCommand                                                   // the exec provider's `run_command`
    | DoSearch                                                     // the web search provider's `do_search`
    | SendExit                                                     // the system provider's exit closure
    | RunSystemCommand(operation: SystemOperation, commandLinux: string)  // a closure built by `get_hit`
    | PluginAction(plugin: string)                                 // an action of a provider outside the model

  /** The extra data `T` of a `SimpleHit<T>`. */
  datatype HitData = NoData | SearchData(urlPattern: string)

  /** A `SimpleHit`. */
  datatype Hit = Hit(title: string, subtitle: string, overrideScore: Option<u32>, data: HitData, action: Action)

  /** A call leaving the process that an action makes. */
  datatype ExternalCall =
    | ShellCommand(command: string)
    | OpenUrl(url: string)
    | SystemCall(operation: SystemOperation, commandLinux: string)
    | PluginCall(plugin: string)

  /**
    What one run of an action does: the external call it makes (if any), whether it logs
    that call's failure, and the messages it sends to the front end, in order.
  */
  datatype Effect = Effect(call: Option<ExternalCall>, loggedError: bool, sent: seq<FrontendMessage>)

  /** `ProviderResult`: the hits of one provider for one query. */
  datatype ProviderResult = ProviderResult(hits: seq<Hit>)

  /** The type `do_search` is stored for: its hit carries a URL pattern. */
  predicate WellTyped(hit: Hit)
  {
    hit.action.DoSearch? ==> hit.data.SearchData?
  }

  /** `ProviderResult::new`. */
  function NewResult(hits: seq<Hit>): (r: ProviderResult)
    ensures r.hits == hits
  {
    ProviderResult(hits)
  }

  /** `ProviderResult::empty`: no hits. */
  function EmptyResult(): (r: ProviderResult)
    ensures |r.hits| == 0
  {
    NewResult([])
  }

  /** `ProviderResult::single`: exactly the one hit. */
  function SingleResult(hit: Hit): (r: ProviderResult)
    ensures |r.hits| == 1 && r.hits[0] == hit
  {
    NewResult([hit])
  }

  /** `SimpleHit::new_with_data`: stores what it is given and pins no score. */
  function NewWithData(title: string, subtitle: string, data: HitData, action: Action): (h: Hit)
    ensures h.title == title && h.subtitle == subtitle && h.data == data && h.action == action
    ensures h.overrideScore.None?
  {
    Hit(title, subtitle, None, data, action)
  }

  /** `SimpleHit::new`: a hit with unit data. */
  function NewHit(title: string, subtitle: string, action: Action): (h: Hit)
    ensures h == NewWithData(title, subtitle, NoData, action)
  {
    NewWithData(title, subtitle, NoData, action)
  }

  /** `SimpleHit::with_score`: pins the score and keeps everything else. */
  function WithScore(hit: Hit, score: u32): (h: Hit)
    ensures h.overrideScore == Some(score)
    ensures h.title == hit.title && h.subtitle == hit.subtitle && h.data == hit.data && h.action == hit.action
  {
    hit.(overrideScore := Some(score))
  }

  /** Pinning twice keeps the later score; pinning a fresh hit its own score. */
  lemma WithScoreLastWins(hit: Hit, s: u32, t: u32)
    ensures WithScore(WithScore(hit, s), t) == WithScore(hit, t)
    ensures WithScore(hit, s) == hit <==> hit.overrideScore == Some(s)
  {
  }
}
