/**
  The system provider: six fixed hits (exit the launcher, lock, log out, restart, shut down,
  sleep), returned for every query and left to the fuzzy matcher. The Rust struct is named
  `WebsearchProvider`; here it is `SystemProvider`.
*/
module SystemPlugin {
  import opened Wrappers
  import opened Frontend
  import opened ProviderApi

  /** `ExitConfig`. */
  datatype ExitConfig = ExitConfig(title: string, subtitle: string)

  /** `SubcommandConfig`. */
  datatype SubcommandConfig = SubcommandConfig(title: string, subtitle: string, commandLinux: string)

  /** `Config`. */
  datatype SystemConfig = SystemConfig(
    exit: ExitConfig,
    lock: SubcommandConfig,
    logout: SubcommandConfig,
    restart: SubcommandConfig,
    shutdown: SubcommandConfig,
    sleep: SubcommandConfig)

  /** The provider: its fixed list of hits. */
  datatype SystemProvider = SystemProvider(hits: seq<Hit>)

  /** `get_exit`: a hit whose action sends `Exit`. */
  function GetExit(config: ExitConfig): (h: Hit)
    ensures h.title == config.title && h.subtitle == config.subtitle
    ensures h.overrideScore.None? && h.action == SendExit
  {
    NewHit(config.title, config.subtitle, SendExit)
  }

  /** `get_hit`: a hit whose action runs the operation with the configured Linux command. */
  function GetHit(config: SubcommandConfig, operation: SystemOperation): (h: Hit)
    ensures h.title == config.title && h.subtitle == config.subtitle
    ensures h.overrideScore.None? && h.action == RunSystemCommand(operation, config.commandLinux)
  {
    NewHit(config.title, config.subtitle, RunSystemCommand(operation, config.commandLinux))
  }

  /** `new`: exactly six hits, in the order exit, lock, logout, restart, shutdown, sleep. */
  function New(config: SystemConfig): (p: SystemProvider)
    ensures |p.hits| == 6
    ensures p.hits[0] == GetExit(config.exit)
    ensures p.hits[1] == GetHit(config.lock, Lock)
    ensures p.hits[2] == GetHit(config.logout, Logout)
    ensures p.hits[3] == GetHit(config.restart, Restart)
    ensures p.hits[4] == GetHit(config.shutdown, Shutdown)
    ensures p.hits[5] == GetHit(config.sleep, Sleep)
  {
    SystemProvider([
      GetExit(config.exit),
      GetHit(config.lock, Lock),
      GetHit(config.logout, Logout),
      GetHit(config.restart, Restart),
      GetHit(config.shutdown, Shutdown),
      GetHit(config.sleep, Sleep)
    ])
  }

  /** `query`: the stored hits, whatever the query. */
  function Query(p: SystemProvider, query: string): (r: ProviderResult)
    ensures r.hits == p.hits
  {
    NewResult(p.hits)
  }

  /** The exit closure: sends `Exit` and calls nothing outside the process. */
  function ExitEffect(): (e: Effect)
    ensures e.call.None? && !e.loggedError && e.sent == [Exit]
  {
    Effect(None, false, [Exit])
  }

  /**
    A subcommand closure: runs the operation; a failure (`succeeded` false) is logged;
    `Hide` is sent either way.
  */
  function SubcommandEffect(operation: SystemOperation, commandLinux: string, succeeded: bool): (e: Effect)
    ensures e.call == Some(SystemCall(operation, commandLinux))
    ensures e.loggedError <==> !succeeded
    ensures e.sent == [Hide]
  {
    Effect(Some(SystemCall(operation, commandLinux)), !succeeded, [Hide])
  }

  /**
    The query is ignored and no hit is pinned, so every system hit is left to the matcher;
    exactly one of the six exits the launcher.
  */
  lemma QueryIgnoresInput(config: SystemConfig, q1: string, q2: string)
    ensures Query(New(config), q1) == Query(New(config), q2)
    ensures forall h :: h in Query(New(config), q1).hits ==> h.overrideScore.None?
    ensures forall k :: 0 <= k < 6 ==> (Query(New(config), q1).hits[k].action.SendExit? <==> k == 0)
  {
    var hits := New(config).hits;
    assert forall h :: h in hits ==> h == hits[0] || h == hits[1] || h == hits[2] || h == hits[3] || h == hits[4] || h == hits[5];
  }
}
