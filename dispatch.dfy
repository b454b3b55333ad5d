/**
  The providers the engine can hold and what running a hit's action does.

  `Box<dyn Provider>` becomes a closed sum: the three providers of the model and any other
  provider by name (calculator, programs, kill and so on, whose code is not part of this
  model). Everything the model cannot see is a field of `Collaborators`.
*/
module Dispatch {
  import opened Wrappers
  import opened Frontend
  import opened ProviderApi
  import opened Scoring
  import ExecPlugin
  import WebsearchPlugin
  import SystemPlugin

  /** A provider held by the engine. */
  datatype Provider =
    | Exec(exec: ExecPlugin.ExecProvider)
    | Websearch(websearch: WebsearchPlugin.WebsearchProvider)
    | System(system: SystemPlugin.SystemProvider)
    | External(name: string)

  /**
    What lies outside the model: the fuzzy matcher, the URL encoder, and the query and
    action of providers that are not modelled.
  */
  datatype Collaborators = Collaborators(
    matcher: Matcher,
    encode: string -> string,
    externalQuery: (string, string) -> ProviderResult,
    externalAction: (string, Hit) -> Effect)

  /** `Provider::query`, dispatched on the provider. */
  function RunProvider(p: Provider, query: string, c: Collaborators): (r: ProviderResult)
    ensures p.Exec? ==> r == ExecPlugin.Query(p.exec, query)
    ensures p.Websearch? ==> r == WebsearchPlugin.Query(p.websearch, query)
    ensures p.System? ==> r == SystemPlugin.Query(p.system, query)
    ensures p.External? ==> r == c.externalQuery(p.name, query)
  {
    match p
    case Exec(e) => ExecPlugin.Query(e, query)
    case Websearch(w) => WebsearchPlugin.Query(w, query)
    case System(s) => SystemPlugin.Query(s, query)
    case External(name) => c.externalQuery(name, query)
  }

  /**
    `Hit::action`: runs the function stored in the hit, once, on the hit itself.
    `succeeded` is the outcome of the external call the action makes.
  */
  function PerformAction(hit: Hit, c: Collaborators, succeeded: bool): (e: Effect)
    requires WellTyped(hit)
    ensures hit.action.RunCommand? ==> e == ExecPlugin.RunCommandEffect(hit, succeeded)
    ensures hit.action.DoSearch? ==> e == WebsearchPlugin.DoSearchEffect(hit, c.encode, succeeded)
    ensures hit.action.SendExit? ==> e == SystemPlugin.ExitEffect()
    ensures hit.action.RunSystemCommand? ==>
      e == SystemPlugin.SubcommandEffect(hit.action.operation, hit.action.commandLinux, succeeded)
    ensures hit.action.PluginAction? ==> e == c.externalAction(hit.action.plugin, hit)
  {
    match hit.action
    case RunCommand => ExecPlugin.RunCommandEffect(hit, succeeded)
    case DoSearch => WebsearchPlugin.DoSearchEffect(hit, c.encode, succeeded)
    case SendExit => SystemPlugin.ExitEffect()
    case RunSystemCommand(op, cmd) => SystemPlugin.SubcommandEffect(op, cmd, succeeded)
    case PluginAction(name) => c.externalAction(name, hit)
  }

  /**
    Every action of the modelled providers sends exactly one message: `Exit` for the exit
    hit, `Hide` for the others whether or not their external call succeeded; only a failed
    call is logged.
  */
  lemma BuiltInActionsSendOneMessage(hit: Hit, c: Collaborators, succeeded: bool)
    requires WellTyped(hit) && !hit.action.PluginAction?
    ensures PerformAction(hit, c, succeeded).sent == (if hit.action.SendExit? then [Exit] else [Hide])
    ensures PerformAction(hit, c, succeeded).sent == PerformAction(hit, c, !succeeded).sent
    ensures PerformAction(hit, c, succeeded).loggedError <==> !hit.action.SendExit? && !succeeded
  {
  }
}
