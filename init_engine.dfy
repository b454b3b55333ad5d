/**
  Start-up registration: the configured providers, in configuration order, each looked up
  by name and registered under its configured keyword; a name the lookup does not know is
  skipped.

  The plugin registry is outside the model: `try_get_provider` is the `lookup` parameter.
*/
module InitEngine {
  import opened Wrappers
  import opened Frontend
  import opened Dispatch
  import opened Engine

  /** One entry of the configured provider list. */
  datatype ProviderConfig = ProviderConfig(name: string, keyword: Option<string>)

  /** The entries registration produces: the configs whose lookup succeeds, in order. */
  function Registered(configs: seq<ProviderConfig>, lookup: string -> Option<Provider>): (r: seq<ProviderInfo>)
    ensures |r| <= |configs|
  {
    if configs == [] then []
    else
      var init := configs[..|configs| - 1];
      var last := configs[|configs| - 1];
      var r0 := Registered(init, lookup);
      match lookup(last.name)
      case None => r0
      case Some(p) => r0 + [ProviderInfo(p, last.keyword)]
  }

  /** Each entry is a provider some config's lookup found, under that config's keyword. */
  lemma {:induction false} RegisteredFromConfigs(configs: seq<ProviderConfig>, lookup: string -> Option<Provider>)
    ensures forall p :: p in Registered(configs, lookup) ==>
      exists config :: config in configs && lookup(config.name) == Some(p.provider) && config.keyword == p.keyword
  {
    if configs != [] {
      var init := configs[..|configs| - 1];
      var last := configs[|configs| - 1];
      RegisteredFromConfigs(init, lookup);
      forall p | p in Registered(configs, lookup)
        ensures exists config :: config in configs && lookup(config.name) == Some(p.provider) && config.keyword == p.keyword
      {
        if p in Registered(init, lookup) {
          var config :| config in init && lookup(config.name) == Some(p.provider) && config.keyword == p.keyword;
          assert config in configs;
        } else {
          assert last in configs;
        }
      }
    }
  }

  /** Registration of a concatenation is the concatenation of the registrations: order is kept. */
  lemma {:induction false} RegisteredAppend(a: seq<ProviderConfig>, b: seq<ProviderConfig>, lookup: string -> Option<Provider>)
    ensures Registered(a + b, lookup) == Registered(a, lookup) + Registered(b, lookup)
    decreases |b|
  {
    if b != [] {
      var b' := b[..|b| - 1];
      assert (a + b)[..|a + b| - 1] == a + b';
      assert (a + b)[|a + b| - 1] == b[|b| - 1];
      RegisteredAppend(a, b', lookup);
    } else {
      assert a + b == a;
    }
  }

  /** A config whose lookup fails contributes nothing; one whose lookup succeeds, exactly its entry. */
  lemma RegisteredOne(config: ProviderConfig, lookup: string -> Option<Provider>)
    ensures lookup(config.name).None? ==> Registered([config], lookup) == []
    ensures lookup(config.name).Some? ==>
      Registered([config], lookup) == [ProviderInfo(lookup(config.name).value, config.keyword)]
  {
    assert [config][..0] == [];
  }

  /** When every lookup succeeds, every config is registered, in order, under its keyword. */
  lemma {:induction false} AllFound(configs: seq<ProviderConfig>, lookup: string -> Option<Provider>)
    requires forall k :: 0 <= k < |configs| ==> lookup(configs[k].name).Some?
    ensures |Registered(configs, lookup)| == |configs|
    ensures forall k :: 0 <= k < |configs| ==>
      Registered(configs, lookup)[k] == ProviderInfo(lookup(configs[k].name).value, configs[k].keyword)
  {
    if configs != [] {
      var init := configs[..|configs| - 1];
      AllFound(init, lookup);
      assert forall k :: 0 <= k < |init| ==> init[k] == configs[k];
    }
  }

  /** `engine`: a new engine, then each config in turn registered or skipped. */
  method BuildEngine(sender: Channel, configs: seq<ProviderConfig>, lookup: string -> Option<Provider>)
    returns (engine: QueryEngine)
    ensures fresh(engine)
    ensures engine.sender == sender
    ensures engine.providers == Registered(configs, lookup)
  {
    engine := new QueryEngine(sender);
    var i := 0;
    while i < |configs|
      invariant 0 <= i <= |configs|
      invariant fresh(engine) && engine.sender == sender
      invariant engine.providers == Registered(configs[..i], lookup)
    {
      assert configs[..i + 1][..i] == configs[..i];
      var config := configs[i];
      var provider := lookup(config.name);
      if provider.None? {
        i := i + 1;
        continue;
      }
      engine.Register(provider.value, config.keyword);
      i := i + 1;
    }
    assert configs[..i] == configs;
  }
}
