/**
 The tools watcher: the service tools cache and the lazily fetched backend
 version, updated by the polling sweep and by the instance and configuration
 change notifications. The tool sink is the ghost `log` of the calls made on it.
 */
module Watcher {
  import opened Registry
  import opened ConfigKeys
  import opened Versions
  import opened Reconciliation

  /** A naming notification names the service whose instances changed; other events are ignored. */
  datatype Event = NamingEvent(serviceName: string) | OtherEvent

  class ToolsWatcher {
    /** serviceName -> the tool names last pushed to the sink for it. */
    var cache: Cache
    /** The backend version, None until a probe succeeds. */
    var version: Option<Version>
    /** Every call made on the tool sink, in order. */
    ghost var log: seq<SinkOp>

    ghost predicate Valid()
      reads this
    {
      NoEmptyEntries(cache)
    }

    /** Construction probes the version once; the cache starts empty. */
    constructor (probe: Option<Version>)
      ensures Valid()
      ensures cache == map[] && version == probe && log == []
    {
      cache := map[];
      version := probe;
      log := [];
    }

    /** Probes only while the version is unknown; a known version never changes. */
    method GetNacosVersion(probe: Option<Version>) returns (v: Option<Version>)
      modifies this`version
      ensures old(version).Some? ==> version == old(version)
      ensures old(version).None? ==> version == probe
      ensures v == version
    {
      if version.None? {
        version := probe;
      }
      v := version;
    }

    /** One `removeTool` call per name, in whatever order the set yields them. */
    method SendRemoves(tools: set<string>) returns (ghost sent: seq<SinkOp>)
      modifies this`log
      ensures log == old(log) + sent
      ensures IsRemovalOf(sent, tools)
    {
      sent := [];
      var pending := tools;
      while pending != {}
        invariant pending <= tools
        invariant log == old(log) + sent
        invariant IsRemovalOf(sent, tools - pending)
        decreases pending
      {
        var toolName :| toolName in pending;
        assert tools - (pending - {toolName}) == (tools - pending) + {toolName};
        RemovalExtend(sent, tools - pending, toolName);
        log := log + [Remove(toolName)];
        sent := sent + [Remove(toolName)];
        pending := pending - {toolName};
      }
    }

    /** Drops the service's entry and removes every tool it held. */
    method RemoveServiceTools(serviceName: string) returns (ghost sent: seq<SinkOp>)
      requires Valid()
      modifies this`cache, this`log
      ensures Valid()
      ensures cache == old(cache) - {serviceName}
      ensures log == old(log) + sent
      ensures IsRemovalOf(sent, Entry(old(cache), serviceName))
    {
      var tools := Entry(cache, serviceName);
      cache := cache - {serviceName};
      sent := SendRemoves(tools);
    }

    /** Reconciles one service with what the backend answers now. */
    method UpdateServiceTools(serviceName: string, env: Env) returns (ghost removes: seq<SinkOp>)
      requires Valid()
      modifies this`cache, this`log
      ensures Valid()
      ensures cache == Reconcile(old(cache), serviceName, env).cache
      ensures log == old(log) + Reconcile(old(cache), serviceName, env).upserts + removes
      ensures IsRemovalOf(removes, Reconcile(old(cache), serviceName, env).removed)
    {
      removes := [];
      var toolConfig := env.configs(ConfigKeyOf(serviceName));
      if toolConfig.Failed? {
        return;
      }
      var instances := env.instances(serviceName);
      if instances.Failed? {
        return;
      }
      if |instances.value| == 0 || !HasHealthyEnabled(instances.value) || toolConfig.value.None? {
        removes := RemoveServiceTools(serviceName);
        return;
      }
      var toolsInfo := env.parse(toolConfig.value.value);
      if toolsInfo.Malformed? {
        return;
      }
      var toolsInNacos := toolsInfo.defs;
      if |toolsInNacos| == 0 {
        removes := RemoveServiceTools(serviceName);
        return;
      }

      removes := ReplaceTools(serviceName, toolsInNacos);
    }

    /** Upserts every parsed definition, removes the tools no longer listed, and replaces the entry. */
    method ReplaceTools(serviceName: string, toolsInNacos: seq<ToolDef>) returns (ghost removes: seq<SinkOp>)
      requires Valid() && toolsInNacos != []
      modifies this`cache, this`log
      ensures Valid()
      ensures cache == old(cache)[serviceName := NamesOf(toolsInNacos)]
      ensures log == old(log) + UpsertsFor(toolsInNacos, serviceName) + removes
      ensures IsRemovalOf(removes, Entry(old(cache), serviceName) - NamesOf(toolsInNacos))
    {
      var currentTools: set<string> := {};
      for i := 0 to |toolsInNacos|
        invariant cache == old(cache)
        invariant currentTools == NamesOf(toolsInNacos[..i])
        invariant log == old(log) + UpsertsFor(toolsInNacos[..i], serviceName)
      {
        var toolDefinition := toolsInNacos[i].(serviceName := Some(serviceName));
        PrefixStep(toolsInNacos, i, serviceName);
        currentTools := currentTools + {toolsInNacos[i].name};
        log := log + [Upsert(toolDefinition)];
      }
      assert toolsInNacos[..|toolsInNacos|] == toolsInNacos;
      assert toolsInNacos[0].name in currentTools;

      var previousTools := Entry(cache, serviceName);
      var toolsToRemove := previousTools - currentTools;
      removes := SendRemoves(toolsToRemove);
      cache := cache[serviceName := currentTools];
    }

    /** Drops every cached service missing from the current listing, removing its tools. */
    method CleanupStaleServices(currentServices: set<string>) returns (ghost sent: seq<SinkOp>)
      requires Valid()
      modifies this`cache, this`log
      ensures Valid()
      ensures cache == Prune(old(cache), currentServices)
      ensures log == old(log) + sent
      ensures AllRemoves(sent) && RemovedBag(sent) == StaleTools(old(cache), currentServices)
    {
      var staleServices := cache.Keys - currentServices;
      var pending := staleServices;
      ghost var done: set<string> := {};
      sent := [];
      while pending != {}
        invariant done !! pending && done + pending == staleServices
        invariant cache == old(cache) - done
        invariant log == old(log) + sent
        invariant AllRemoves(sent) && RemovedBag(sent) == Bag(old(cache), done)
        decreases pending
      {
        var staleService :| staleService in pending;
        // a stale service keeps its entry until its own turn
        var toolsToRemove := cache[staleService];
        ghost var more := SendRemoves(toolsToRemove);
        StaleStep(old(cache), done, staleService, sent, more);
        sent := sent + more;
        cache := cache - {staleService};
        pending := pending - {staleService};
        done := done + {staleService};
      }
      PruneDropsStale(old(cache), currentServices);
    }

    /**
     One polling tick: nothing once the backend is at 3.0.0 or later, or when
     the service listing fails; otherwise reconcile every listed service in
     order, then drop the services no longer listed.
     */
    method Watch(probe: Option<Version>, env: Env) returns (ghost removals: seq<seq<SinkOp>>, ghost cleanupCalls: seq<SinkOp>)
      requires Valid()
      modifies this
      ensures Valid()
      ensures version == if old(version).Some? then old(version) else probe
      ensures Gated(version) || env.services.Failed? ==> cache == old(cache) && log == old(log)
      ensures !Gated(version) && env.services.Fetched? ==>
                && cache == Poll(old(cache), env.services.value, env)
                && SweepRemovals(old(cache), env.services.value, env, removals)
                && log == old(log) + SweepCalls(old(cache), env.services.value, env, removals) + cleanupCalls
                && AllRemoves(cleanupCalls)
                && RemovedBag(cleanupCalls)
                   == StaleTools(Sweep(old(cache), env.services.value, env), set service | service in env.services.value)
    {
      removals, cleanupCalls := [], [];
      var v := GetNacosVersion(probe);
      if Gated(v) {
        // the 3.x protocol is not implemented: the tick does nothing
        return;
      }
      if env.services.Failed? {
        return;
      }
      var allServices := env.services.value;
      var currentServices := set service | service in allServices;
      removals := SweepServices(allServices, env);
      cleanupCalls := CleanupStaleServices(currentServices);
    }

    /** Reconciles each listed service in turn. */
    method SweepServices(allServices: seq<string>, env: Env) returns (ghost removals: seq<seq<SinkOp>>)
      requires Valid()
      modifies this`cache, this`log
      ensures Valid()
      ensures cache == Sweep(old(cache), allServices, env)
      ensures SweepRemovals(old(cache), allServices, env, removals)
      ensures log == old(log) + SweepCalls(old(cache), allServices, env, removals)
    {
      removals := [];
      for i := 0 to |allServices|
        invariant Valid()
        invariant cache == Sweep(old(cache), allServices[..i], env)
        invariant SweepRemovals(old(cache), allServices[..i], env, removals)
        invariant log == old(log) + SweepCalls(old(cache), allServices[..i], env, removals)
      {
        assert allServices[..i + 1] == allServices[..i] + [allServices[i]];
        removals := SweepNext(old(cache), old(log), allServices[..i], allServices[i], env, removals);
        // the instance subscription and configuration listener registrations
        // are idempotent backend calls and change nothing here
      }
      assert allServices[..|allServices|] == allServices;
    }

    /** Extends the sweep of `swept` from `start` by reconciling one more service. */
    method SweepNext(ghost start: Cache, ghost startLog: seq<SinkOp>, ghost swept: seq<string>, service: string, env: Env,
                     ghost removals: seq<seq<SinkOp>>) returns (ghost extended: seq<seq<SinkOp>>)
      requires Valid()
      requires cache == Sweep(start, swept, env)
      requires SweepRemovals(start, swept, env, removals)
      requires log == startLog + SweepCalls(start, swept, env, removals)
      modifies this`cache, this`log
      ensures Valid()
      ensures cache == Sweep(start, swept + [service], env)
      ensures SweepRemovals(start, swept + [service], env, extended)
      ensures log == startLog + SweepCalls(start, swept + [service], env, extended)
    {
      ghost var step := Reconcile(cache, service, env);
      ghost var before := log;
      SweepAppend(start, swept, service, env);
      ghost var run := UpdateServiceTools(service, env);
      assert log == before + step.upserts + run;
      SweepStep(start, swept, service, env, removals, run);
      extended := removals + [run];
      ghost var prior := SweepCalls(start, swept, env, removals);
      LogRegroup(startLog, prior, step.upserts, run);
    }

    /** An instance change notification reconciles the service it names. */
    method OnEvent(event: Event, env: Env) returns (ghost removes: seq<SinkOp>)
      requires Valid()
      modifies this`cache, this`log
      ensures Valid()
      ensures event.OtherEvent? ==> cache == old(cache) && log == old(log) && removes == []
      ensures event.NamingEvent? ==> cache == Reconcile(old(cache), event.serviceName, env).cache
      ensures event.NamingEvent? ==> log == old(log) + Reconcile(old(cache), event.serviceName, env).upserts + removes
      ensures event.NamingEvent? ==> IsRemovalOf(removes, Reconcile(old(cache), event.serviceName, env).removed)
    {
      removes := [];
      if event.NamingEvent? {
        removes := UpdateServiceTools(event.serviceName, env);
      }
    }

    /** A configuration change notification reconciles, in order, the service of every changed tool configuration key. */
    method ReceiveConfigChange(keys: seq<Option<string>>, env: Env) returns (ghost removals: seq<seq<SinkOp>>)
      requires Valid()
      modifies this`cache, this`log
      ensures Valid()
      ensures cache == Sweep(old(cache), ServicesOfKeys(keys), env)
      ensures SweepRemovals(old(cache), ServicesOfKeys(keys), env, removals)
      ensures log == old(log) + SweepCalls(old(cache), ServicesOfKeys(keys), env, removals)
    {
      removals := [];
      for i := 0 to |keys|
        invariant Valid()
        invariant cache == Sweep(old(cache), ServicesOfKeys(keys[..i]), env)
        invariant SweepRemovals(old(cache), ServicesOfKeys(keys[..i]), env, removals)
        invariant log == old(log) + SweepCalls(old(cache), ServicesOfKeys(keys[..i]), env, removals)
      {
        var dataId := keys[i];
        assert keys[..i + 1][..i] == keys[..i];
        var serviceName := ServiceOfKey(dataId);
        if serviceName.Some? {
          removals := SweepNext(old(cache), old(log), ServicesOfKeys(keys[..i]), serviceName.value, env, removals);
        }
      }
      assert keys[..|keys|] == keys;
    }
  }
}
