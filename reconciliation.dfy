/**
 What one reconciliation of a service, one polling sweep and one stale-entry
 cleanup do to the service tools cache and to the tool sink, as functions of
 the cache and of what the backend answers.
 */
module Reconciliation {
  import opened Registry
  import opened ConfigKeys

  /** serviceName -> the tool names last pushed to the sink for it. */
  type Cache = map<string, set<string>>

  /** `getOrDefault(service, empty)`. */
  function Entry(cache: Cache, service: string): set<string> {
    if service in cache then cache[service] else {}
  }

  /** Two caches hold the same entry (or both none) for `key`. */
  predicate Agree(c1: Cache, c2: Cache, key: string) {
    (key in c1 <==> key in c2) && (key in c1 ==> c1[key] == c2[key])
  }

  /** Every cached entry holds at least one tool. */
  ghost predicate NoEmptyEntries(cache: Cache) {
    forall service :: service in cache ==> cache[service] != {}
  }

  // ---------------------------------------------------------------------
  // The sink log

  predicate AllRemoves(ops: seq<SinkOp>) {
    forall i :: 0 <= i < |ops| ==> ops[i].Remove?
  }

  /** The names sent to `removeTool`, with multiplicity. */
  function RemovedBag(ops: seq<SinkOp>): multiset<string>
  {
    if ops == [] then multiset{}
    else
      var last := ops[|ops| - 1];
      RemovedBag(ops[..|ops| - 1]) + (if last.Remove? then multiset{last.name} else multiset{})
  }

  /** `ops` removes every name of `names` exactly once, and does nothing else. */
  predicate IsRemovalOf(ops: seq<SinkOp>, names: set<string>) {
    AllRemoves(ops) && RemovedBag(ops) == multiset(names)
  }

  /** Two runs of calls, one after the other, remove what each removes. */
  lemma {:induction false} RemovedBagAppend(ops1: seq<SinkOp>, ops2: seq<SinkOp>)
    ensures RemovedBag(ops1 + ops2) == RemovedBag(ops1) + RemovedBag(ops2)
    decreases |ops2|
  {
    var all := ops1 + ops2;
    if ops2 == [] {
      assert all == ops1;
    } else {
      var init := ops2[..|ops2| - 1];
      assert all[..|all| - 1] == ops1 + init;
      RemovedBagAppend(ops1, init);
    }
  }

  lemma AllRemovesAppend(ops1: seq<SinkOp>, ops2: seq<SinkOp>)
    ensures AllRemoves(ops1 + ops2) <==> AllRemoves(ops1) && AllRemoves(ops2)
  {
    var all := ops1 + ops2;
    assert forall i :: 0 <= i < |ops1| ==> all[i] == ops1[i];
    assert forall i :: 0 <= i < |ops2| ==> all[|ops1| + i] == ops2[i];
  }

  /** One more `removeTool` call for a name not yet removed extends a removal of a set. */
  lemma RemovalExtend(ops: seq<SinkOp>, names: set<string>, name: string)
    requires IsRemovalOf(ops, names) && name !in names
    ensures IsRemovalOf(ops + [Remove(name)], names + {name})
  {
  }

  // ---------------------------------------------------------------------
  // One reconciliation (updateServiceTools)

  /** The set of tool names of a parsed tool list. */
  function NamesOf(defs: seq<ToolDef>): (names: set<string>)
    ensures forall i :: 0 <= i < |defs| ==> defs[i].name in names
    ensures forall name :: name in names ==> exists i :: 0 <= i < |defs| && defs[i].name == name
  {
    if defs == [] then {}
    else
      var prefix := defs[..|defs| - 1];
      assert forall i :: 0 <= i < |prefix| ==> prefix[i] == defs[i];
      NamesOf(prefix) + {defs[|defs| - 1].name}
  }

  /** The `addTool` calls for a parsed tool list: one per definition, in list order, each stamped with its service. */
  function UpsertsFor(defs: seq<ToolDef>, service: string): (ops: seq<SinkOp>)
    ensures |ops| == |defs|
    ensures forall i :: 0 <= i < |defs| ==>
              && ops[i].Upsert?
              && ops[i].def.name == defs[i].name
              && ops[i].def.payload == defs[i].payload
              && ops[i].def.serviceName == Some(service)
  {
    if defs == [] then []
    else UpsertsFor(defs[..|defs| - 1], service) + [Upsert(defs[|defs| - 1].(serviceName := Some(service)))]
  }

  /** Taking one more definition of a list adds its name and its stamped upsert. */
  lemma PrefixStep(defs: seq<ToolDef>, i: nat, service: string)
    requires i < |defs|
    ensures NamesOf(defs[..i + 1]) == NamesOf(defs[..i]) + {defs[i].name}
    ensures UpsertsFor(defs[..i + 1], service) == UpsertsFor(defs[..i], service) + [Upsert(defs[i].(serviceName := Some(service)))]
  {
    assert defs[..i + 1][..i] == defs[..i];
  }

  /** Some instance is both healthy and enabled. */
  predicate HasHealthyEnabled(instances: seq<Instance>): (found: bool)
    ensures found ==> |instances| > 0
    ensures found <==> exists instance :: instance in instances && instance.healthy && instance.enabled
  {
    exists i :: 0 <= i < |instances| && instances[i].healthy && instances[i].enabled
  }

  /** A service's tools are wanted only with a live instance list, a healthy enabled instance and a configuration document. */
  predicate Eligible(instances: seq<Instance>, config: Option<string>): (eligible: bool)
    ensures eligible ==> |instances| > 0 && config.Some?
    ensures eligible <==> HasHealthyEnabled(instances) && config.Some?
  {
    !(|instances| == 0 || !HasHealthyEnabled(instances) || config.None?)
  }

  /**
   What a reconciliation does:
   - Abandon: a backend call or the decoding failed; nothing is touched;
   - Purge: the service's tools all go;
   - Apply: the parsed definitions replace the service's tools.
   */
  datatype Decision = Abandon | Purge | Apply(defs: seq<ToolDef>)

  function Decide(env: Env, service: string): (d: Decision)
    ensures d.Apply? ==> d.defs != []
    ensures d.Apply? ==> env.configs(ConfigKeyOf(service)).Fetched? && env.instances(service).Fetched?
    ensures d.Apply? ==> Eligible(env.instances(service).value, env.configs(ConfigKeyOf(service)).value)
  {
    var config := env.configs(ConfigKeyOf(service));
    var instances := env.instances(service);
    if config.Failed? || instances.Failed? then Abandon
    else if !Eligible(instances.value, config.value) then Purge
    else
      match env.parse(config.value.value)
      case Malformed => Abandon
      case Tools(defs) => if defs == [] then Purge else Apply(defs)
  }

  /** The new cache, the `addTool` calls in order, and the names sent to `removeTool` (in any order). */
  datatype Step = Step(cache: Cache, upserts: seq<SinkOp>, removed: set<string>)

  function Reconcile(cache: Cache, service: string, env: Env): (r: Step)
    // only the service's own entry may change
    ensures forall key :: key != service ==> Agree(r.cache, cache, key)
    // the sink loses exactly the names the entry loses
    ensures r.removed == Entry(cache, service) - Entry(r.cache, service)
    // an entry exists afterwards only when some tool was upserted for it, or nothing was done
    ensures service in r.cache ==> r.upserts != [] || Agree(r.cache, cache, service)
    ensures NoEmptyEntries(cache) ==> NoEmptyEntries(r.cache)
  {
    match Decide(env, service)
    case Abandon => Step(cache, [], {})
    case Purge => Step(cache - {service}, [], Entry(cache, service))
    case Apply(defs) =>
      var names := NamesOf(defs);
      assert defs[0].name in names;
      Step(cache[service := names], UpsertsFor(defs, service), Entry(cache, service) - names)
  }

  // ---------------------------------------------------------------------
  // Properties of one reconciliation

  /** No instances, no healthy and enabled instance, or no document: every cached tool goes, and the entry with them. */
  lemma IneligibleServicePurged(cache: Cache, service: string, env: Env)
    requires env.configs(ConfigKeyOf(service)).Fetched? && env.instances(service).Fetched?
    requires !Eligible(env.instances(service).value, env.configs(ConfigKeyOf(service)).value)
    ensures service !in Reconcile(cache, service, env).cache
    ensures Reconcile(cache, service, env).removed == Entry(cache, service)
    ensures Reconcile(cache, service, env).upserts == []
  {
  }

  /** An eligible service whose document lists no tools is purged like an ineligible one. */
  lemma EmptyToolListPurged(cache: Cache, service: string, env: Env)
    requires env.configs(ConfigKeyOf(service)).Fetched? && env.instances(service).Fetched?
    requires Eligible(env.instances(service).value, env.configs(ConfigKeyOf(service)).value)
    requires env.parse(env.configs(ConfigKeyOf(service)).value.value) == Tools([])
    ensures service !in Reconcile(cache, service, env).cache
    ensures Reconcile(cache, service, env).removed == Entry(cache, service)
    ensures Reconcile(cache, service, env).upserts == []
  {
  }

  /**
   An eligible service with tools: every definition is upserted in order,
   the entry becomes exactly the parsed names, and the sink loses exactly
   the names that were cached and are no longer listed.
   */
  lemma ToolsReplaceEntry(cache: Cache, service: string, env: Env, defs: seq<ToolDef>)
    requires env.configs(ConfigKeyOf(service)).Fetched? && env.instances(service).Fetched?
    requires Eligible(env.instances(service).value, env.configs(ConfigKeyOf(service)).value)
    requires env.parse(env.configs(ConfigKeyOf(service)).value.value) == Tools(defs) && defs != []
    ensures Reconcile(cache, service, env).cache == cache[service := NamesOf(defs)]
    ensures Reconcile(cache, service, env).upserts == UpsertsFor(defs, service)
    ensures Reconcile(cache, service, env).removed == Entry(cache, service) - NamesOf(defs)
    ensures forall i :: 0 <= i < |defs| ==> defs[i].name !in Reconcile(cache, service, env).removed
  {
  }

  /** A failed backend call or an undecodable document leaves the cache and the sink alone. */
  lemma FailureChangesNothing(cache: Cache, service: string, env: Env)
    requires || env.configs(ConfigKeyOf(service)).Failed?
             || env.instances(service).Failed?
             || (Eligible(env.instances(service).value, env.configs(ConfigKeyOf(service)).value)
                 && env.parse(env.configs(ConfigKeyOf(service)).value.value).Malformed?)
    ensures Reconcile(cache, service, env) == Step(cache, [], {})
  {
  }

  /** When the reconciliation goes through, the entry exists afterwards exactly when the service was eligible with tools. */
  lemma EntryIffApplied(cache: Cache, service: string, env: Env)
    requires !Decide(env, service).Abandon?
    ensures service in Reconcile(cache, service, env).cache <==> Decide(env, service).Apply?
  {
  }

  /** Reconciling again with the same backend answers removes nothing and leaves the cache as it was. */
  lemma ReconcileIdempotent(cache: Cache, service: string, env: Env)
    ensures Reconcile(Reconcile(cache, service, env).cache, service, env).cache == Reconcile(cache, service, env).cache
    ensures Reconcile(Reconcile(cache, service, env).cache, service, env).removed == {}
  {
  }

  /** The outcome for a service depends on the old cache only through that service's entry. */
  lemma ReconcileLocal(c1: Cache, c2: Cache, service: string, env: Env)
    requires Agree(c1, c2, service)
    ensures Agree(Reconcile(c1, service, env).cache, Reconcile(c2, service, env).cache, service)
    ensures Reconcile(c1, service, env).removed == Reconcile(c2, service, env).removed
  {
  }

  /** Previous {A, B, C} and parsed {B, C, D}: A is removed and the entry becomes {B, C, D}. */
  lemma DiffExample(env: Env, service: string, b: ToolDef, c: ToolDef, d: ToolDef)
    requires env.configs(ConfigKeyOf(service)).Fetched? && env.instances(service).Fetched?
    requires Eligible(env.instances(service).value, env.configs(ConfigKeyOf(service)).value)
    requires b.name == "B" && c.name == "C" && d.name == "D"
    requires env.parse(env.configs(ConfigKeyOf(service)).value.value) == Tools([b, c, d])
    ensures Reconcile(map[service := {"A", "B", "C"}], service, env).removed == {"A"}
    ensures Reconcile(map[service := {"A", "B", "C"}], service, env).cache == map[service := {"B", "C", "D"}]
  {
    var defs := [b, c, d];
    assert [b][..0] == [];
    assert NamesOf([b]) == {"B"};
    assert [b, c][..1] == [b];
    assert NamesOf([b, c]) == {"B", "C"};
    assert defs[..2] == [b, c];
    assert NamesOf(defs) == {"B", "C", "D"};
    assert Decide(env, service) == Apply(defs);
  }

  /**
   Service "search" with one healthy enabled instance and a document listing
   tool "find": "find" is upserted and cached. The document then lists no
   tools: "find" is removed and the entry deleted.
   */
  lemma EndToEndScenario(env1: Env, env2: Env, find: ToolDef)
    requires find.name == "find"
    requires env1.instances("search") == Fetched([Instance(true, true)])
    requires env2.instances("search") == Fetched([Instance(true, true)])
    requires env1.configs(ConfigKeyOf("search")).Fetched? && env1.configs(ConfigKeyOf("search")).value.Some?
    requires env2.configs(ConfigKeyOf("search")).Fetched? && env2.configs(ConfigKeyOf("search")).value.Some?
    requires env1.parse(env1.configs(ConfigKeyOf("search")).value.value) == Tools([find])
    requires env2.parse(env2.configs(ConfigKeyOf("search")).value.value) == Tools([])
    ensures Reconcile(map[], "search", env1).upserts == [Upsert(find.(serviceName := Some("search")))]
    ensures Reconcile(map[], "search", env1).cache == map["search" := {"find"}]
    ensures Reconcile(Reconcile(map[], "search", env1).cache, "search", env2).removed == {"find"}
    ensures Reconcile(Reconcile(map[], "search", env1).cache, "search", env2).cache == map[]
  {
    assert HasHealthyEnabled([Instance(true, true)]) by {
      assert [Instance(true, true)][0].healthy;
    }
    assert NamesOf([find]) == {"find"};
  }

  // ---------------------------------------------------------------------
  // A sweep: reconcile each listed service in order

  function Sweep(cache: Cache, services: seq<string>, env: Env): (c: Cache)
    ensures forall key :: key !in services ==> Agree(c, cache, key)
    ensures NoEmptyEntries(cache) ==> NoEmptyEntries(c)
  {
    if services == [] then cache
    else
      var prefix := services[..|services| - 1];
      assert forall key :: key in prefix ==> key in services;
      Reconcile(Sweep(cache, prefix, env), services[|services| - 1], env).cache
  }

  /** After a sweep, every listed service's entry is what reconciling it alone would have made it. */
  lemma {:induction false} SweepAgreesWithReconcile(cache: Cache, services: seq<string>, env: Env, service: string)
    requires service in services
    ensures Agree(Sweep(cache, services, env), Reconcile(cache, service, env).cache, service)
    decreases |services|
  {
    var prefix := services[..|services| - 1];
    var last := services[|services| - 1];
    var before := Sweep(cache, prefix, env);
    assert Sweep(cache, services, env) == Reconcile(before, last, env).cache;
    if service == last {
      if service in prefix {
        SweepAgreesWithReconcile(cache, prefix, env, service);
        ReconcileLocal(before, Reconcile(cache, service, env).cache, service, env);
        ReconcileIdempotent(cache, service, env);
      } else {
        ReconcileLocal(before, cache, service, env);
      }
    } else {
      assert service in prefix;
      SweepAgreesWithReconcile(cache, prefix, env, service);
    }
  }

  /**
   The removal runs of a sweep: one per listed service, each removing exactly
   the tools that service's reconciliation dropped from its entry.
   */
  ghost predicate SweepRemovals(cache: Cache, services: seq<string>, env: Env, removals: seq<seq<SinkOp>>) {
    && |removals| == |services|
    && forall i :: 0 <= i < |services| ==>
         IsRemovalOf(removals[i], Reconcile(Sweep(cache, services[..i], env), services[i], env).removed)
  }

  /**
   The sink calls of a sweep, service by service in listing order: the
   service's upserts, then its removal run.
   */
  ghost function SweepCalls(cache: Cache, services: seq<string>, env: Env, removals: seq<seq<SinkOp>>): (calls: seq<SinkOp>)
    requires |removals| == |services|
    ensures services == [] ==> calls == []
    decreases |services|
  {
    if services == [] then []
    else
      var n := |services| - 1;
      SweepCalls(cache, services[..n], env, removals[..n])
      + Reconcile(Sweep(cache, services[..n], env), services[n], env).upserts
      + removals[n]
  }

  /** Sweeping one more service reconciles it on top of the shorter sweep. */
  lemma SweepAppend(cache: Cache, services: seq<string>, service: string, env: Env)
    ensures Sweep(cache, services + [service], env) == Reconcile(Sweep(cache, services, env), service, env).cache
  {
    assert (services + [service])[..|services|] == services;
  }

  /** Sweeping one more service appends that service's upserts and removal run to the sink calls. */
  lemma SweepStep(cache: Cache, services: seq<string>, service: string, env: Env, removals: seq<seq<SinkOp>>, run: seq<SinkOp>)
    requires SweepRemovals(cache, services, env, removals)
    requires IsRemovalOf(run, Reconcile(Sweep(cache, services, env), service, env).removed)
    ensures SweepRemovals(cache, services + [service], env, removals + [run])
    ensures SweepCalls(cache, services + [service], env, removals + [run])
            == SweepCalls(cache, services, env, removals) + Reconcile(Sweep(cache, services, env), service, env).upserts + run
  {
    var longer := services + [service];
    var runs := removals + [run];
    assert longer[..|services|] == services;
    assert runs[..|services|] == removals;
    forall i | 0 <= i < |longer|
      ensures IsRemovalOf(runs[i], Reconcile(Sweep(cache, longer[..i], env), longer[i], env).removed)
    {
      if i < |services| {
        assert longer[..i] == services[..i];
      }
    }
  }

  /** Regrouping a log that grows by one reconciliation after a sweep. */
  lemma LogRegroup(log: seq<SinkOp>, prior: seq<SinkOp>, upserts: seq<SinkOp>, run: seq<SinkOp>)
    ensures log + (prior + upserts + run) == log + prior + upserts + run
  {
  }

  /** Every tool a sweep upserts is stamped with one of the listed services. */
  lemma {:induction false} SweepCallsOwned(cache: Cache, services: seq<string>, env: Env, removals: seq<seq<SinkOp>>, op: SinkOp)
    requires |removals| == |services| && forall i :: 0 <= i < |removals| ==> AllRemoves(removals[i])
    requires op in SweepCalls(cache, services, env, removals)
    ensures op.Upsert? ==> op.def.serviceName.Some? && op.def.serviceName.value in services
    decreases |services|
  {
    var n := |services| - 1;
    var prefix := services[..n];
    var step := Reconcile(Sweep(cache, prefix, env), services[n], env);
    if op in SweepCalls(cache, prefix, env, removals[..n]) {
      SweepCallsOwned(cache, prefix, env, removals[..n], op);
    } else if op in step.upserts {
      var k :| 0 <= k < |step.upserts| && step.upserts[k] == op;
      assert op.def.serviceName == Some(services[n]);
    } else {
      assert op in removals[n];
      var k :| 0 <= k < |removals[n]| && removals[n][k] == op;
    }
  }

  // ---------------------------------------------------------------------
  // Stale-entry cleanup (cleanupStaleServices)

  /** The cache restricted to the services of the current listing. */
  function Prune(cache: Cache, current: set<string>): (c: Cache)
    ensures c.Keys == cache.Keys * current
    ensures forall service :: service in c ==> c[service] == cache[service]
  {
    map service | service in cache && service in current :: cache[service]
  }

  /** Pruning is dropping every cached service that is not current. */
  lemma PruneDropsStale(cache: Cache, current: set<string>)
    ensures Prune(cache, current) == cache - (cache.Keys - current)
  {
  }

  /** The tools of the cached services in `keys`, with multiplicity (one tool may belong to several services). */
  ghost function Bag(cache: Cache, keys: set<string>): multiset<string>
    requires keys <= cache.Keys
    decreases keys
  {
    if keys == {} then multiset{}
    else
      var key :| key in keys;
      multiset(cache[key]) + Bag(cache, keys - {key})
  }

  /** Bag does not depend on which key it takes first. */
  lemma {:induction false} BagSplit(cache: Cache, keys: set<string>, key: string)
    requires keys <= cache.Keys && key in keys
    ensures Bag(cache, keys) == multiset(cache[key]) + Bag(cache, keys - {key})
    decreases keys
  {
    var first :| first in keys && Bag(cache, keys) == multiset(cache[first]) + Bag(cache, keys - {first});
    if first != key {
      BagSplit(cache, keys - {first}, key);
      BagSplit(cache, keys - {key}, first);
      assert keys - {first} - {key} == keys - {key} - {first};
    }
  }

  /** Removing one more stale service's tools extends the removal of the stale services done so far. */
  lemma StaleStep(cache: Cache, done: set<string>, key: string, sent: seq<SinkOp>, more: seq<SinkOp>)
    requires done <= cache.Keys && key in cache && key !in done
    requires AllRemoves(sent) && RemovedBag(sent) == Bag(cache, done)
    requires IsRemovalOf(more, cache[key])
    ensures AllRemoves(sent + more) && RemovedBag(sent + more) == Bag(cache, done + {key})
  {
    BagSplit(cache, done + {key}, key);
    assert done + {key} - {key} == done;
    RemovedBagAppend(sent, more);
    AllRemovesAppend(sent, more);
  }

  /** The tools the cleanup sends to `removeTool`: those of every cached service missing from the listing. */
  ghost function StaleTools(cache: Cache, current: set<string>): multiset<string> {
    Bag(cache, cache.Keys - current)
  }

  /** Every tool of every stale service is removed by the cleanup. */
  lemma StaleToolsCovered(cache: Cache, current: set<string>, service: string, tool: string)
    requires service in cache && service !in current && tool in cache[service]
    ensures tool in StaleTools(cache, current)
  {
    BagSplit(cache, cache.Keys - current, service);
  }

  /** A cleanup with every cached service still listed removes nothing. */
  lemma NothingStale(cache: Cache, current: set<string>)
    requires cache.Keys <= current
    ensures StaleTools(cache, current) == multiset{}
    ensures Prune(cache, current) == cache
  {
  }

  // ---------------------------------------------------------------------
  // A full poll (watch): sweep, then clean up

  function Poll(cache: Cache, services: seq<string>, env: Env): (c: Cache)
    ensures c.Keys <= set service | service in services
  {
    Prune(Sweep(cache, services, env), set service | service in services)
  }

  /**
   After a poll, a listed service holds what reconciling it alone would give,
   and an unlisted service holds nothing.
   */
  lemma PollOutcome(cache: Cache, services: seq<string>, env: Env, service: string)
    ensures service in services ==> Agree(Poll(cache, services, env), Reconcile(cache, service, env).cache, service)
    ensures service !in services ==> service !in Poll(cache, services, env)
  {
    if service in services {
      SweepAgreesWithReconcile(cache, services, env, service);
    }
  }

  // ---------------------------------------------------------------------
  // Configuration change notifications (receiveConfigChange)

  /** The services named by a batch of changed data ids, in order, skipping the others. */
  function ServicesOfKeys(keys: seq<Option<string>>): (services: seq<string>)
    ensures forall i :: 0 <= i < |keys| && ServiceOfKey(keys[i]).Some? ==> ServiceOfKey(keys[i]).value in services
    ensures forall service :: service in services ==> exists i :: 0 <= i < |keys| && ServiceOfKey(keys[i]) == Some(service)
  {
    if keys == [] then []
    else
      var prefix := keys[..|keys| - 1];
      assert forall i :: 0 <= i < |prefix| ==> prefix[i] == keys[i];
      var rest := ServicesOfKeys(prefix);
      match ServiceOfKey(keys[|keys| - 1])
      case Some(service) => rest + [service]
      case None => rest
  }

  /** A change to `S + "-mcp-tools.json"` reconciles exactly service S. */
  lemma ConfigChangeReconcilesService(cache: Cache, service: string, env: Env)
    ensures Sweep(cache, ServicesOfKeys([Some(ConfigKeyOf(service))]), env) == Reconcile(cache, service, env).cache
  {
  }

  /** A change to a missing key or a key without the suffix reconciles nothing. */
  lemma ForeignKeyIgnored(cache: Cache, key: Option<string>, env: Env)
    requires key.None? || !EndsWith(key.value, ToolsConfigSuffix)
    ensures Sweep(cache, ServicesOfKeys([key]), env) == cache
  {
  }
}
