# Dynamic Nacos tools watcher — a Dafny model

This project models the reconciliation engine of the dynamic MCP server's
`DynamicNacosToolsWatcher`. The watcher keeps a local service tools cache
(`serviceName -> set of tool names`) that mirrors what it last pushed to the
tool sink (`DynamicMcpToolsProvider`). It updates that cache, and calls
`addTool` / `removeTool` on the sink, from three triggers:

- the polling tick (`watch`): reconcile every listed service, then drop the
  cached services that are no longer listed;
- naming events (`onEvent`): reconcile the service whose instances changed;
- configuration change events (`receiveConfigChange`): reconcile the service
  whose `<service>-mcp-tools.json` document changed.

A version gate parks the tick once the Nacos server reports 3.0.0 or later.

How the model is built:

- `registry.dfy` (module `Registry`) holds the value types.
  - Backend answers are an `Env`: the service listing, the configuration store by
    data id, the instance list by service, and the decoding of a document.
  - A backend call that throws a `NacosException` is `Failed`.
  - The sink is a ghost log of `Upsert` / `Remove` calls.
- `config_keys.dfy` (module `ConfigKeys`) holds the data-id suffix, adding it
  (line 167) and stripping it (lines 253-254).
- `versions.dfy` (module `Versions`) holds the version order and the gate.
- `reconciliation.dfy` (module `Reconciliation`) holds the specification
  functions and the lemmas about them:
  - `Decide` and `Reconcile` give one reconciliation;
  - `Sweep`, `Prune` and `Poll` give one polling tick, and `SweepCalls` the
    sink calls of its sweep;
  - `Bag` and `StaleTools` give the stale-entry cleanup;
  - `ServicesOfKeys` gives a configuration change batch.
- `watcher.dfy` (module `Watcher`) holds the class `ToolsWatcher`. Its fields
  are `cache` and `version` and the ghost `log`. Its methods follow the Java
  methods loop for loop. Each is proved against the functions above.

Removals iterate a `HashSet`, whose order is unspecified. They are therefore
stated as a multiset of removed names: every name exactly once, nothing else.

Two error paths of the code shape the model:

- A `getConfig` or `getAllInstances` call that throws is caught at lines
  217-222. The reconciliation is abandoned and nothing changes.
  `FailureChangesNothing` states this.
- A document that `JacksonUtils.toObj` cannot decode throws as well and is
  caught the same way. The previous cache entry and the sink stay as they were.

## Model

All source paths below are the one core file,
`spring-ai-alibaba-mcp/spring-ai-alibaba-mcp-nacos-dynamic-server/src/main/java/com/alibaba/cloud/ai/mcp/dynamic/server/watcher/DynamicNacosToolsWatcher.java`.

| member | source | states |
|---|---|---|
| ConfigKeys.ConfigKeyOf | spring-ai-alibaba-mcp/spring-ai-alibaba-mcp-nacos-dynamic-server/src/main/java/com/alibaba/cloud/ai/mcp/dynamic/server/watcher/DynamicNacosToolsWatcher.java:167 | the data id of a service's tool configuration ends with `-mcp-tools.json` and starts with the service name |
| ConfigKeys.ServiceOfKey | spring-ai-alibaba-mcp/spring-ai-alibaba-mcp-nacos-dynamic-server/src/main/java/com/alibaba/cloud/ai/mcp/dynamic/server/watcher/DynamicNacosToolsWatcher.java:252-254 | a changed key names a service exactly when it is present and ends with the suffix; the service found rebuilds that key |
| ConfigKeys.KeyRoundTrip | spring-ai-alibaba-mcp/spring-ai-alibaba-mcp-nacos-dynamic-server/src/main/java/com/alibaba/cloud/ai/mcp/dynamic/server/watcher/DynamicNacosToolsWatcher.java:253-254 | stripping the suffix from the key built at line 167 gives back the service |
| ConfigKeys.ServiceOfKeyInjective | spring-ai-alibaba-mcp/spring-ai-alibaba-mcp-nacos-dynamic-server/src/main/java/com/alibaba/cloud/ai/mcp/dynamic/server/watcher/DynamicNacosToolsWatcher.java:253-254 | two distinct keys never name the same service |
| ConfigKeys.ConfigKeyExamples | spring-ai-alibaba-mcp/spring-ai-alibaba-mcp-nacos-dynamic-server/src/main/java/com/alibaba/cloud/ai/mcp/dynamic/server/watcher/DynamicNacosToolsWatcher.java:253-254 | `orders-mcp-tools.json` names `orders`; `orders.json` and a null key name nothing |
| Versions.CompareVersion | spring-ai-alibaba-mcp/spring-ai-alibaba-mcp-nacos-dynamic-server/src/main/java/com/alibaba/cloud/ai/mcp/dynamic/server/watcher/DynamicNacosToolsWatcher.java:118 | the comparison is zero exactly on equal versions and negative exactly when major, then minor, then patch is numerically smaller |
| Versions.CompareAntisymmetric | spring-ai-alibaba-mcp/spring-ai-alibaba-mcp-nacos-dynamic-server/src/main/java/com/alibaba/cloud/ai/mcp/dynamic/server/watcher/DynamicNacosToolsWatcher.java:118 | swapping the arguments negates the comparison |
| Versions.CompareTransitive | spring-ai-alibaba-mcp/spring-ai-alibaba-mcp-nacos-dynamic-server/src/main/java/com/alibaba/cloud/ai/mcp/dynamic/server/watcher/DynamicNacosToolsWatcher.java:118 | the order is transitive |
| Versions.Gated | spring-ai-alibaba-mcp/spring-ai-alibaba-mcp-nacos-dynamic-server/src/main/java/com/alibaba/cloud/ai/mcp/dynamic/server/watcher/DynamicNacosToolsWatcher.java:118 | only a known version parks the tick; a known version of major 3 or more parks it, one of major below 3 does not |
| Versions.GatedIffMajorAtLeast3 | spring-ai-alibaba-mcp/spring-ai-alibaba-mcp-nacos-dynamic-server/src/main/java/com/alibaba/cloud/ai/mcp/dynamic/server/watcher/DynamicNacosToolsWatcher.java:118-121 | the tick is parked exactly when the version is known and its major is at least 3; an unknown version never parks it |
| Versions.GateExamples | spring-ai-alibaba-mcp/spring-ai-alibaba-mcp-nacos-dynamic-server/src/main/java/com/alibaba/cloud/ai/mcp/dynamic/server/watcher/DynamicNacosToolsWatcher.java:118 | the comparison is numeric: 10.0.0 and 3.0.0 are gated, 2.5.1 and an unknown version are not |
| Reconciliation.RemovalExtend | spring-ai-alibaba-mcp/spring-ai-alibaba-mcp-nacos-dynamic-server/src/main/java/com/alibaba/cloud/ai/mcp/dynamic/server/watcher/DynamicNacosToolsWatcher.java:228-236 | one more `removeTool` call for a new name extends a removal of a set by that name |
| Reconciliation.NamesOf | spring-ai-alibaba-mcp/spring-ai-alibaba-mcp-nacos-dynamic-server/src/main/java/com/alibaba/cloud/ai/mcp/dynamic/server/watcher/DynamicNacosToolsWatcher.java:195-197 | the current tool set holds exactly the names of the parsed definitions |
| Reconciliation.UpsertsFor | spring-ai-alibaba-mcp/spring-ai-alibaba-mcp-nacos-dynamic-server/src/main/java/com/alibaba/cloud/ai/mcp/dynamic/server/watcher/DynamicNacosToolsWatcher.java:196-200 | one `addTool` per parsed definition, in list order, keeping its name and payload and stamped with the service |
| Reconciliation.PrefixStep | spring-ai-alibaba-mcp/spring-ai-alibaba-mcp-nacos-dynamic-server/src/main/java/com/alibaba/cloud/ai/mcp/dynamic/server/watcher/DynamicNacosToolsWatcher.java:196-200 | one more loop iteration adds the definition's name and its stamped upsert |
| Reconciliation.HasHealthyEnabled | spring-ai-alibaba-mcp/spring-ai-alibaba-mcp-nacos-dynamic-server/src/main/java/com/alibaba/cloud/ai/mcp/dynamic/server/watcher/DynamicNacosToolsWatcher.java:175 | some instance of the list is both healthy and enabled; such a list is never empty |
| Reconciliation.Eligible | spring-ai-alibaba-mcp/spring-ai-alibaba-mcp-nacos-dynamic-server/src/main/java/com/alibaba/cloud/ai/mcp/dynamic/server/watcher/DynamicNacosToolsWatcher.java:178 | a service keeps its tools only with a non-empty instance list, a healthy and enabled instance and a document; the emptiness test is implied by the healthy-instance test |
| Reconciliation.Decide | spring-ai-alibaba-mcp/spring-ai-alibaba-mcp-nacos-dynamic-server/src/main/java/com/alibaba/cloud/ai/mcp/dynamic/server/watcher/DynamicNacosToolsWatcher.java:165-192 | tools are applied only when both fetches succeeded, the service is eligible, and the decoded list is non-empty |
| Reconciliation.Reconcile | spring-ai-alibaba-mcp/spring-ai-alibaba-mcp-nacos-dynamic-server/src/main/java/com/alibaba/cloud/ai/mcp/dynamic/server/watcher/DynamicNacosToolsWatcher.java:165-223 | only the service's own entry changes; the sink loses exactly the names the entry loses; an entry survives only with upserts or untouched; no empty entry is created |
| Reconciliation.IneligibleServicePurged | spring-ai-alibaba-mcp/spring-ai-alibaba-mcp-nacos-dynamic-server/src/main/java/com/alibaba/cloud/ai/mcp/dynamic/server/watcher/DynamicNacosToolsWatcher.java:178-183 | no instances, no healthy and enabled one, or no document: the entry is gone, every cached tool is removed, nothing is upserted |
| Reconciliation.EmptyToolListPurged | spring-ai-alibaba-mcp/spring-ai-alibaba-mcp-nacos-dynamic-server/src/main/java/com/alibaba/cloud/ai/mcp/dynamic/server/watcher/DynamicNacosToolsWatcher.java:189-192 | an eligible service whose document lists no tools is purged the same way |
| Reconciliation.ToolsReplaceEntry | spring-ai-alibaba-mcp/spring-ai-alibaba-mcp-nacos-dynamic-server/src/main/java/com/alibaba/cloud/ai/mcp/dynamic/server/watcher/DynamicNacosToolsWatcher.java:195-214 | with tools: all are upserted in order; the entry becomes exactly the parsed names (full replace); removed = previous − current; no parsed name is removed |
| Reconciliation.FailureChangesNothing | spring-ai-alibaba-mcp/spring-ai-alibaba-mcp-nacos-dynamic-server/src/main/java/com/alibaba/cloud/ai/mcp/dynamic/server/watcher/DynamicNacosToolsWatcher.java:217-222 | a failed fetch, or an undecodable document of an eligible service, leaves cache and sink untouched |
| Reconciliation.EntryIffApplied | spring-ai-alibaba-mcp/spring-ai-alibaba-mcp-nacos-dynamic-server/src/main/java/com/alibaba/cloud/ai/mcp/dynamic/server/watcher/DynamicNacosToolsWatcher.java:178-214 | after a reconciliation that went through, the entry exists exactly when the service was eligible with at least one tool |
| Reconciliation.ReconcileIdempotent | spring-ai-alibaba-mcp/spring-ai-alibaba-mcp-nacos-dynamic-server/src/main/java/com/alibaba/cloud/ai/mcp/dynamic/server/watcher/DynamicNacosToolsWatcher.java:203-214 | reconciling again with the same answers removes nothing and leaves the cache unchanged |
| Reconciliation.ReconcileLocal | spring-ai-alibaba-mcp/spring-ai-alibaba-mcp-nacos-dynamic-server/src/main/java/com/alibaba/cloud/ai/mcp/dynamic/server/watcher/DynamicNacosToolsWatcher.java:203 | the outcome depends on the old cache only through the service's own entry |
| Reconciliation.DiffExample | spring-ai-alibaba-mcp/spring-ai-alibaba-mcp-nacos-dynamic-server/src/main/java/com/alibaba/cloud/ai/mcp/dynamic/server/watcher/DynamicNacosToolsWatcher.java:203-214 | previous {A,B,C}, parsed B,C,D: only A is removed and the entry becomes {B,C,D} |
| Reconciliation.EndToEndScenario | spring-ai-alibaba-mcp/spring-ai-alibaba-mcp-nacos-dynamic-server/src/main/java/com/alibaba/cloud/ai/mcp/dynamic/server/watcher/DynamicNacosToolsWatcher.java:165-214 | `search` with tool `find` is upserted and cached; when its list becomes empty `find` is removed and the entry deleted |
| Reconciliation.Sweep | spring-ai-alibaba-mcp/spring-ai-alibaba-mcp-nacos-dynamic-server/src/main/java/com/alibaba/cloud/ai/mcp/dynamic/server/watcher/DynamicNacosToolsWatcher.java:127-131 | reconciling the listed services in turn leaves every unlisted service's entry as it was and creates no empty entry |
| Reconciliation.SweepAgreesWithReconcile | spring-ai-alibaba-mcp/spring-ai-alibaba-mcp-nacos-dynamic-server/src/main/java/com/alibaba/cloud/ai/mcp/dynamic/server/watcher/DynamicNacosToolsWatcher.java:127-128 | after the sweep each listed service's entry is what reconciling it alone gives, even when it is listed twice |
| Reconciliation.SweepStep | spring-ai-alibaba-mcp/spring-ai-alibaba-mcp-nacos-dynamic-server/src/main/java/com/alibaba/cloud/ai/mcp/dynamic/server/watcher/DynamicNacosToolsWatcher.java:126-128 | one more listed service appends its reconciliation's upserts and a removal of exactly the names it dropped to the sweep's sink calls |
| Reconciliation.SweepCallsOwned | spring-ai-alibaba-mcp/spring-ai-alibaba-mcp-nacos-dynamic-server/src/main/java/com/alibaba/cloud/ai/mcp/dynamic/server/watcher/DynamicNacosToolsWatcher.java:127-128 | every tool a sweep upserts is stamped with one of the listed services |
| Reconciliation.Prune | spring-ai-alibaba-mcp/spring-ai-alibaba-mcp-nacos-dynamic-server/src/main/java/com/alibaba/cloud/ai/mcp/dynamic/server/watcher/DynamicNacosToolsWatcher.java:142-163 | after cleanup the keys are the cached keys that are current, and their entries are unchanged |
| Reconciliation.PruneDropsStale | spring-ai-alibaba-mcp/spring-ai-alibaba-mcp-nacos-dynamic-server/src/main/java/com/alibaba/cloud/ai/mcp/dynamic/server/watcher/DynamicNacosToolsWatcher.java:144-145 | cleanup is exactly the deletion of the stale set `keys − current` |
| Reconciliation.BagSplit | spring-ai-alibaba-mcp/spring-ai-alibaba-mcp-nacos-dynamic-server/src/main/java/com/alibaba/cloud/ai/mcp/dynamic/server/watcher/DynamicNacosToolsWatcher.java:148-162 | the tools removed for a set of stale services do not depend on the order the services are visited |
| Reconciliation.StaleToolsCovered | spring-ai-alibaba-mcp/spring-ai-alibaba-mcp-nacos-dynamic-server/src/main/java/com/alibaba/cloud/ai/mcp/dynamic/server/watcher/DynamicNacosToolsWatcher.java:148-160 | every tool of every stale service is sent to `removeTool` |
| Reconciliation.NothingStale | spring-ai-alibaba-mcp/spring-ai-alibaba-mcp-nacos-dynamic-server/src/main/java/com/alibaba/cloud/ai/mcp/dynamic/server/watcher/DynamicNacosToolsWatcher.java:144-145 | when every cached service is still listed, cleanup removes nothing and keeps the cache |
| Reconciliation.Poll | spring-ai-alibaba-mcp/spring-ai-alibaba-mcp-nacos-dynamic-server/src/main/java/com/alibaba/cloud/ai/mcp/dynamic/server/watcher/DynamicNacosToolsWatcher.java:122-132 | after a tick every cached service is one of the listed services |
| Reconciliation.PollOutcome | spring-ai-alibaba-mcp/spring-ai-alibaba-mcp-nacos-dynamic-server/src/main/java/com/alibaba/cloud/ai/mcp/dynamic/server/watcher/DynamicNacosToolsWatcher.java:122-132 | after a tick a listed service holds what reconciling it alone gives, and an unlisted one holds nothing |
| Reconciliation.ServicesOfKeys | spring-ai-alibaba-mcp/spring-ai-alibaba-mcp-nacos-dynamic-server/src/main/java/com/alibaba/cloud/ai/mcp/dynamic/server/watcher/DynamicNacosToolsWatcher.java:251-257 | a change batch reconciles exactly the services named by its tool configuration keys |
| Reconciliation.ConfigChangeReconcilesService | spring-ai-alibaba-mcp/spring-ai-alibaba-mcp-nacos-dynamic-server/src/main/java/com/alibaba/cloud/ai/mcp/dynamic/server/watcher/DynamicNacosToolsWatcher.java:250-258 | a change to `S-mcp-tools.json` reconciles exactly service S |
| Reconciliation.ForeignKeyIgnored | spring-ai-alibaba-mcp/spring-ai-alibaba-mcp-nacos-dynamic-server/src/main/java/com/alibaba/cloud/ai/mcp/dynamic/server/watcher/DynamicNacosToolsWatcher.java:253 | a change to a null key or one without the suffix changes nothing |
| Watcher.ToolsWatcher.constructor | spring-ai-alibaba-mcp/spring-ai-alibaba-mcp-nacos-dynamic-server/src/main/java/com/alibaba/cloud/ai/mcp/dynamic/server/watcher/DynamicNacosToolsWatcher.java:74-86 | a new watcher has an empty cache, no sink calls, and the version from the startup probe |
| Watcher.ToolsWatcher.GetNacosVersion | spring-ai-alibaba-mcp/spring-ai-alibaba-mcp-nacos-dynamic-server/src/main/java/com/alibaba/cloud/ai/mcp/dynamic/server/watcher/DynamicNacosToolsWatcher.java:107-113 | the probe is taken only while the version is unknown; a known version never changes |
| Watcher.ToolsWatcher.SendRemoves | spring-ai-alibaba-mcp/spring-ai-alibaba-mcp-nacos-dynamic-server/src/main/java/com/alibaba/cloud/ai/mcp/dynamic/server/watcher/DynamicNacosToolsWatcher.java:228-236 | the sink receives one `removeTool` per name of the set, and nothing else |
| Watcher.ToolsWatcher.RemoveServiceTools | spring-ai-alibaba-mcp/spring-ai-alibaba-mcp-nacos-dynamic-server/src/main/java/com/alibaba/cloud/ai/mcp/dynamic/server/watcher/DynamicNacosToolsWatcher.java:225-238 | only the service's key is deleted, and each tool it held is removed once |
| Watcher.ToolsWatcher.UpdateServiceTools | spring-ai-alibaba-mcp/spring-ai-alibaba-mcp-nacos-dynamic-server/src/main/java/com/alibaba/cloud/ai/mcp/dynamic/server/watcher/DynamicNacosToolsWatcher.java:165-223 | the new cache is `Reconcile`'s; the sink gets `Reconcile`'s upserts in order, then exactly its removed set |
| Watcher.ToolsWatcher.ReplaceTools | spring-ai-alibaba-mcp/spring-ai-alibaba-mcp-nacos-dynamic-server/src/main/java/com/alibaba/cloud/ai/mcp/dynamic/server/watcher/DynamicNacosToolsWatcher.java:194-214 | upserts every definition in order, removes previous − current, and replaces the entry with the parsed names |
| Watcher.ToolsWatcher.CleanupStaleServices | spring-ai-alibaba-mcp/spring-ai-alibaba-mcp-nacos-dynamic-server/src/main/java/com/alibaba/cloud/ai/mcp/dynamic/server/watcher/DynamicNacosToolsWatcher.java:142-163 | the cache becomes `Prune(old, current)`; the sink receives only removals, and they are exactly the tools of the stale services |
| Watcher.ToolsWatcher.Watch | spring-ai-alibaba-mcp/spring-ai-alibaba-mcp-nacos-dynamic-server/src/main/java/com/alibaba/cloud/ai/mcp/dynamic/server/watcher/DynamicNacosToolsWatcher.java:115-140 | gated or failed listing: cache and sink untouched; otherwise the cache becomes `Poll(old, listing)`, the sink gets the sweep's calls service by service (each service's upserts, then exactly the names it dropped), then exactly the removals of the swept cache's stale tools; the version is settled lazily |
| Watcher.ToolsWatcher.SweepServices | spring-ai-alibaba-mcp/spring-ai-alibaba-mcp-nacos-dynamic-server/src/main/java/com/alibaba/cloud/ai/mcp/dynamic/server/watcher/DynamicNacosToolsWatcher.java:126-131 | the cache becomes `Sweep(old, listing)` and the sink gets `SweepCalls`: each listed service reconciled in list order, its upserts then a removal of exactly what its entry lost |
| Watcher.ToolsWatcher.OnEvent | spring-ai-alibaba-mcp/spring-ai-alibaba-mcp-nacos-dynamic-server/src/main/java/com/alibaba/cloud/ai/mcp/dynamic/server/watcher/DynamicNacosToolsWatcher.java:240-247 | a naming event reconciles its service exactly as `UpdateServiceTools` does; any other event changes nothing |
| Watcher.ToolsWatcher.ReceiveConfigChange | spring-ai-alibaba-mcp/spring-ai-alibaba-mcp-nacos-dynamic-server/src/main/java/com/alibaba/cloud/ai/mcp/dynamic/server/watcher/DynamicNacosToolsWatcher.java:249-259 | the cache becomes the sweep over the services named by the changed keys, in order, and the sink gets that sweep's calls service by service |

## Left out

- The scheduler, `startScheduledPolling` and `stop()` (lines 53, 88-105) are not modelled. They are timer and shutdown plumbing. `Watch` models one tick.
- Concurrency is not modelled. The `ConcurrentHashMap`, the `volatile` version and overlapping poll and push reconciliations of one service are all out. Every method is one atomic sequential step.
- The Nacos `NamingService` and `ConfigService` and the `WebClient` version probe are not modelled. Their answers are inputs: `Env` and the `probe` argument.
- `subscribe` and `addListener` (lines 129-130) are no-ops here. Line 130 registers the listener on the bare service name, not on `service-mcp-tools.json`. The model keeps that line as it is and does not model listener keys.
- A failure inside `subscribe` or `addListener` would abort the rest of the tick. That is not modelled, because those calls are no-ops.
- The bodies of `NacosHelper.fetchNacosVersion`, `compareVersion`, `listAllServices` and `hasHealthyEnabledInstance` are not part of this model. The model defines `compareVersion` and `hasHealthyEnabledInstance` from their use in the watcher:
  - `CompareVersion` is the numeric major, minor, patch order the gate at line 118 needs. The version is taken already split into those numbers, so parsing the version string is not modelled.
  - `HasHealthyEnabled` is "some instance is healthy and enabled", as the comment at line 174 says.
  - `fetchNacosVersion` is the `probe` argument and `listAllServices` is the `services` field of `Env`.
- One `Env` answers every backend call of a whole tick or change batch. The backend cannot change in the middle of a tick, so a service listed twice gets the same answers both times; `SweepAgreesWithReconcile` relies on this.
- `JacksonUtils.toObj` is the `parse` field of `Env`. Its outcome is either a tool list or `Malformed`.
  - A missing `tools` list is the empty list, as `CollectionUtils.isEmpty` treats null.
  - A document that decodes to null throws and is caught. It is `Malformed` here.
- The sink is total. A failing `removeTool` is caught per tool (lines 152-158, 229-235), and that failure is not represented. Neither is a throwing `addTool` or `removeTool` at lines 199 and 210, which would abandon the reconciliation part-way.
- Null service names and null tool names are not represented.
- Logging is not modelled.
