/**
 The values the tools watcher reads from the service directory and the
 configuration store, and the calls it makes on the tool sink.
 */
module Registry {

  datatype Option<+T> = None | Some(value: T)

  /** The outcome of one backend call: an answer, or a thrown NacosException. */
  datatype Fetch<+T> = Fetched(value: T) | Failed

  /** One registered instance of a service, as far as eligibility looks at it. */
  datatype Instance = Instance(healthy: bool, enabled: bool)

  /**
   A tool definition parsed from a service's tool configuration document:
   its name, the owning service (absent until the watcher stamps it) and the
   rest of the definition, which the watcher never looks into.
   */
  datatype ToolDef = ToolDef(name: string, serviceName: Option<string>, payload: string)

  /**
   The outcome of decoding a tool configuration document: the `tools` list
   (an absent list decodes as the empty one), or a document that does not
   decode.
   */
  datatype Parsed = Tools(defs: seq<ToolDef>) | Malformed

  /** A call on the tool sink: `addTool` or `removeTool`. */
  datatype SinkOp = Upsert(def: ToolDef) | Remove(name: string)

  /**
   What the backend answers during one step of the watcher.
   - services: the service listing of the configured group
   - configs: the configuration store, by data id
   - instances: the instance list of each service
   - parse: the JSON decoding of a configuration document
   */
  datatype Env = Env(
    services: Fetch<seq<string>>,
    configs: string -> Fetch<Option<string>>,
    instances: string -> Fetch<seq<Instance>>,
    parse: string -> Parsed)
}
