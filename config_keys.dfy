/**
 The data id under which a service's tool configuration is stored, and the
 inverse mapping a configuration change notification goes through.
 */
module ConfigKeys {
  import opened Registry

  const ToolsConfigSuffix: string := "-mcp-tools.json"

  predicate EndsWith(s: string, suffix: string) {
    |suffix| <= |s| && s[|s| - |suffix|..] == suffix
  }

  /** The data id of `service`'s tool configuration. */
  function ConfigKeyOf(service: string): (key: string)
    ensures EndsWith(key, ToolsConfigSuffix)
    ensures |key| == |service| + |ToolsConfigSuffix| && key[..|service|] == service
  {
    service + ToolsConfigSuffix
  }

  /**
   The service a changed data id belongs to: a missing key, or one without
   the tool configuration suffix, belongs to none.
   */
  function ServiceOfKey(key: Option<string>): (service: Option<string>)
    ensures service.Some? <==> key.Some? && EndsWith(key.value, ToolsConfigSuffix)
    ensures service.Some? ==> ConfigKeyOf(service.value) == key.value
  {
    if key.Some? && EndsWith(key.value, ToolsConfigSuffix) then
      Some(key.value[..|key.value| - |ToolsConfigSuffix|])
    else
      None
  }

  /** Stripping the suffix recovers the service the data id was built from. */
  lemma KeyRoundTrip(service: string)
    ensures ServiceOfKey(Some(ConfigKeyOf(service))) == Some(service)
  {
  }

  /** Distinct data ids never name the same service. */
  lemma ServiceOfKeyInjective(k1: string, k2: string)
    requires ServiceOfKey(Some(k1)).Some? && ServiceOfKey(Some(k1)) == ServiceOfKey(Some(k2))
    ensures k1 == k2
  {
  }

  lemma ConfigKeyExamples()
    ensures ServiceOfKey(Some("orders-mcp-tools.json")) == Some("orders")
    ensures ServiceOfKey(Some("orders.json")) == None
    ensures ServiceOfKey(None) == None
  {
    KeyRoundTrip("orders");
    assert ConfigKeyOf("orders") == "orders-mcp-tools.json";
  }
}
