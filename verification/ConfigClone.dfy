/** ContainerConfig.Clone and NewContainerConfig, which copy a Go map entry by entry. */
module ConfigClone {
  import opened Wrappers
  import opened ConfigTypes

  /** A Go map: a mutable object that several structs may refer to. */
  class ValueMap {
    var entries: map<string, string>

    constructor ()
      ensures entries == map[]
    {
      entries := map[];
    }
  }

  datatype ConfigRef = ConfigRef(backend: string, tenantMode: TenantMode, values: ValueMap?)

  /** A new map object with the same entries, filled in any iteration order. */
  method CopyEntries(source: ValueMap) returns (copy: ValueMap)
    ensures fresh(copy)
    ensures copy.entries == source.entries
  {
    copy := new ValueMap();
    var unvisited := source.entries.Keys;
    while unvisited != {}
      invariant unvisited <= source.entries.Keys
      invariant copy.entries == map key | key in source.entries && key !in unvisited :: source.entries[key]
      decreases unvisited
    {
      var key :| key in unvisited;
      copy.entries := copy.entries[key := source.entries[key]];
      unvisited := unvisited - {key};
    }
  }

  /** The clone shares no map with its original; nil stays nil. */
  method Clone(c: ConfigRef) returns (copy: ConfigRef)
    ensures copy.backend == c.backend && copy.tenantMode == c.tenantMode
    ensures copy.values == null <==> c.values == null
    ensures c.values != null ==> fresh(copy.values) && copy.values.entries == c.values.entries
  {
    copy := c;
    if c.values != null {
      var values := CopyEntries(c.values);
      copy := copy.(values := values);
    }
  }

  /** A provider's typed configuration: its backend name and the map its Values method returns. */
  datatype BackendConfig = BackendConfig(name: string, values: ValueMap?)

  /** The provider's map is copied even when it is nil, which reads as empty; no provider gives the zero value. */
  method NewContainerConfig(config: Option<BackendConfig>) returns (c: ConfigRef)
    ensures c.tenantMode == TenantScoped
    ensures config.None? ==> c.backend == "" && c.values == null
    ensures config.Some? ==>
      && c.backend == config.value.name && c.values != null && fresh(c.values)
      && c.values.entries == if config.value.values == null then map[] else config.value.values.entries
  {
    if config.None? {
      return ConfigRef("", TenantScoped, null);
    }
    var copied: ValueMap;
    if config.value.values != null {
      copied := CopyEntries(config.value.values);
    } else {
      copied := new ValueMap();
    }
    c := ConfigRef(config.value.name, TenantScoped, copied);
  }
}
