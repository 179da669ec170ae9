/** Configuration values and the keys that index them. */
module ConfigTypes {
  import opened Wrappers

  datatype TenantMode = TenantScoped | TenantShared | OtherMode(code: nat)

  /** A configuration as a value. Reading a nil map in Go is reading an empty one. */
  datatype ContainerConfig = ContainerConfig(backend: string, tenantMode: TenantMode, values: map<string, string>)

  datatype Tenant = Tenant(id: string, code: string, name: string)

  /** Cache entries and in-flight loads are indexed by the same pair. */
  datatype CacheKey = CacheKey(tenantID: string, container: string)

  function KeyFor(container: string, tenant: Option<Tenant>): CacheKey {
    CacheKey(if tenant.Some? then tenant.value.id else "", container)
  }

  /** Keys agree exactly for one container and one tenant ID; no tenant counts as the empty ID. */
  lemma KeysIdentifyPairs(a: string, t: Option<Tenant>, b: string, u: Option<Tenant>)
    ensures KeyFor(a, t) == KeyFor(b, u) <==>
      && a == b
      && (match (t, u)
          case (Some(x), Some(y)) => x.id == y.id
          case (Some(x), None) => x.id == ""
          case (None, Some(y)) => y.id == ""
          case (None, None) => true)
  {
  }

  /** The value a Go map read yields: absent keys read as the empty string. */
  function ValueAt(values: map<string, string>, key: string): string {
    if key in values then values[key] else ""
  }
}
