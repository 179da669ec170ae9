/**
 MemoryConfigCache with its fields. Clock samples are parameters, in the order in
 which the code takes them; a done context is the flag ctxDone.
 */
module ConfigCache {
  import opened Wrappers
  import opened ConfigTypes
  import opened CacheModel

  const DEFAULT_CONFIG_CACHE_TTL: Time := 5 * 60 * 1_000_000_000

  datatype ContextError = ContextError

  class MemoryConfigCache {
    var entries: map<CacheKey, Entry>
    var version: Version
    var nextSweep: nat
    const ttl: Time

    function State(): Cache
      reads this
    {
      Cache(entries, version, nextSweep, ttl)
    }

    constructor (requestedTTL: Option<Time>)
      ensures State() == EmptyCache(ttl)
      ensures 0 < ttl
      ensures requestedTTL.Some? && 0 < requestedTTL.value ==> ttl == requestedTTL.value
      ensures requestedTTL.None? || requestedTTL.value <= 0 ==> ttl == 300_000_000_000
    {
      entries := map[];
      version := 0;
      nextSweep := CACHE_SWEEP_MIN_INTERVAL;
      if requestedTTL.Some? && 0 < requestedTTL.value {
        ttl := requestedTTL.value;
      } else {
        ttl := DEFAULT_CONFIG_CACHE_TTL;
      }
    }

    /** Deletes expired entries in place, one visited key at a time, in any order. */
    method MaybeSweepLocked(now: Time) returns (visits: nat)
      modifies `entries, `nextSweep
      ensures State() == Sweep(old(State()), now)
      ensures visits == SweepVisits(old(State()))
    {
      visits := 0;
      if |entries| < nextSweep {
        return;
      }
      ghost var was := entries;
      var unvisited := entries.Keys;
      while unvisited != {}
        invariant unvisited <= entries.Keys <= was.Keys
        invariant forall key :: key in entries ==> entries[key] == was[key]
        invariant forall key :: key in was && key !in unvisited ==> (key in entries <==> !Expired(was[key], now))
        invariant visits + |unvisited| == |was|
        decreases unvisited
      {
        var key :| key in unvisited;
        if Expired(entries[key], now) {
          entries := entries - {key};
        }
        unvisited := unvisited - {key};
        visits := visits + 1;
      }
      assert entries == Live(was, now);
      nextSweep := 2 * |entries|;
      if nextSweep < CACHE_SWEEP_MIN_INTERVAL {
        nextSweep := CACHE_SWEEP_MIN_INTERVAL;
      }
    }

    /** An uninterrupted call: the clock may advance between its two samples. */
    method GetWithVersion(ctxDone: bool, container: string, tenant: Option<Tenant>, now: Time, recheckNow: Time)
      returns (r: Result<Lookup, ContextError>)
      requires now <= recheckNow
      modifies `entries
      ensures ctxDone ==> r == Err(ContextError) && State() == old(State())
      ensures !ctxDone ==>
        var key, was := KeyFor(container, tenant), old(State());
        && r == Ok(Answer(Peek(was, key), Token(was.version), now))
        && State() == RecheckLocked(was, now, key)
    {
      if ctxDone {
        return Err(ContextError);
      }
      var cacheKey := KeyFor(container, tenant);
      var token := Token(version);
      if cacheKey !in entries {
        return Ok(Lookup(None, token));
      }
      var entry := entries[cacheKey];
      if Expired(entry, now) {
        if cacheKey in entries && Expired(entries[cacheKey], recheckNow) {
          entries := entries - {cacheKey};
        }
        return Ok(Lookup(None, token));
      }
      return Ok(Lookup(Some(entry.config), token));
    }

    method Get(ctxDone: bool, container: string, tenant: Option<Tenant>, now: Time, recheckNow: Time)
      returns (r: Result<Option<ContainerConfig>, ContextError>)
      requires now <= recheckNow
      modifies `entries
      ensures ctxDone ==> r == Err(ContextError) && State() == old(State())
      ensures !ctxDone ==>
        var key, was := KeyFor(container, tenant), old(State());
        && r.Ok? && State() == RecheckLocked(was, now, key)
        && (r.value.Some? <==> key in was.entries && now < was.entries[key].expiresAt)
        && (r.value.Some? ==> r.value.value == was.entries[key].config)
        && (key in was.entries && was.entries[key].expiresAt <= now ==> key !in entries)
    {
      var found := GetWithVersion(ctxDone, container, tenant, now, recheckNow);
      if found.Err? {
        return Err(found.error);
      }
      return Ok(found.value.config);
    }

    method Set(
      ctxDone: bool, container: string, tenant: Option<Tenant>, config: ContainerConfig, sampledAt: Time, now: Time
    ) returns (r: Result<(), ContextError>)
      modifies `entries, `version, `nextSweep
      ensures ctxDone ==> r == Err(ContextError) && State() == old(State())
      ensures !ctxDone ==>
        r == Ok(()) && State() == SetLocked(old(State()), now, KeyFor(container, tenant), config, sampledAt)
    {
      if ctxDone {
        return Err(ContextError);
      }
      var entry := Entry(config, sampledAt + ttl);
      var _ := MaybeSweepLocked(now);
      entries := entries[KeyFor(container, tenant) := entry];
      version := Bump(version);
      return Ok(());
    }

    method Delete(ctxDone: bool, container: string, tenant: Option<Tenant>) returns (r: Result<(), ContextError>)
      modifies `entries, `version
      ensures ctxDone ==> r == Err(ContextError) && State() == old(State())
      ensures !ctxDone ==> r == Ok(()) && State() == DeleteLocked(old(State()), KeyFor(container, tenant))
    {
      if ctxDone {
        return Err(ContextError);
      }
      entries := entries - {KeyFor(container, tenant)};
      version := Bump(version);
      return Ok(());
    }

    method SetIfVersion(
      ctxDone: bool, container: string, tenant: Option<Tenant>, config: ContainerConfig, token: string, sampledAt: Time
    ) returns (r: Result<bool, ContextError>)
      modifies `entries, `version
      ensures ctxDone ==> r == Err(ContextError) && State() == old(State())
      ensures !ctxDone ==>
        && r == Ok(FillLands(old(State()), token))
        && State() == FillLocked(old(State()), KeyFor(container, tenant), config, sampledAt, token)
    {
      if ctxDone {
        return Err(ContextError);
      }
      var entry := Entry(config, sampledAt + ttl);
      if Token(version) != token {
        return Ok(false);
      }
      entries := entries[KeyFor(container, tenant) := entry];
      version := Bump(version);
      return Ok(true);
    }
  }

  /** The pairs differ in the container or in the tenant ID, no tenant counting as the empty one. */
  predicate DifferentPairs(a: string, t: Option<Tenant>, b: string, u: Option<Tenant>) {
    a != b || (if t.Some? then t.value.id else "") != (if u.Some? then u.value.id else "")
  }

  /**
   A Set is seen by the next Get for its container and tenant ID, until the lifetime counted
   from its clock sample is over.
   */
  method SetThenGet(
    cache: MemoryConfigCache, container: string, tenant: Option<Tenant>, caller: Option<Tenant>,
    config: ContainerConfig, sampledAt: Time, now: Time, later: Time
  ) returns (found: Option<ContainerConfig>)
    requires !DifferentPairs(container, tenant, container, caller)
    modifies cache
    ensures later < sampledAt + cache.ttl ==> found == Some(config)
    ensures sampledAt + cache.ttl <= later ==> found == None
  {
    KeysIdentifyPairs(container, tenant, container, caller);
    var _ := cache.Set(false, container, tenant, config, sampledAt, now);
    var r := cache.Get(false, container, caller, later, later);
    return r.value;
  }

  /**
   A Get for another container or tenant ID answers after a Set what it would have answered
   without it: the entry cached before, if it has not expired.
   */
  method SetThenGetOther(
    cache: MemoryConfigCache, container: string, tenant: Option<Tenant>, config: ContainerConfig, sampledAt: Time,
    now: Time, other: string, caller: Option<Tenant>, later: Time
  ) returns (found: Option<ContainerConfig>)
    requires DifferentPairs(container, tenant, other, caller) && now <= later
    modifies cache
    ensures
      var key := CacheKey(if caller.Some? then caller.value.id else "", other);
      found ==
        if key in old(cache.entries) && later < old(cache.entries)[key].expiresAt
        then Some(old(cache.entries)[key].config) else None
  {
    KeysIdentifyPairs(container, tenant, other, caller);
    var _ := cache.Set(false, container, tenant, config, sampledAt, now);
    var r := cache.Get(false, other, caller, later, later);
    return r.value;
  }

  /** A fill with the token of the preceding lookup lands; after a Delete of any pair it does not. */
  method FillAfterLookup(
    cache: MemoryConfigCache, container: string, tenant: Option<Tenant>, config: ContainerConfig, now: Time,
    deletes: bool, other: string, caller: Option<Tenant>
  ) returns (landed: bool)
    modifies cache
    ensures landed <==> !deletes
    ensures
      var key := CacheKey(if tenant.Some? then tenant.value.id else "", container);
      landed ==> key in cache.entries && cache.entries[key] == Entry(config, now + cache.ttl)
  {
    var seen := cache.GetWithVersion(false, container, tenant, now, now);
    if deletes {
      ghost var version := cache.version;
      var _ := cache.Delete(false, other, caller);
      TokensIdentifyVersions(cache.version, version);
    }
    var r := cache.SetIfVersion(false, container, tenant, config, seen.value.token, now);
    return r.value;
  }

  /** After a Delete its pair is gone. */
  method DeleteThenGet(
    cache: MemoryConfigCache, container: string, tenant: Option<Tenant>, now: Time
  ) returns (found: Option<ContainerConfig>)
    modifies cache
    ensures found == None
    ensures CacheKey(if tenant.Some? then tenant.value.id else "", container) !in cache.entries
  {
    var _ := cache.Delete(false, container, tenant);
    var r := cache.Get(false, container, tenant, now, now);
    return r.value;
  }
}
