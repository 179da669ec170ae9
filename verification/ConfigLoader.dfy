/**
 cachedConfigSource with its fields: the slot map, the shared call records, and Load as
 an uninterrupted call. LoaderProtocol interleaves the same critical sections.
 */
module ConfigLoader {
  import opened Wrappers
  import opened ConfigTypes
  import opened CacheModel
  import opened ConfigCache
  import opened LoaderProtocol

  class ConfigLoadCall {
    var done: bool
    var outcome: Outcome

    constructor ()
      ensures !done && outcome == Outcome(NO_CONFIG, None)
    {
      done := false;
      outcome := Outcome(NO_CONFIG, None);
    }
  }

  /** Load either returns, or blocks on the channel of another goroutine's call. */
  datatype Progress = Returned(outcome: Outcome) | BlockedOn(call: ConfigLoadCall)

  /** The context's state at each of the three cache calls, and the clock samples they take. */
  datatype Conditions = Conditions(
    firstDone: bool, versionedDone: bool, fillDone: bool,
    firstNow: Time, firstRecheck: Time, versionedNow: Time, versionedRecheck: Time, fillNow: Time)
  {
    predicate Ordered() {
      firstNow <= firstRecheck <= versionedNow <= versionedRecheck <= fillNow
    }
  }

  class CachedConfigSource {
    const cache: MemoryConfigCache
    var loads: map<CacheKey, ConfigLoadCall>

    constructor (cache: MemoryConfigCache)
      ensures this.cache == cache && loads == map[]
    {
      this.cache := cache;
      loads := map[];
    }

    /** The first critical section: join the call in the slot or create one. */
    method TakeSlotOrJoin(key: CacheKey) returns (call: ConfigLoadCall, leads: bool)
      modifies `loads
      ensures leads <==> key !in old(loads)
      ensures !leads ==> loads == old(loads) && call == loads[key]
      ensures leads ==> fresh(call) && !call.done && loads == old(loads)[key := call]
    {
      if key in loads {
        return loads[key], false;
      }
      call := new ConfigLoadCall();
      loads := loads[key := call];
      leads := true;
    }

    /** The last critical section: free the slot and close the channel. */
    method ReleaseSlot(key: CacheKey, call: ConfigLoadCall)
      requires key in loads && loads[key] == call && !call.done
      modifies `loads, call
      ensures loads == old(loads) - {key}
      ensures call.done && call.outcome == old(call.outcome)
    {
      loads := loads - {key};
      call.done := true;
    }

    /**
     The leader's part. A hit on the second read answers the call; otherwise the source's
     answer does, and it is cached when the context cut off neither the versioned read nor
     the fill. Nothing else that is alive in the cache changes.
     */
    method LoadAsLeader(c: Conditions, container: string, tenant: Option<Tenant>, answer: Outcome, call: ConfigLoadCall)
      returns (outcome: Outcome)
      requires c.Ordered()
      requires KeyFor(container, tenant) in loads && loads[KeyFor(container, tenant)] == call && !call.done
      modifies this`loads, call, cache`entries, cache`version
      ensures loads == old(loads) - {KeyFor(container, tenant)}
      ensures call.done && call.outcome == outcome
      ensures
        var key, was := KeyFor(container, tenant), old(cache.State());
        outcome ==
          if Hits(was, c.versionedDone, key, c.versionedNow) then Outcome(was.entries[key].config, None) else answer
      ensures
        var key, was := KeyFor(container, tenant), old(cache.State());
        cache.State() ==
          if !Hits(was, c.versionedDone, key, c.versionedNow) && answer.err.None? && !c.versionedDone && !c.fillDone
          then Filled(was, key, answer.config, c.fillNow)
          else Looked(was, c.versionedDone, key, c.versionedNow)
    {
      var key := KeyFor(container, tenant);
      ghost var version := cache.version;
      var token, found := "", None;
      var read := cache.GetWithVersion(c.versionedDone, container, tenant, c.versionedNow, c.versionedRecheck);
      if read.Ok? {
        token, found := read.value.token, read.value.config;
      }
      if found.Some? {
        call.outcome := Outcome(found.value, None);
      } else {
        call.outcome := answer;
        if answer.err.None? {
          var _ := cache.SetIfVersion(c.fillDone, container, tenant, answer.config, token, c.fillNow);
          TokensIdentifyVersions(version, version);
        }
      }
      ReleaseSlot(key, call);
      return call.outcome;
    }

    /**
     A hit returns the cached configuration and touches no slot; a miss with a taken slot
     blocks; otherwise the caller leads, and its slot is free again when it returns.
     */
    method Load(c: Conditions, container: string, tenant: Option<Tenant>, answer: Outcome) returns (p: Progress)
      requires c.Ordered()
      modifies this`loads, cache`entries, cache`version
      ensures loads == old(loads)
      ensures
        var key, was := KeyFor(container, tenant), old(cache.State());
        p ==
          if Hits(was, c.firstDone, key, c.firstNow) then Returned(Outcome(was.entries[key].config, None))
          else if key in old(loads) then BlockedOn(old(loads)[key])
          else if Hits(was, c.versionedDone, key, c.versionedNow) then Returned(Outcome(was.entries[key].config, None))
          else Returned(answer)
      ensures
        p == Returned(answer) && answer.err.None? && !c.firstDone && !c.versionedDone && !c.fillDone ==>
          var key := KeyFor(container, tenant);
          key in cache.entries && cache.entries[key].config == answer.config
      ensures
        var key := CacheKey(if tenant.Some? then tenant.value.id else "", container);
        var entries := old(cache.entries);
        !c.firstDone && key in entries && c.firstNow < entries[key].expiresAt ==>
          p == Returned(Outcome(entries[key].config, None))
      ensures
        var key := CacheKey(if tenant.Some? then tenant.value.id else "", container);
        key !in old(cache.entries) && key !in old(loads) ==> p == Returned(answer)
      ensures forall key :: key != KeyFor(container, tenant) ==>
        Peek(cache.State(), key) == Peek(old(cache.State()), key)
    {
      var key := KeyFor(container, tenant);
      var first := cache.Get(c.firstDone, container, tenant, c.firstNow, c.firstRecheck);
      if first.Ok? && first.value.Some? {
        return Returned(Outcome(first.value.value, None));
      }
      var call, leads := TakeSlotOrJoin(key);
      if !leads {
        return BlockedOn(call);
      }
      var outcome := LoadAsLeader(c, container, tenant, answer, call);
      assert loads == old(loads);
      return Returned(outcome);
    }
  }

  /** The entry is there and unexpired, and the context lets the read happen. */
  predicate Hits(c: Cache, done: bool, key: CacheKey, now: Time) {
    !done && key in c.entries && !Expired(c.entries[key], now)
  }

  function Looked(c: Cache, done: bool, key: CacheKey, now: Time): Cache {
    if done then c else RecheckLocked(c, now, key)
  }

  function Filled(c: Cache, key: CacheKey, config: ContainerConfig, sampledAt: Time): Cache {
    c.(entries := c.entries[key := Entry(config, sampledAt + c.ttl)], version := Bump(c.version))
  }
}
