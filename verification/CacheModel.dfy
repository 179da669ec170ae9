/**
 The configuration cache as a value: one function per critical section of
 MemoryConfigCache. The class in ConfigCache.dfy is proved against these functions,
 and the concurrent models interleave them.
 */
module CacheModel {
  import opened Wrappers
  import opened ConfigTypes
  import opened Strconv

  const CACHE_SWEEP_MIN_INTERVAL: nat := 16

  /** An instant of the clock. */
  type Time = int

  datatype Entry = Entry(config: ContainerConfig, expiresAt: Time)

  /** A uint64 counter. */
  type Version = v: nat | v < TWO_TO_64

  datatype Cache = Cache(entries: map<CacheKey, Entry>, version: Version, nextSweep: nat, ttl: Time)

  predicate Expired(entry: Entry, now: Time) {
    entry.expiresAt <= now
  }

  /** The entries a reader may still return at instant now. */
  function Live(entries: map<CacheKey, Entry>, now: Time): map<CacheKey, Entry> {
    map key | key in entries && !Expired(entries[key], now) :: entries[key]
  }

  /** The counter wraps around. */
  function Bump(version: Version): Version {
    if version == TWO_TO_64 - 1 then 0 else version + 1
  }

  /** The counter after n increments. */
  function Advanced(version: Version, n: nat): Version {
    if n == 0 then version else Bump(Advanced(version, n - 1))
  }

  lemma {:induction false} AdvancedWraps(version: Version, n: nat)
    ensures Advanced(version, n) == (version + n) % TWO_TO_64
  {
    if n > 0 {
      AdvancedWraps(version, n - 1);
    }
  }

  lemma {:induction false} AdvancedAdds(version: Version, a: nat, b: nat)
    ensures Advanced(version, a + b) == Advanced(Advanced(version, a), b)
  {
    if b > 0 {
      AdvancedAdds(version, a, b - 1);
    }
  }

  function Token(version: Version): string {
    FormatNat(version)
  }

  function Max(a: nat, b: nat): nat {
    if a < b then b else a
  }

  function EmptyCache(ttl: Time): Cache {
    Cache(map[], 0, CACHE_SWEEP_MIN_INTERVAL, ttl)
  }

  /** maybeSweepLocked */
  function Sweep(c: Cache, now: Time): Cache {
    if |c.entries| < c.nextSweep then c
    else
      var kept := Live(c.entries, now);
      c.(entries := kept, nextSweep := Max(CACHE_SWEEP_MIN_INTERVAL, 2 * |kept|))
  }

  /** How many entries maybeSweepLocked looks at. */
  function SweepVisits(c: Cache): nat {
    if |c.entries| < c.nextSweep then 0 else |c.entries|
  }

  /** The locked part of Set; the entry was stamped before the lock was taken. */
  function SetLocked(c: Cache, now: Time, key: CacheKey, config: ContainerConfig, sampledAt: Time): Cache {
    var swept := Sweep(c, now);
    swept.(entries := swept.entries[key := Entry(config, sampledAt + c.ttl)], version := Bump(c.version))
  }

  function DeleteLocked(c: Cache, key: CacheKey): Cache {
    c.(entries := c.entries - {key}, version := Bump(c.version))
  }

  predicate FillLands(c: Cache, token: string) {
    Token(c.version) == token
  }

  /** The locked part of SetIfVersion. */
  function FillLocked(c: Cache, key: CacheKey, config: ContainerConfig, sampledAt: Time, token: string): Cache {
    if FillLands(c, token) then
      c.(entries := c.entries[key := Entry(config, sampledAt + c.ttl)], version := Bump(c.version))
    else c
  }

  /** The recheck of GetWithVersion under the write lock. */
  function RecheckLocked(c: Cache, now: Time, key: CacheKey): Cache {
    if key in c.entries && Expired(c.entries[key], now) then c.(entries := c.entries - {key}) else c
  }

  /** The part of GetWithVersion under the read lock. */
  function Peek(c: Cache, key: CacheKey): Option<Entry> {
    if key in c.entries then Some(c.entries[key]) else None
  }

  /** What a caller of GetWithVersion sees: the configuration on a hit, and the version token. */
  datatype Lookup = Lookup(config: Option<ContainerConfig>, token: string)

  /** The answer for an entry captured under the read lock when the clock is read later. */
  function Answer(captured: Option<Entry>, token: string, now: Time): Lookup {
    if captured.Some? && !Expired(captured.value, now) then Lookup(Some(captured.value.config), token)
    else Lookup(None, token)
  }

  /** What is live: entries whose expiry lies after the clock. */
  lemma LiveExactly(entries: map<CacheKey, Entry>, now: Time, key: CacheKey)
    ensures key in Live(entries, now) <==> key in entries && now < entries[key].expiresAt
    ensures key in Live(entries, now) ==> Live(entries, now)[key] == entries[key]
  {
  }

  /** A recheck removes its key exactly when the entry it finds has expired, and nothing else. */
  lemma RecheckExactly(c: Cache, now: Time, key: CacheKey, other: CacheKey)
    ensures
      var after := RecheckLocked(c, now, key);
      && (key in after.entries <==> key in c.entries && now < c.entries[key].expiresAt)
      && (other in after.entries <==> other in c.entries && (other == key ==> now < c.entries[key].expiresAt))
      && (other in after.entries ==> after.entries[other] == c.entries[other])
      && after.version == c.version && after.nextSweep == c.nextSweep && after.ttl == c.ttl
  {
  }

  /** Reading the token as a decimal number gives the version. */
  lemma TokensAreDecimal(version: Version)
    ensures AllDigits(Token(version)) && NatValue(Token(version)) == version
  {
    FormatNatReadsBack(version);
  }

  lemma MapSizes<K, V>(m: map<K, V>, key: K, value: V)
    ensures |m[key := value]| <= |m| + 1
    ensures |m - {key}| <= |m|
  {
    assert m[key := value].Keys == m.Keys + {key};
    assert (m - {key}).Keys == m.Keys - {key};
  }

  /** No two distinct counter values share a token, and no token is the empty string. */
  lemma TokensIdentifyVersions(a: Version, b: Version)
    ensures Token(a) == Token(b) <==> a == b
    ensures Token(a) != ""
  {
    FormatNatInjective(a, b);
    FormatNatReadsBack(a);
  }
}
