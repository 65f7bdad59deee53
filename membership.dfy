/**
 * Service membership of go/shared/cluster/membership.go: every instance of a
 * service type keeps its own field, a serialised `ServiceInfo`, in the
 * registry hash `service_registry:<type>`, refreshes it by heartbeat, helps
 * remove the stale fields of its peers, and removes its own field when it
 * stops.
 *
 * Durations and instants are milliseconds; the clock is the `now` parameter.
 * Whether the registry answers a call is an input (`reachable`, `readOk`,
 * `deleteOk`). The heartbeat and cleanup goroutines are not modelled; their
 * bodies are the methods `SendHeartbeat` and `CleanupPass`, and `loopPairs`
 * counts the pairs of loops `Register` started and `Stop` has not yet ended.
 */
module Membership {
  import opened Wrappers

  const RegistryHashPrefix: string := "service_registry:"
  const DefaultHeartbeatInterval: int := 5 * MillisPerSecond
  const DefaultServiceTimeout: int := 15 * MillisPerSecond
  const DefaultCleanupInterval: int := 30 * MillisPerSecond

  datatype ServiceInfo = ServiceInfo(
    id: string,
    serviceType: string,
    ip: string,
    port: int,
    lastSeen: int,
    createdAt: int,
    metadata: map<string, string>)

  /** A registry field as a reader decodes it: the info, or a value that does not decode. */
  datatype RegistryEntry = WellFormed(info: ServiceInfo) | Malformed

  /** One registry hash: instance id to field. */
  type RegistryHash = map<string, RegistryEntry>

  datatype ServiceConfig = ServiceConfig(
    serviceId: string,
    serviceType: string,
    ip: string,
    port: int,
    initialMetadata: map<string, string>,
    heartbeatInterval: int,
    heartbeatTTL: int,
    cleanupInterval: int)

  datatype RegistrarError = NilClient | EmptyServiceType | TtlNotAboveInterval | Unavailable

  /** `getRedisKey`: the registry hash of a service type. */
  function RegistryKey(serviceType: string): string {
    RegistryHashPrefix + serviceType
  }

  /** Different service types have different registry hashes. */
  lemma RegistryKeyInjective(a: string, b: string)
    ensures RegistryKey(a) == RegistryKey(b) ==> a == b
  {
    if RegistryKey(a) == RegistryKey(b) {
      assert a == RegistryKey(a)[|RegistryHashPrefix|..];
      assert b == RegistryKey(b)[|RegistryHashPrefix|..];
    }
  }

  /** HGETALL: the fields of a hash; a missing hash has none. */
  function HashOf(hashes: map<string, RegistryHash>, key: string): RegistryHash {
    if key in hashes then hashes[key] else map[]
  }

  /** HSET of one field. */
  function HSet(hashes: map<string, RegistryHash>, key: string, field: string, e: RegistryEntry): map<string, RegistryHash> {
    hashes[key := HashOf(hashes, key)[field := e]]
  }

  /** HDEL of several fields; a missing hash stays missing. */
  function HDel(hashes: map<string, RegistryHash>, key: string, fields: set<string>): map<string, RegistryHash> {
    if key in hashes then hashes[key := hashes[key] - fields] else hashes
  }

  /** The cleanup rule: a field is stale when it does not decode or is older than the TTL. */
  predicate Stale(e: RegistryEntry, now: int, ttl: int) {
    e.Malformed? || now - e.info.lastSeen > ttl
  }

  /** The liveness rule of `GetActiveServices`. */
  predicate Active(e: RegistryEntry, now: int, ttl: int) {
    e.WellFormed? && now - e.info.lastSeen <= ttl
  }

  /** The fields a cleanup pass deletes. */
  function StaleIds(h: RegistryHash, now: int, ttl: int): (r: set<string>)
    ensures r <= h.Keys
    ensures forall id :: id in h && h[id].Malformed? ==> id in r
    ensures forall id :: id in h && h[id].WellFormed? && now - ttl <= h[id].info.lastSeen ==> id !in r
  {
    set id | id in h && Stale(h[id], now, ttl)
  }

  /** The instances `GetActiveServices` reports, by id. */
  function ActiveServices(h: RegistryHash, now: int, ttl: int): (r: map<string, ServiceInfo>)
    ensures r.Keys <= h.Keys
    ensures forall id :: id in r ==> h[id] == WellFormed(r[id]) && now - r[id].lastSeen <= ttl
  {
    map id | id in h && Active(h[id], now, ttl) :: h[id].info
  }

  /**
   * At one instant every field is either reported active or deleted by
   * cleanup, never both and never neither; an active field is reported with the
   * info it holds.
   */
  lemma ActiveStalePartition(h: RegistryHash, now: int, ttl: int)
    ensures forall id :: id in h ==> (id in ActiveServices(h, now, ttl) <==> id !in StaleIds(h, now, ttl))
    ensures forall id :: id in ActiveServices(h, now, ttl) ==> id in h && h[id] == WellFormed(ActiveServices(h, now, ttl)[id])
  {
  }

  /**
   * A cleanup pass at `now` leaves exactly the active fields, so the active view
   * at `now` is the same before and after it.
   */
  lemma CleanupKeepsActiveView(h: RegistryHash, now: int, ttl: int)
    ensures forall id :: id in h - StaleIds(h, now, ttl) <==> id in ActiveServices(h, now, ttl)
    ensures ActiveServices(h - StaleIds(h, now, ttl), now, ttl) == ActiveServices(h, now, ttl)
  {
  }

  function EffectiveInterval(c: ServiceConfig): int {
    if c.heartbeatInterval == 0 then DefaultHeartbeatInterval else c.heartbeatInterval
  }

  function EffectiveTTL(c: ServiceConfig): int {
    if c.heartbeatTTL == 0 then DefaultServiceTimeout else c.heartbeatTTL
  }

  /** The checks `NewServiceRegistrar` makes, on the configuration with its interval defaults. */
  predicate Accepted(c: ServiceConfig)
    ensures Accepted(c) ==> c.serviceType != ""
    ensures c.serviceType != "" && c.heartbeatInterval == 0 && c.heartbeatTTL == 0 ==> Accepted(c)
    ensures c.heartbeatTTL == 0 && c.heartbeatInterval >= DefaultServiceTimeout ==> !Accepted(c)
  {
    c.serviceType != "" && EffectiveTTL(c) > EffectiveInterval(c)
  }

  /**
   * The configuration a registrar keeps: every zero interval replaced by its
   * default and an empty id by the generated one; nothing else changes.
   */
  function Defaulted(c: ServiceConfig, generatedId: string): (r: ServiceConfig)
    requires generatedId != ""
    ensures r.serviceId != "" && (c.serviceId != "" ==> r.serviceId == c.serviceId)
    ensures r.heartbeatInterval != 0 && (c.heartbeatInterval != 0 ==> r.heartbeatInterval == c.heartbeatInterval)
    ensures r.heartbeatTTL != 0 && (c.heartbeatTTL != 0 ==> r.heartbeatTTL == c.heartbeatTTL)
    ensures r.cleanupInterval != 0 && (c.cleanupInterval != 0 ==> r.cleanupInterval == c.cleanupInterval)
    ensures r.serviceType == c.serviceType && r.ip == c.ip && r.port == c.port && r.initialMetadata == c.initialMetadata
  {
    c.(serviceId := if c.serviceId == "" then generatedId else c.serviceId,
       heartbeatInterval := EffectiveInterval(c),
       heartbeatTTL := EffectiveTTL(c),
       cleanupInterval := if c.cleanupInterval == 0 then DefaultCleanupInterval else c.cleanupInterval)
  }

  /** The registry as one value: hash key to hash. */
  class RegistryStore {
    var hashes: map<string, RegistryHash>

    constructor(hashes: map<string, RegistryHash>)
      ensures this.hashes == hashes
    {
      this.hashes := hashes;
    }
  }

  class ServiceRegistrar {
    const store: RegistryStore
    const config: ServiceConfig
    var currentInfo: ServiceInfo
    var isStopped: bool
    var loopPairs: nat

    ghost predicate Valid()
      reads this
    {
      && config.serviceId != "" && config.serviceType != ""
      && config.heartbeatInterval != 0 && config.heartbeatTTL > config.heartbeatInterval
      && config.cleanupInterval != 0
      && currentInfo.id == config.serviceId && currentInfo.serviceType == config.serviceType
      && (isStopped ==> loopPairs == 0)
    }

    /** This instance's registry hash. */
    function Key(): string {
      RegistryKey(config.serviceType)
    }

    constructor(store: RegistryStore, config: ServiceConfig, now: int)
      requires config.serviceId != "" && config.serviceType != ""
      requires config.heartbeatInterval != 0 && config.heartbeatTTL > config.heartbeatInterval
      requires config.cleanupInterval != 0
      ensures Valid() && this.store == store && this.config == config
      ensures currentInfo == ServiceInfo(config.serviceId, config.serviceType, config.ip, config.port,
                                         ZeroTimeMillis, now, config.initialMetadata)
      ensures !isStopped && loopPairs == 0
    {
      this.store := store;
      this.config := config;
      currentInfo := ServiceInfo(config.serviceId, config.serviceType, config.ip, config.port,
                                 ZeroTimeMillis, now, config.initialMetadata);
      isStopped := false;
      loopPairs := 0;
    }

    /**
     * `NewServiceRegistrar`: fails for a missing client, an empty type, or a TTL
     * not above the heartbeat interval once both have their defaults; otherwise
     * keeps the defaulted configuration.
     */
    static method New(store: RegistryStore?, config: ServiceConfig, generatedId: string, now: int)
      returns (r: Result<ServiceRegistrar, RegistrarError>)
      requires generatedId != ""
      ensures store == null ==> r == Err(NilClient)
      ensures store != null && config.serviceType == "" ==> r == Err(EmptyServiceType)
      ensures store != null ==> (r.Ok? <==> Accepted(config))
      ensures r.Ok? ==> fresh(r.value) && r.value.Valid() && r.value.store == store
      ensures r.Ok? ==> r.value.config == Defaulted(config, generatedId)
      ensures r.Ok? ==> !r.value.isStopped && r.value.loopPairs == 0 && r.value.currentInfo.createdAt == now
    {
      if store == null {
        return Err(NilClient);
      }
      if config.serviceType == "" {
        return Err(EmptyServiceType);
      }
      var cfg := config;
      if cfg.heartbeatInterval == 0 {
        cfg := cfg.(heartbeatInterval := DefaultHeartbeatInterval);
      }
      if cfg.heartbeatTTL == 0 {
        cfg := cfg.(heartbeatTTL := DefaultServiceTimeout);
      }
      if cfg.heartbeatTTL <= cfg.heartbeatInterval {
        return Err(TtlNotAboveInterval);
      }
      if cfg.cleanupInterval == 0 {
        cfg := cfg.(cleanupInterval := DefaultCleanupInterval);
      }
      if cfg.serviceId == "" {
        cfg := cfg.(serviceId := generatedId);
      }
      var sr := new ServiceRegistrar(store, cfg, now);
      return Ok(sr);
    }

    /**
     * `sendHeartbeat`: stamps `lastSeen` (even when the write fails) and writes
     * this instance's own field; the write fails once the registrar is stopped.
     */
    method SendHeartbeat(now: int, reachable: bool) returns (r: Outcome<RegistrarError>)
      requires Valid()
      modifies this`currentInfo, store`hashes
      ensures Valid()
      ensures currentInfo == old(currentInfo).(lastSeen := now)
      ensures r == if reachable && !isStopped then Pass else Fail(Unavailable)
      ensures store.hashes == if r.Pass? then HSet(old(store.hashes), Key(), config.serviceId, WellFormed(currentInfo))
                              else old(store.hashes)
    {
      currentInfo := currentInfo.(lastSeen := now);
      if !reachable || isStopped {
        return Fail(Unavailable);
      }
      store.hashes := HSet(store.hashes, Key(), config.serviceId, WellFormed(currentInfo));
      return Pass;
    }

    /** The first heartbeat; only when it succeeds are the two loops started. */
    method Register(now: int, reachable: bool) returns (r: Outcome<RegistrarError>)
      requires Valid()
      modifies this`currentInfo, this`loopPairs, store`hashes
      ensures Valid()
      ensures currentInfo == old(currentInfo).(lastSeen := now)
      ensures r == if reachable && !isStopped then Pass else Fail(Unavailable)
      ensures store.hashes == if r.Pass? then HSet(old(store.hashes), Key(), config.serviceId, WellFormed(currentInfo))
                              else old(store.hashes)
      ensures loopPairs == if r.Pass? then old(loopPairs) + 1 else old(loopPairs)
    {
      r := SendHeartbeat(now, reachable);
      if r.Fail? {
        return;
      }
      loopPairs := loopPairs + 1;
    }

    /**
     * One pass of the cleanup loop: reads this type's hash, collects the fields
     * that are malformed or older than the TTL, and deletes them in one call if
     * there are any.
     */
    method CleanupPass(now: int, readOk: bool, deleteOk: bool)
      requires Valid()
      modifies store`hashes
      ensures var stale := StaleIds(HashOf(old(store.hashes), Key()), now, config.heartbeatTTL);
        store.hashes == if readOk && !isStopped && deleteOk && stale != {} then HDel(old(store.hashes), Key(), stale)
                        else old(store.hashes)
    {
      if !readOk || isStopped {
        return;
      }
      var results := HashOf(store.hashes, Key());
      var staleIDs: set<string> := {};
      var remaining := results.Keys;
      while remaining != {}
        invariant remaining <= results.Keys
        invariant staleIDs == StaleIds(results, now, config.heartbeatTTL) - remaining
        decreases remaining
      {
        var instanceID :| instanceID in remaining;
        if results[instanceID].Malformed? {
          staleIDs := staleIDs + {instanceID};
        } else if now - results[instanceID].info.lastSeen > config.heartbeatTTL {
          staleIDs := staleIDs + {instanceID};
        }
        remaining := remaining - {instanceID};
      }
      assert staleIDs == StaleIds(results, now, config.heartbeatTTL);
      if staleIDs != {} && deleteOk {
        store.hashes := HDel(store.hashes, Key(), staleIDs);
      }
    }

    /**
     * The well-formed fields of a type's hash whose heartbeat is within this
     * registrar's TTL; the registry is not changed.
     */
    method GetActiveServices(serviceType: string, now: int, reachable: bool)
      returns (r: Result<map<string, ServiceInfo>, RegistrarError>)
      ensures r == if reachable then Ok(ActiveServices(HashOf(store.hashes, RegistryKey(serviceType)), now, config.heartbeatTTL))
                   else Err(Unavailable)
    {
      if !reachable {
        return Err(Unavailable);
      }
      var results := HashOf(store.hashes, RegistryKey(serviceType));
      var activeServices: map<string, ServiceInfo> := map[];
      var remaining := results.Keys;
      while remaining != {}
        invariant remaining <= results.Keys
        invariant activeServices == map id | id in results && id !in remaining && Active(results[id], now, config.heartbeatTTL) :: results[id].info
        decreases remaining
      {
        var instanceID :| instanceID in remaining;
        var e := results[instanceID];
        if e.WellFormed? && now - e.info.lastSeen <= config.heartbeatTTL {
          activeServices := activeServices[instanceID := e.info];
        }
        remaining := remaining - {instanceID};
      }
      assert activeServices == ActiveServices(results, now, config.heartbeatTTL);
      return Ok(activeServices);
    }

    /**
     * Ends both loops and removes this instance's own field; a second call does
     * nothing.
     */
    method Stop(reachable: bool)
      requires Valid()
      modifies this`isStopped, this`loopPairs, store`hashes
      ensures Valid()
      ensures isStopped && loopPairs == 0
      ensures store.hashes == if !old(isStopped) && reachable then HDel(old(store.hashes), Key(), {config.serviceId})
                              else old(store.hashes)
    {
      if isStopped {
        return;
      }
      isStopped := true;
      loopPairs := 0;
      if reachable {
        store.hashes := HDel(store.hashes, Key(), {config.serviceId});
      }
    }
  }

  /**
   * Right after a heartbeat at `now`, the instance is reported active at every
   * instant up to `now + ttl` with exactly the info it wrote.
   */
  lemma HeartbeatMakesActive(hashes: map<string, RegistryHash>, serviceType: string, info: ServiceInfo, now: int, t: int, ttl: int)
    requires t - now <= ttl
    ensures var h := HashOf(HSet(hashes, RegistryKey(serviceType), info.id, WellFormed(info.(lastSeen := now))), RegistryKey(serviceType));
      ActiveServices(h, t, ttl)[info.id] == info.(lastSeen := now) && info.id !in StaleIds(h, t, ttl)
  {
  }

  /** A heartbeat or a deregistration of one type leaves every other type's hash as it was. */
  lemma OtherTypesUnaffected(hashes: map<string, RegistryHash>, serviceType: string, other: string, field: string, e: RegistryEntry, fields: set<string>)
    requires other != serviceType
    ensures HashOf(HSet(hashes, RegistryKey(serviceType), field, e), RegistryKey(other)) == HashOf(hashes, RegistryKey(other))
    ensures HashOf(HDel(hashes, RegistryKey(serviceType), fields), RegistryKey(other)) == HashOf(hashes, RegistryKey(other))
  {
    RegistryKeyInjective(serviceType, other);
  }

  /** Deregistration removes exactly this instance's field of its own hash. */
  lemma DeregisterRemovesOwnField(hashes: map<string, RegistryHash>, key: string, id: string)
    ensures HashOf(HDel(hashes, key, {id}), key) == HashOf(hashes, key) - {id}
  {
  }
}
