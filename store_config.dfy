/** Per-shop store settings behind a time-limited cache (StoreConfigCache.ts,
    StoreConfigModule.ts). The clock is an input: every operation that reads
    `Date.now()` takes `now`, in milliseconds. */
module StoreConfigs {
  import opened Results

  /** An instant in milliseconds. */
  type Time = int

  /** `StoreConfig`, as the admin page saves it. */
  datatype StoreConfig = StoreConfig(id: string, shop: string, taxesIncluded: bool, createdAt: Time, updatedAt: Time)

  /** A cached config and when it was cached. */
  datatype CacheEntry = CacheEntry(config: StoreConfig, timestamp: Time)

  /** The module's cache lifetime, in minutes. */
  const TimeoutMinutes: int := 5

  /** What the cache serves for `shop` at `now`: its entry's config unless
      the entry is older than the timeout. */
  function Lookup(cache: map<string, CacheEntry>, shop: string, now: Time, timeoutMs: int): (c: Option<StoreConfig>)
    ensures c.Some? <==> shop in cache && now - cache[shop].timestamp <= timeoutMs
    ensures c.Some? ==> c.value == cache[shop].config
  {
    if shop in cache && now - cache[shop].timestamp <= timeoutMs then Some(cache[shop].config) else None
  }

  /** A config cached at `now` is served for its shop until the timeout has
      passed, and not after. */
  lemma LookupAfterSet(cache: map<string, CacheEntry>, config: StoreConfig, now: Time, later: Time, timeoutMs: int)
    requires now <= later
    ensures Lookup(cache[config.shop := CacheEntry(config, now)], config.shop, later, timeoutMs)
      == if later <= now + timeoutMs then Some(config) else None
  {
  }

  /** After its entry is dropped a shop is a miss. */
  lemma LookupAfterInvalidate(cache: map<string, CacheEntry>, shop: string, now: Time, timeoutMs: int)
    ensures Lookup(cache - {shop}, shop, now, timeoutMs) == None
  {
  }

  /** Caching or dropping one shop's entry changes nothing for another shop. */
  lemma LookupOtherShop(cache: map<string, CacheEntry>, shop: string, entry: CacheEntry, other: string, now: Time, timeoutMs: int)
    requires other != shop
    ensures Lookup(cache[shop := entry], other, now, timeoutMs) == Lookup(cache, other, now, timeoutMs)
    ensures Lookup(cache - {shop}, other, now, timeoutMs) == Lookup(cache, other, now, timeoutMs)
  {
  }

  /** Every entry sits under its own config's shop. */
  ghost predicate KeyedByShop(cache: map<string, CacheEntry>) {
    forall shop :: shop in cache ==> cache[shop].config.shop == shop
  }

  /** `StoreConfigCache`. */
  class StoreConfigCache {
    var cache: map<string, CacheEntry>
    const timeoutMs: int

    ghost predicate Valid()
      reads this
    {
      KeyedByShop(cache)
    }

    constructor (timeoutMinutes: int)
      ensures Valid() && cache == map[] && timeoutMs == timeoutMinutes * 60 * 1000
    {
      cache := map[];
      timeoutMs := timeoutMinutes * 60 * 1000;
    }

    /** `get`: the shop's config while it is fresh; an expired entry is
        dropped. */
    method Get(shop: string, now: Time) returns (c: Option<StoreConfig>)
      requires Valid()
      modifies this
      ensures Valid()
      ensures c == Lookup(old(cache), shop, now, timeoutMs)
      ensures c.Some? ==> c.value.shop == shop && cache == old(cache)
      ensures c.None? ==> cache == old(cache) - {shop}
    {
      if shop !in cache {
        return None;
      }
      var entry := cache[shop];
      if now - entry.timestamp > timeoutMs {
        cache := cache - {shop};
        return None;
      }
      c := Some(entry.config);
    }

    /** `set`: caches the config under its shop, stamped `now`. */
    method Set(config: StoreConfig, now: Time)
      requires Valid()
      modifies this
      ensures Valid()
      ensures cache == old(cache)[config.shop := CacheEntry(config, now)]
    {
      cache := cache[config.shop := CacheEntry(config, now)];
    }

    /** `invalidate`. */
    method Invalidate(shop: string)
      requires Valid()
      modifies this
      ensures Valid()
      ensures cache == old(cache) - {shop}
    {
      cache := cache - {shop};
    }

    /** `clear`. */
    method Clear()
      modifies this
      ensures Valid() && cache == map[]
    {
      cache := map[];
    }
  }

  /** The first config of a shop, the answer of the shop query. */
  function FirstOfShop(configs: seq<StoreConfig>, shop: string): (c: Option<StoreConfig>)
    ensures c.Some? ==> c.value in configs && c.value.shop == shop
    ensures c.None? <==> forall d :: d in configs ==> d.shop != shop
  {
    if configs == [] then None
    else if configs[0].shop == shop then Some(configs[0])
    else FirstOfShop(configs[1..], shop)
  }

  /** Where the config with id `id` is, `|configs|` when there is none. */
  function ConfigIndex(configs: seq<StoreConfig>, id: string): (i: nat)
    ensures i <= |configs|
    ensures i < |configs| ==> configs[i].id == id
    ensures forall j :: 0 <= j < i ==> configs[j].id != id
  {
    if configs == [] then 0
    else if configs[0].id == id then 0
    else 1 + ConfigIndex(configs[1..], id)
  }

  /** The container's upsert by id: the config with the same id is replaced
      in place, otherwise the config is appended. */
  function UpsertById(configs: seq<StoreConfig>, config: StoreConfig): (rs: seq<StoreConfig>)
    ensures config in rs
    ensures forall d :: d in rs ==> d == config || d in configs
    ensures forall d :: d in configs && d.id != config.id ==> d in rs
  {
    var i := ConfigIndex(configs, config.id);
    var rs := if i < |configs| then configs[i := config] else configs + [config];
    assert rs[if i < |configs| then i else |configs|] == config;
    assert forall j :: 0 <= j < |configs| && configs[j].id != config.id ==> rs[j] == configs[j];
    rs
  }

  /** Whether another document already holds the shop, which the unique key
      on the shop declared for the container forbids. */
  predicate ShopTaken(configs: seq<StoreConfig>, config: StoreConfig) {
    exists d :: d in configs && d.shop == config.shop && d.id != config.id
  }

  /** No two stored configs share an id or a shop. */
  predicate KeysUnique(configs: seq<StoreConfig>) {
    forall i, j :: 0 <= i < j < |configs| ==> configs[i].id != configs[j].id && configs[i].shop != configs[j].shop
  }

  /** Every stored config uses its shop as its id, as the admin page saves them. */
  predicate IdIsShop(configs: seq<StoreConfig>) {
    forall d :: d in configs ==> d.id == d.shop
  }

  /** A save from the admin page, whose configs all use the shop as the id,
      is never refused by the shop's unique key. */
  lemma ShopIdSaveNeverTaken(configs: seq<StoreConfig>, config: StoreConfig)
    requires IdIsShop(configs) && config.id == config.shop
    ensures !ShopTaken(configs, config)
    ensures IdIsShop(UpsertById(configs, config))
  {
  }

  /** As written, the container has no unique key on the shop: saving a
      second config for a shop under another id keeps both, and the shop
      query goes on answering with the first one. */
  lemma UnkeyedSaveDuplicatesShop(a: StoreConfig, b: StoreConfig)
    requires a.shop == b.shop && a.id != b.id
    ensures UpsertById(UpsertById([], a), b) == [a, b]
    ensures !KeysUnique(UpsertById(UpsertById([], a), b))
    ensures FirstOfShop(UpsertById(UpsertById([], a), b), b.shop) == Some(a)
  {
    assert UpsertById([], a) == [a];
    assert ConfigIndex([a], b.id) == 1 by {
      assert ConfigIndex([a][1..], b.id) == 0;
    }
  }

  /** With the shop's unique key, a save that is not refused keeps ids and
      shops unique, and the shop query then answers with the saved config. */
  lemma KeyedSaveKeepsKeysUnique(configs: seq<StoreConfig>, config: StoreConfig)
    requires KeysUnique(configs) && !ShopTaken(configs, config)
    ensures KeysUnique(UpsertById(configs, config))
    ensures FirstOfShop(UpsertById(configs, config), config.shop) == Some(config)
  {
    var rs := UpsertById(configs, config);
    var i := ConfigIndex(configs, config.id);
    forall a, b | 0 <= a < b < |rs|
      ensures rs[a].id != rs[b].id && rs[a].shop != rs[b].shop
    {
      if i < |configs| {
        if a == i {
          assert configs[b].id != configs[i].id && configs[b] in configs;
        } else if b == i {
          assert configs[a].id != configs[i].id && configs[a] in configs;
        }
      } else if b == |configs| {
        assert configs[a] in configs;
      }
    }
    var c := FirstOfShop(rs, config.shop);
    var k :| 0 <= k < |rs| && rs[k] == c.value;
    var m :| 0 <= m < |rs| && rs[m] == config;
    assert k == m;
  }

  /** The StoreConfig container (CosmosStoreConfigRepository.ts), in query
      order. */
  class ConfigStore {
    var configs: seq<StoreConfig>

    constructor ()
      ensures configs == []
    {
      configs := [];
    }

    /** `findByShop`. */
    method FindByShop(shop: string) returns (c: Option<StoreConfig>)
      ensures c == FirstOfShop(configs, shop)
    {
      c := FirstOfShop(configs, shop);
    }

    /** `save`, an upsert by id; one that would give a second document the
        same shop is refused. */
    method Save(config: StoreConfig) returns (ok: bool)
      modifies this
      ensures ok <==> !ShopTaken(old(configs), config)
      ensures !ok ==> configs == old(configs)
      ensures ok ==> configs == UpsertById(old(configs), config)
      ensures ok ==> config in configs
    {
      if exists d :: d in configs && d.shop == config.shop && d.id != config.id {
        return false;
      }
      configs := UpsertById(configs, config);
      ok := true;
    }
  }

  /** `StoreConfigModule`: a read-through, write-through cache in front of
      the container. */
  class StoreConfigModule {
    const cache: StoreConfigCache
    const repository: ConfigStore

    ghost predicate Valid()
      reads this, cache
    {
      cache.Valid() && cache.timeoutMs == TimeoutMinutes * 60 * 1000
    }

    constructor (repository: ConfigStore)
      ensures Valid() && fresh(cache) && cache.cache == map[] && this.repository == repository
    {
      this.repository := repository;
      cache := new StoreConfigCache(TimeoutMinutes);
    }

    /** `getStoreConfig`: a fresh cached config without asking the container;
        otherwise the container's answer, cached when there is one. */
    method GetStoreConfig(shop: string, now: Time) returns (c: Option<StoreConfig>)
      requires Valid()
      modifies cache
      ensures Valid()
      ensures var hit := Lookup(old(cache.cache), shop, now, cache.timeoutMs);
        hit.Some? ==> c == hit && cache.cache == old(cache.cache)
      ensures var hit := Lookup(old(cache.cache), shop, now, cache.timeoutMs);
        hit.None? ==>
          && c == FirstOfShop(repository.configs, shop)
          && cache.cache == if c.Some? then old(cache.cache)[shop := CacheEntry(c.value, now)]
                            else old(cache.cache) - {shop}
    {
      var cachedConfig := cache.Get(shop, now);
      if cachedConfig.Some? {
        return cachedConfig;
      }
      c := repository.FindByShop(shop);
      if c.Some? {
        cache.Set(c.value, now);
      }
    }

    /** `saveStoreConfig`: the container first, then the cache; a refused
        save leaves the cache as it was. */
    method SaveStoreConfig(config: StoreConfig, now: Time) returns (ok: bool)
      requires Valid()
      modifies repository, cache
      ensures Valid()
      ensures ok <==> !ShopTaken(old(repository.configs), config)
      ensures !ok ==> repository.configs == old(repository.configs) && cache.cache == old(cache.cache)
      ensures ok ==>
        && config in repository.configs
        && cache.cache == old(cache.cache)[config.shop := CacheEntry(config, now)]
      ensures ok ==> repository.configs == UpsertById(old(repository.configs), config)
    {
      ok := repository.Save(config);
      if !ok {
        return;
      }
      cache.Set(config, now);
    }

    /** `invalidateCache`. */
    method InvalidateCache(shop: string)
      requires Valid()
      modifies cache
      ensures Valid()
      ensures cache.cache == old(cache.cache) - {shop}
    {
      cache.Invalidate(shop);
    }
  }
}
