/**
 * Connection pools as the registries see them: each `new HikariDataSource(config)`
 * builds a pool identified by its position in the order of construction, and
 * `close()` marks it closed. No connection is ever opened here.
 */
module Pools {
  import opened Wrappers

  /** A pooled JdbcTemplate: the index of the pool it wraps. */
  type Handle = nat

  /** What `createDataSource` writes into the HikariConfig. */
  datatype PoolSettings = PoolSettings(
    driverClassName: string,
    jdbcUrl: string,
    username: Option<string>,
    password: Option<string>)

  class PoolSet {
    /** The settings of every pool built so far; pool `h` was built with `built[h]`. */
    var built: seq<PoolSettings>
    /** The pools on which `close()` has been called. */
    var closed: set<Handle>

    ghost predicate Valid()
      reads this
    {
      forall h :: h in closed ==> h < |built|
    }

    /** A pool that was built and is not closed. */
    ghost predicate IsOpen(h: Handle)
      reads this
    {
      h < |built| && h !in closed
    }

    constructor ()
      ensures Valid()
      ensures built == [] && closed == {}
    {
      built := [];
      closed := {};
    }

    /** `new HikariDataSource(config)`: a new, open pool. */
    method Build(settings: PoolSettings) returns (h: Handle)
      requires Valid()
      modifies this
      ensures Valid()
      ensures h == old(|built|) && built == old(built) + [settings] && closed == old(closed)
      ensures IsOpen(h)
    {
      h := |built|;
      built := built + [settings];
    }

    /** `HikariDataSource.close()`; closing a closed pool does nothing more. */
    method Close(h: Handle)
      requires Valid() && h < |built|
      modifies this
      ensures Valid()
      ensures built == old(built) && closed == old(closed) + {h}
    {
      closed := closed + {h};
    }
  }

  /** No handle is cached under two keys. */
  ghost predicate OneKeyPerHandle(cache: map<string, Handle>)
  {
    forall k1, k2 :: k1 in cache && k2 in cache && cache[k1] == cache[k2] ==> k1 == k2
  }

  /** Caching a handle under a new key adds exactly that handle to the cached ones. */
  lemma CachedAfterInsert(cache: map<string, Handle>, key: string, h: Handle)
    requires key !in cache
    ensures cache[key := h].Values == cache.Values + {h}
  {
    var after := cache[key := h];
    forall v | v in cache.Values ensures v in after.Values {
      var k :| k in cache && cache[k] == v;
      assert after[k] == v;
    }
    assert after[key] == h;
  }

  /** Evicting a key removes exactly its handle from the cached ones, when no handle has two keys. */
  lemma CachedAfterRemove(cache: map<string, Handle>, key: string)
    requires OneKeyPerHandle(cache)
    ensures (cache - {key}).Values == if key in cache then cache.Values - {cache[key]} else cache.Values
  {
    var after := cache - {key};
    forall v | v in cache.Values && (key !in cache || v != cache[key]) ensures v in after.Values {
      var k :| k in cache && cache[k] == v;
      assert k != key;
      assert after[k] == v;
    }
  }
}
