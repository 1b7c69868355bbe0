/**
 * The DynamicDataSourceManager of the `com.fordevs.dynamicqueryengine` generation:
 * keys built from `databaseManager`, every pool a PostgreSQL pool, and a failed
 * probe that evicts and closes the pool.
 */
module EngineConfig {
  import opened Wrappers
  import opened JavaText
  import opened JdbcUrl
  import opened Pools
  import opened DataSourceContext

  /** The request body of a connect; every field may be null. */
  datatype DatabaseCredentials = DatabaseCredentials(
    databaseManager: Option<string>,
    host: Option<string>,
    port: Option<int>,
    databaseName: Option<string>,
    userName: Option<string>,
    password: Option<string>)

  /** The six fields as Java's string concatenation renders them, in key order. */
  function KeyFields(c: DatabaseCredentials): (fs: seq<string>)
    ensures |fs| == 6
  {
    [Render(c.databaseManager), Render(c.host), RenderInteger(c.port),
     Render(c.databaseName), Render(c.userName), Render(c.password)]
  }

  /** `generateKeyForUserDataSource`: the six fields with "-" between them. */
  function GenerateKeyForUserDataSource(c: DatabaseCredentials): string
  {
    Render(c.databaseManager) + "-" + Render(c.host) + "-" + RenderInteger(c.port) + "-"
      + Render(c.databaseName) + "-" + Render(c.userName) + "-" + Render(c.password)
  }

  /** `getKey`: the public face of the key derivation. */
  function GetKey(c: DatabaseCredentials): (k: string)
    ensures k == GenerateKeyForUserDataSource(c)
  {
    GenerateKeyForUserDataSource(c)
  }

  /** The key is the separator-join of the rendered fields. */
  lemma KeyJoinsFields(c: DatabaseCredentials)
    ensures GenerateKeyForUserDataSource(c) == Join(KeyFields(c), '-')
  {
    JoinSix(Render(c.databaseManager), Render(c.host), RenderInteger(c.port),
            Render(c.databaseName), Render(c.userName), Render(c.password), '-');
  }

  /** When no rendered field holds a '-', cutting the key at each '-' gives the fields back. */
  lemma KeySplitsIntoFields(c: DatabaseCredentials)
    requires forall i :: 0 <= i < 6 ==> '-' !in KeyFields(c)[i]
    ensures Split(GenerateKeyForUserDataSource(c), '-') == KeyFields(c)
  {
    KeyJoinsFields(c);
    SplitJoin(KeyFields(c), '-');
  }

  /** The key is not injective: a '-' inside a field can move to the next one. */
  lemma KeyCollision()
    ensures exists c1, c2 :: c1 != c2 && GenerateKeyForUserDataSource(c1) == GenerateKeyForUserDataSource(c2)
  {
    var c1 := DatabaseCredentials(Some("postgresql"), Some("db1"), Some(5432), Some("orders"), Some("a-b"), Some("c"));
    var c2 := c1.(userName := Some("a"), password := Some("b-c"));
    assert c1.userName != c2.userName;
    assert GenerateKeyForUserDataSource(c1) == GenerateKeyForUserDataSource(c2);
  }

  const PostgresDriver := "org.postgresql.Driver"

  /** `createDataSource`: always the PostgreSQL driver, whatever `databaseManager` says. */
  function CreateDataSource(c: DatabaseCredentials): (s: PoolSettings)
    ensures s.driverClassName == PostgresDriver
    ensures s.username == c.userName && s.password == c.password
  {
    PoolSettings(
      PostgresDriver,
      "jdbc:postgresql://" + Render(c.host) + ":" + RenderInteger(c.port) + "/" + Render(c.databaseName),
      c.userName,
      c.password)
  }

  /** The pool URL reads back as a PostgreSQL URL for the host, port and database of the request. */
  lemma DataSourceUrlReadsBack(c: DatabaseCredentials)
    requires ':' !in Render(c.host)
    ensures Parse(CreateDataSource(c).jdbcUrl)
         == Some(UrlParts("postgresql", Render(c.host), RenderInteger(c.port), Render(c.databaseName)))
  {
    var host, port, db := Render(c.host), RenderInteger(c.port), Render(c.databaseName);
    assert CreateDataSource(c).jdbcUrl == Build("postgresql", host, port, db);
    ParseBuild("postgresql", host, port, db);
  }

  class DynamicDataSourceManager {
    /** `dataSourceCache`: key to pooled template. */
    var dataSourceCache: map<string, Handle>
    /** The pools this manager has built. */
    const pools: PoolSet
    /** The session's DataSourceContextService slot. */
    const context: ContextSlot

    /**
     * Every cached pool is open and cached under one key only, and every open
     * pool is cached: a pool leaves the cache only by being closed.
     */
    ghost predicate Valid()
      reads this, pools
    {
      && pools.Valid()
      && (forall k :: k in dataSourceCache ==> pools.IsOpen(dataSourceCache[k]))
      && OneKeyPerHandle(dataSourceCache)
      && (forall h :: pools.IsOpen(h) ==> h in dataSourceCache.Values)
    }

    constructor (context: ContextSlot)
      ensures Valid() && fresh(pools)
      ensures this.context == context
      ensures dataSourceCache == map[] && pools.built == [] && pools.closed == {}
    {
      dataSourceCache := map[];
      pools := new PoolSet();
      this.context := context;
    }

    /**
     * `createAndTestConnection`: reuse the cached pool for the key or build one,
     * probe it, and on success install it as the current template; on failure
     * evict and close it and clear the current template.
     */
    method CreateAndTestConnection(c: DatabaseCredentials, probeOk: bool) returns (ok: bool)
      requires Valid()
      modifies this, pools, context
      ensures Valid()
      ensures ok == probeOk
      ensures var key := GenerateKeyForUserDataSource(c);
              var reused := key in old(dataSourceCache);
              var h := if reused then old(dataSourceCache[key]) else old(|pools.built|);
              && pools.built == (if reused then old(pools.built) else old(pools.built) + [CreateDataSource(c)])
              && (ok ==> dataSourceCache == old(dataSourceCache)[key := h]
                         && context.current == Some(h) && pools.closed == old(pools.closed))
              && (!ok ==> dataSourceCache == old(dataSourceCache) - {key}
                          && context.current == None && pools.closed == old(pools.closed) + {h})
    {
      var key := GenerateKeyForUserDataSource(c);
      var h: Handle;
      if key in dataSourceCache {
        h := dataSourceCache[key];
      } else {
        CachedAfterInsert(dataSourceCache, key, |pools.built|);
        h := pools.Build(CreateDataSource(c));
        dataSourceCache := dataSourceCache[key := h];
      }
      ok := TestConnection(probeOk);
      if ok {
        context.SetCurrentTemplate(Some(h));
      } else {
        CloseDataSource(key);
      }
    }

    /** `testConnection`: the outcome of `SELECT 1`; a failure also clears the current template. */
    method TestConnection(probeOk: bool) returns (ok: bool)
      modifies context
      ensures ok == probeOk
      ensures context.current == if probeOk then old(context.current) else None
    {
      if probeOk {
        ok := true;
      } else {
        context.Clear();
        ok := false;
      }
    }

    /** `getJdbcTemplateForDb`: the cached template, or else the current one (possibly null). */
    method GetJdbcTemplateForDb(key: string) returns (t: Option<Handle>)
      ensures key in dataSourceCache ==> t == Some(dataSourceCache[key])
      ensures key !in dataSourceCache ==> t == context.current
    {
      if key in dataSourceCache {
        t := Some(dataSourceCache[key]);
      } else {
        t := context.GetCurrentTemplate();
      }
    }

    /** `closeDataSource`: remove the entry, clear the current template, close the removed pool. */
    method CloseDataSource(key: string)
      requires Valid()
      modifies this, pools, context
      ensures Valid()
      ensures dataSourceCache == old(dataSourceCache) - {key}
      ensures context.current == None
      ensures pools.built == old(pools.built)
      ensures pools.closed == if key in old(dataSourceCache) then old(pools.closed) + {old(dataSourceCache[key])} else old(pools.closed)
    {
      var removed: Option<Handle> := if key in dataSourceCache then Some(dataSourceCache[key]) else None;
      CachedAfterRemove(dataSourceCache, key);
      dataSourceCache := dataSourceCache - {key};
      context.Clear();
      if removed.Some? {
        pools.Close(removed.value);
      }
    }
  }
}
