/**
 * The DynamicDataSourceManager of the oldest `fordevs.dynamicqueryengine`
 * generation: keys built from `databaseManager` and `user`, every pool a
 * PostgreSQL pool, and a failed probe that evicts the pool WITHOUT closing it.
 */
module LegacyConfig {
  import opened Wrappers
  import opened JavaText
  import opened JdbcUrl
  import opened Pools
  import opened DataSourceContext

  /** The request body of a connect; every field may be null. */
  datatype DatabaseCredentials = DatabaseCredentials(
    databaseManager: Option<string>,
    host: Option<string>,
    port: Option<int>,
    databaseName: Option<string>,
    user: Option<string>,
    password: Option<string>)

  /** The six fields as Java's string concatenation renders them, in key order. */
  function KeyFields(c: DatabaseCredentials): (fs: seq<string>)
    ensures |fs| == 6
  {
    [Render(c.databaseManager), Render(c.host), RenderInteger(c.port),
     Render(c.databaseName), Render(c.user), Render(c.password)]
  }

  /** `generateKeyForUserDataSource`: the six fields with "-" between them. */
  function GenerateKeyForUserDataSource(c: DatabaseCredentials): string
  {
    Render(c.databaseManager) + "-" + Render(c.host) + "-" + RenderInteger(c.port) + "-"
      + Render(c.databaseName) + "-" + Render(c.user) + "-" + Render(c.password)
  }

  /** `getKey` delegates to the key derivation. */
  function GetKey(c: DatabaseCredentials): (k: string)
    ensures k == GenerateKeyForUserDataSource(c)
  {
    GenerateKeyForUserDataSource(c)
  }

  /** The key is the separator-join of the rendered fields. */
  lemma KeyJoinsFields(c: DatabaseCredentials)
    ensures GenerateKeyForUserDataSource(c) == Join(KeyFields(c), '-')
  {
    JoinSix(Render(c.databaseManager), Render(c.host), RenderInteger(c.port),
            Render(c.databaseName), Render(c.user), Render(c.password), '-');
  }

  /** When no rendered field holds a '-', cutting the key at each '-' gives the fields back. */
  lemma KeySplitsIntoFields(c: DatabaseCredentials)
    requires forall i :: 0 <= i < 6 ==> '-' !in KeyFields(c)[i]
    ensures Split(GenerateKeyForUserDataSource(c), '-') == KeyFields(c)
  {
    KeyJoinsFields(c);
    SplitJoin(KeyFields(c), '-');
  }

  const PostgresDriver := "org.postgresql.Driver"

  /** `createDataSource`: always the PostgreSQL driver; the user name comes from `user`. */
  function CreateDataSource(c: DatabaseCredentials): (s: PoolSettings)
    ensures s.driverClassName == PostgresDriver
    ensures s.username == c.user && s.password == c.password
  {
    PoolSettings(
      PostgresDriver,
      "jdbc:postgresql://" + Render(c.host) + ":" + RenderInteger(c.port) + "/" + Render(c.databaseName),
      c.user,
      c.password)
  }

  /** The pool URL reads back as a PostgreSQL URL for the host, port and database of the request. */
  lemma DataSourceUrlReadsBack(c: DatabaseCredentials)
    requires ':' !in Render(c.host)
    ensures Parse(CreateDataSource(c).jdbcUrl)
         == Some(UrlParts("postgresql", Render(c.host), RenderInteger(c.port), Render(c.databaseName)))
  {
    var host, port, db := Render(c.host), RenderInteger(c.port), Render(c.databaseName);
    assert CreateDataSource(c).jdbcUrl == Build("postgresql", host, port, db);
    ParseBuild("postgresql", host, port, db);
  }

  class DynamicDataSourceManager {
    /** `dataSourceCache`: key to pooled template. */
    var dataSourceCache: map<string, Handle>
    /** The pools this manager has built. */
    const pools: PoolSet
    /** The session's DataSourceContextService slot. */
    const context: ContextSlot

    /**
     * Every cached pool is open and cached under one key only. Unlike the later
     * generations, an open pool need not be cached: an evicted pool stays open.
     */
    ghost predicate Valid()
      reads this, pools
    {
      && pools.Valid()
      && (forall k :: k in dataSourceCache ==> pools.IsOpen(dataSourceCache[k]))
      && OneKeyPerHandle(dataSourceCache)
    }

    constructor (context: ContextSlot)
      ensures Valid() && fresh(pools)
      ensures this.context == context
      ensures dataSourceCache == map[] && pools.built == [] && pools.closed == {}
    {
      dataSourceCache := map[];
      pools := new PoolSet();
      this.context := context;
    }

    /**
     * `createAndTestConnection`: reuse the cached pool for the key or build one,
     * probe it, and on success install it as the current template; on failure
     * drop the entry and clear the current template, leaving the pool open.
     */
    method CreateAndTestConnection(c: DatabaseCredentials, probeOk: bool) returns (ok: bool)
      requires Valid()
      modifies this, pools, context
      ensures Valid()
      ensures ok == probeOk
      ensures pools.closed == old(pools.closed)
      ensures var key := GenerateKeyForUserDataSource(c);
              var reused := key in old(dataSourceCache);
              var h := if reused then old(dataSourceCache[key]) else old(|pools.built|);
              && pools.built == (if reused then old(pools.built) else old(pools.built) + [CreateDataSource(c)])
              && pools.IsOpen(h)
              && (ok ==> dataSourceCache == old(dataSourceCache)[key := h] && context.current == Some(h))
              && (!ok ==> dataSourceCache == old(dataSourceCache) - {key} && context.current == None)
    {
      var key := GenerateKeyForUserDataSource(c);
      var h: Handle;
      if key in dataSourceCache {
        h := dataSourceCache[key];
      } else {
        h := pools.Build(CreateDataSource(c));
        dataSourceCache := dataSourceCache[key := h];
      }
      ok := TestConnection(probeOk);
      if ok {
        context.SetCurrentTemplate(Some(h));
      } else {
        dataSourceCache := dataSourceCache - {key};
        context.Clear();
      }
    }

    /** `testConnection`: the outcome of `SELECT 1`; a failure also clears the current template. */
    method TestConnection(probeOk: bool) returns (ok: bool)
      modifies context
      ensures ok == probeOk
      ensures context.current == if probeOk then old(context.current) else None
    {
      if probeOk {
        ok := true;
      } else {
        context.Clear();
        ok := false;
      }
    }

    /** `getJdbcTemplateForDb`: the cached template, or else the current one (possibly null). */
    method GetJdbcTemplateForDb(key: string) returns (t: Option<Handle>)
      ensures key in dataSourceCache ==> t == Some(dataSourceCache[key])
      ensures key !in dataSourceCache ==> t == context.current
    {
      if key in dataSourceCache {
        t := Some(dataSourceCache[key]);
      } else {
        t := context.GetCurrentTemplate();
      }
    }
  }

  /**
   * Two failed connects with the same credentials: each builds a pool, neither
   * pool is cached afterwards and neither is ever closed.
   */
  method FailedConnectsLeakPools(c: DatabaseCredentials)
    returns (first: bool, second: bool, poolsBuilt: nat, openPools: set<Handle>, entries: nat)
    ensures !first && !second
    ensures poolsBuilt == 2 && openPools == {0, 1} && entries == 0
  {
    var slot := new ContextSlot();
    var manager := new DynamicDataSourceManager(slot);
    first := manager.CreateAndTestConnection(c, false);
    second := manager.CreateAndTestConnection(c, false);
    poolsBuilt := |manager.pools.built|;
    openPools := set h | 0 <= h < poolsBuilt && h !in manager.pools.closed;
    entries := |manager.dataSourceCache|;
  }
}
