/**
 * The DynamicDataSourceManager of the `com.fordevs.querybridge` generation: keys
 * built from `databaseType`, the driver chosen from a seven-entry table by the
 * lower-cased type, and a failed probe that evicts and closes the pool.
 */
module QueryBridgeConfig {
  import opened Wrappers
  import opened JavaText
  import opened JdbcUrl
  import opened Pools
  import opened DataSourceContext

  /** The credentials of a connect request; the port is a primitive `int`. */
  datatype DatabaseCredentials = DatabaseCredentials(
    databaseType: Option<string>,
    host: Option<string>,
    port: int,
    databaseName: Option<string>,
    userName: Option<string>,
    password: Option<string>)

  /** Why `createDataSource` throws before any pool is built. */
  datatype ConfigError =
    | NullDatabaseType                          // `getDatabaseType().toLowerCase()` on null
    | UnsupportedDatabaseType(message: string)  // the IllegalArgumentException

  /** `DRIVER_MAP`: lower-case database type to JDBC driver class. */
  const DriverMap: map<string, string> := map[
    "postgresql" := "org.postgresql.Driver",
    "mysql" := "com.mysql.cj.jdbc.Driver",
    "mariadb" := "org.mariadb.jdbc.Driver",
    "sqlserver" := "com.microsoft.sqlserver.jdbc.SQLServerDriver",
    "oracle" := "oracle.jdbc.OracleDriver",
    "db2" := "com.ibm.db2.jcc.DB2Driver",
    "mongodb" := "mongodb.jdbc.MongoDriver"]

  /** The six fields as Java's string concatenation renders them, in key order. */
  function KeyFields(c: DatabaseCredentials): (fs: seq<string>)
    ensures |fs| == 6
  {
    [Render(c.databaseType), Render(c.host), IntToString(c.port),
     Render(c.databaseName), Render(c.userName), Render(c.password)]
  }

  /** `generateKeyForUserDataSource`: the six fields with "-" between them. */
  function GenerateKeyForUserDataSource(c: DatabaseCredentials): string
  {
    Render(c.databaseType) + "-" + Render(c.host) + "-" + IntToString(c.port) + "-"
      + Render(c.databaseName) + "-" + Render(c.userName) + "-" + Render(c.password)
  }

  /** `getKey`: the public face of the key derivation. */
  function GetKey(c: DatabaseCredentials): (k: string)
    ensures k == GenerateKeyForUserDataSource(c)
  {
    GenerateKeyForUserDataSource(c)
  }

  /** The key is the separator-join of the rendered fields. */
  lemma KeyJoinsFields(c: DatabaseCredentials)
    ensures GenerateKeyForUserDataSource(c) == Join(KeyFields(c), '-')
  {
    JoinSix(Render(c.databaseType), Render(c.host), IntToString(c.port),
            Render(c.databaseName), Render(c.userName), Render(c.password), '-');
  }

  /** When no rendered field holds a '-', cutting the key at each '-' gives the fields back. */
  lemma KeySplitsIntoFields(c: DatabaseCredentials)
    requires forall i :: 0 <= i < 6 ==> '-' !in KeyFields(c)[i]
    ensures Split(GenerateKeyForUserDataSource(c), '-') == KeyFields(c)
  {
    KeyJoinsFields(c);
    SplitJoin(KeyFields(c), '-');
  }

  /** The key is not injective: a '-' inside a field can move to the next one. */
  lemma KeyCollision()
    ensures exists c1, c2 :: c1 != c2 && GenerateKeyForUserDataSource(c1) == GenerateKeyForUserDataSource(c2)
  {
    var c1 := DatabaseCredentials(Some("postgresql"), Some("db1"), 5432, Some("orders"), Some("a-b"), Some("c"));
    var c2 := c1.(userName := Some("a"), password := Some("b-c"));
    assert c1.userName != c2.userName;
    assert GenerateKeyForUserDataSource(c1) == GenerateKeyForUserDataSource(c2);
  }

  /** The driver for a database type, looked up by its lower-cased spelling. */
  function DriverFor(databaseType: string): (d: Option<string>)
    ensures d.Some? <==> ToLower(databaseType) in DriverMap
    ensures d.Some? ==> d.value == DriverMap[ToLower(databaseType)]
  {
    var lower := ToLower(databaseType);
    if lower in DriverMap then Some(DriverMap[lower]) else None
  }

  /** Spellings that differ only in ASCII case select the same driver. */
  lemma DriverForIgnoresCase(a: string, b: string)
    requires ToLower(a) == ToLower(b)
    ensures DriverFor(a) == DriverFor(b)
  {
  }

  /** A type and its lower-cased form select the same driver. */
  lemma DriverForLowered(databaseType: string)
    ensures DriverFor(ToLower(databaseType)) == DriverFor(databaseType)
  {
    ToLowerIdempotent(databaseType);
  }

  /** The table is reached through lower-casing: "PostgreSQL" selects the PostgreSQL driver. */
  lemma MixedCaseTypeIsSupported()
    ensures DriverFor("PostgreSQL") == Some("org.postgresql.Driver")
  {
    assert ToLower("PostgreSQL") == "postgresql";
  }

  /** A type missing from the table has no driver. */
  lemma SqliteIsUnsupported()
    ensures DriverFor("sqlite") == None
  {
    assert ToLower("sqlite") == "sqlite";
  }

  /**
   * `createDataSource`: the pool configuration, or the error thrown before the
   * pool is built. The URL keeps the type as given; only the lookup lower-cases it.
   */
  function CreateDataSource(c: DatabaseCredentials): (r: Result<PoolSettings, ConfigError>)
    ensures r.Success? <==> c.databaseType.Some? && DriverFor(c.databaseType.value).Some?
    ensures r.Success? ==> r.value.driverClassName == DriverMap[ToLower(c.databaseType.value)]
    ensures r.Success? ==> r.value.username == c.userName && r.value.password == c.password
    ensures c.databaseType.None? ==> r == Failure(NullDatabaseType)
    ensures c.databaseType.Some? && r.Failure? ==>
              r.error == UnsupportedDatabaseType("Unsupported database type: " + c.databaseType.value)
  {
    match c.databaseType
    case None => Failure(NullDatabaseType)
    case Some(t) =>
      match DriverFor(t)
      case None => Failure(UnsupportedDatabaseType("Unsupported database type: " + t))
      case Some(driver) =>
        Success(PoolSettings(
          driver,
          "jdbc:" + t + "://" + Render(c.host) + ":" + IntToString(c.port) + "/" + Render(c.databaseName),
          c.userName,
          c.password))
  }

  /** The pool URL reads back as the type (case kept), host, port and database of the request. */
  lemma DataSourceUrlReadsBack(c: DatabaseCredentials)
    requires CreateDataSource(c).Success?
    requires ':' !in c.databaseType.value && ':' !in Render(c.host)
    ensures Parse(CreateDataSource(c).value.jdbcUrl)
         == Some(UrlParts(c.databaseType.value, Render(c.host), IntToString(c.port), Render(c.databaseName)))
  {
    var t, host, port, db := c.databaseType.value, Render(c.host), IntToString(c.port), Render(c.databaseName);
    assert CreateDataSource(c).value.jdbcUrl == Build(t, host, port, db);
    ParseBuild(t, host, port, db);
  }

  class DynamicDataSourceManager {
    /** `dataSourceCache`: key to pooled template. */
    var dataSourceCache: map<string, Handle>
    /** The pools this manager has built. */
    const pools: PoolSet
    /** The session's DataSourceContextService slot. */
    const context: ContextSlot

    /**
     * Every cached pool is open and cached under one key only, and every open
     * pool is cached: a pool leaves the cache only by being closed.
     */
    ghost predicate Valid()
      reads this, pools
    {
      && pools.Valid()
      && (forall k :: k in dataSourceCache ==> pools.IsOpen(dataSourceCache[k]))
      && OneKeyPerHandle(dataSourceCache)
      && (forall h :: pools.IsOpen(h) ==> h in dataSourceCache.Values)
    }

    constructor (context: ContextSlot)
      ensures Valid() && fresh(pools)
      ensures this.context == context
      ensures dataSourceCache == map[] && pools.built == [] && pools.closed == {}
    {
      dataSourceCache := map[];
      pools := new PoolSet();
      this.context := context;
    }

    /**
     * `createAndTestConnection`: reuse the cached pool for the key or build one
     * (which throws for a null or unsupported type, leaving everything as it
     * was), probe it, and on success install it as the current template; on
     * failure evict and close it and clear the current template.
     */
    method CreateAndTestConnection(c: DatabaseCredentials, probeOk: bool) returns (r: Result<bool, ConfigError>)
      requires Valid()
      modifies this, pools, context
      ensures Valid()
      ensures var key := GenerateKeyForUserDataSource(c);
              var reused := key in old(dataSourceCache);
              var h := if reused then old(dataSourceCache[key]) else old(|pools.built|);
              if !reused && CreateDataSource(c).Failure? then
                && r == Failure(CreateDataSource(c).error)
                && dataSourceCache == old(dataSourceCache) && context.current == old(context.current)
                && pools.built == old(pools.built) && pools.closed == old(pools.closed)
              else
                && r == Success(probeOk)
                && pools.built == (if reused then old(pools.built) else old(pools.built) + [CreateDataSource(c).value])
                && (probeOk ==> dataSourceCache == old(dataSourceCache)[key := h]
                                && context.current == Some(h) && pools.closed == old(pools.closed))
                && (!probeOk ==> dataSourceCache == old(dataSourceCache) - {key}
                                 && context.current == None && pools.closed == old(pools.closed) + {h})
    {
      var key := GenerateKeyForUserDataSource(c);
      var h: Handle;
      if key in dataSourceCache {
        h := dataSourceCache[key];
      } else {
        var settings := CreateDataSource(c);
        if settings.Failure? {
          return Failure(settings.error);
        }
        CachedAfterInsert(dataSourceCache, key, |pools.built|);
        h := pools.Build(settings.value);
        dataSourceCache := dataSourceCache[key := h];
      }
      var ok := TestConnection(probeOk);
      if ok {
        context.SetCurrentTemplate(Some(h));
      } else {
        CloseDataSource(key);
      }
      r := Success(ok);
    }

    /** `testConnection`: the outcome of `SELECT 1`; a failure also clears the current template. */
    method TestConnection(probeOk: bool) returns (ok: bool)
      modifies context
      ensures ok == probeOk
      ensures context.current == if probeOk then old(context.current) else None
    {
      if probeOk {
        ok := true;
      } else {
        context.Clear();
        ok := false;
      }
    }

    /** `getJdbcTemplateForDb`: the cached template, or else the current one (possibly null). */
    method GetJdbcTemplateForDb(key: string) returns (t: Option<Handle>)
      ensures key in dataSourceCache ==> t == Some(dataSourceCache[key])
      ensures key !in dataSourceCache ==> t == context.current
    {
      if key in dataSourceCache {
        t := Some(dataSourceCache[key]);
      } else {
        t := context.GetCurrentTemplate();
      }
    }

    /** `closeDataSource`: remove the entry, clear the current template, close the removed pool. */
    method CloseDataSource(key: string)
      requires Valid()
      modifies this, pools, context
      ensures Valid()
      ensures dataSourceCache == old(dataSourceCache) - {key}
      ensures context.current == None
      ensures pools.built == old(pools.built)
      ensures pools.closed == if key in old(dataSourceCache) then old(pools.closed) + {old(dataSourceCache[key])} else old(pools.closed)
    {
      var removed: Option<Handle> := if key in dataSourceCache then Some(dataSourceCache[key]) else None;
      CachedAfterRemove(dataSourceCache, key);
      dataSourceCache := dataSourceCache - {key};
      context.Clear();
      if removed.Some? {
        pools.Close(removed.value);
      }
    }
  }

  /**
   * A first session: connect to a reachable PostgreSQL database, then connect
   * again with the same credentials.
   */
  method ReconnectScenario()
    returns (key: string, first: Result<bool, ConfigError>, second: Result<bool, ConfigError>,
             poolsBuilt: nat, entries: nat, current: Option<Handle>)
    ensures key == "postgresql-db1-5432-orders-a-p"
    ensures first == Success(true) && second == Success(true)
    ensures poolsBuilt == 1 && entries == 1 && current == Some(0)
  {
    var slot := new ContextSlot();
    var manager := new DynamicDataSourceManager(slot);
    var c := ScenarioCredentials;
    ScenarioKey();
    PostgresqlIsSupported();
    key := GetKey(c);
    first := manager.CreateAndTestConnection(c, true);
    assert manager.dataSourceCache == map[key := 0] && |manager.pools.built| == 1;
    second := manager.CreateAndTestConnection(c, true);
    poolsBuilt := |manager.pools.built|;
    entries := |manager.dataSourceCache|;
    current := slot.GetCurrentTemplate();
  }

  /**
   * After that connect, a request for an unsupported type is a configuration
   * error that leaves the cache and the current template as they were.
   */
  method UnsupportedTypeScenario()
    returns (unsupported: Result<bool, ConfigError>, entries: nat, current: Option<Handle>)
    ensures unsupported == Failure(UnsupportedDatabaseType("Unsupported database type: sqlite"))
    ensures entries == 1 && current == Some(0)
  {
    var slot := new ContextSlot();
    var manager := new DynamicDataSourceManager(slot);
    var c := ScenarioCredentials;
    PostgresqlIsSupported();
    var first := manager.CreateAndTestConnection(c, true);
    var key := GetKey(c);
    assert manager.dataSourceCache == map[key := 0];
    var bad := c.(databaseType := Some("sqlite"));
    UnsupportedScenarioFacts(bad);
    unsupported := manager.CreateAndTestConnection(bad, true);
    entries := |manager.dataSourceCache|;
    current := slot.GetCurrentTemplate();
  }

  /** The credentials of the two scenarios. */
  const ScenarioCredentials := DatabaseCredentials(Some("postgresql"), Some("db1"), 5432, Some("orders"), Some("a"), Some("p"))

  lemma ScenarioKey()
    ensures GenerateKeyForUserDataSource(ScenarioCredentials) == "postgresql-db1-5432-orders-a-p"
  {
    assert Digits(5) == "5";
    assert Digits(54) == "54";
    assert Digits(543) == "543";
    assert IntToString(5432) == "5432";
  }

  lemma UnsupportedScenarioFacts(bad: DatabaseCredentials)
    requires bad == ScenarioCredentials.(databaseType := Some("sqlite"))
    ensures CreateDataSource(bad) == Failure(UnsupportedDatabaseType("Unsupported database type: sqlite"))
    ensures GenerateKeyForUserDataSource(bad) != GenerateKeyForUserDataSource(ScenarioCredentials)
  {
    SqliteIsUnsupported();
    assert "Unsupported database type: " + "sqlite" == "Unsupported database type: sqlite";
    assert GenerateKeyForUserDataSource(bad)[0] == 's';
    assert GenerateKeyForUserDataSource(ScenarioCredentials)[0] == 'p';
  }

  lemma PostgresqlIsSupported()
    ensures DriverFor("postgresql") == Some("org.postgresql.Driver")
  {
    assert ToLower("postgresql") == "postgresql";
  }
}
