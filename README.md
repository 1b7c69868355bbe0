# Dynamic data-source registry

This project is a Dafny model of the core of a Spring service that serves queries against any
relational database the caller names by its credentials. The core is the `DynamicDataSourceManager`.
It derives a cache key from the credentials, builds a Hikari pool for an unseen key, probes it with
`SELECT 1`, and caches the pool's `JdbcTemplate` under the key. It also installs that template in a
per-thread "current template" slot (`DataSourceContextService`). When the probe fails it evicts the entry.

The repository holds three generations of the manager, and each is modelled separately:

- `QueryBridgeConfig` models `com.fordevs.querybridge`. It picks the driver from a table by the lower-cased
  database type, and it closes the pool of a failed probe.
- `EngineConfig` models `com.fordevs.dynamicqueryengine`. It always uses the PostgreSQL driver, and it closes
  the pool of a failed probe.
- `LegacyConfig` models `fordevs.dynamicqueryengine`. It uses the PostgreSQL driver, and on a failed probe it
  drops the entry without closing the pool.

The legacy generation's `DatabaseServiceImpl` (`LegacyService`) and `DatabaseNavigatorController`
(`LegacyController`) are modelled as classes. Each stores the credentials of the last valid connect
request and gates the other endpoints on them. Their shared pure parts are modelled once:

- credential validation and the query character filter in `LegacyWeb`;
- the profile-dependent exception response in `WebResponse`.

The two identical copies of `DataSourceContextService` become the one class `DataSourceContext.ContextSlot`.

How the model stands in for the runtime:

- Pools are abstract handles (`Pools.PoolSet`): building one appends its settings, and closing one records its handle.
- The `SELECT 1` probe is a boolean parameter.
- Schema discovery and query execution are parameters that carry either a returned value or a thrown exception (`Outcome`).
- The active Spring profile is a constructor parameter.
- Java `null` for strings and `Integer` is `None`, and string concatenation renders it as `null`.

The registries of the two newer generations keep this invariant (`Valid`):

- every cached handle is an open pool;
- no two keys share a handle;
- every open pool is cached, so no pool leaks.

The legacy registry keeps only the first two. `LegacyConfig.FailedConnectsLeakPools` shows two pools left open and uncached.

## Model

| member | source | states |
|---|---|---|
| QueryBridgeConfig.GenerateKeyForUserDataSource | src/main/java/com/fordevs/querybridge/config/DynamicDataSourceManager.java:114-117 | the key derivation itself: type, host, port, database, user and password rendered as Java concatenation renders them, with `-` between; its properties are the three key lemmas below |
| QueryBridgeConfig.KeyJoinsFields | src/main/java/com/fordevs/querybridge/config/DynamicDataSourceManager.java:114-117 | the key is the six fields (type, host, port, database, user, password, nulls as `null`) joined by `-` |
| QueryBridgeConfig.KeySplitsIntoFields | src/main/java/com/fordevs/querybridge/config/DynamicDataSourceManager.java:114-117 | when no field contains `-`, splitting the key at `-` gives back the six fields |
| QueryBridgeConfig.KeyCollision | src/main/java/com/fordevs/querybridge/config/DynamicDataSourceManager.java:114-117 | the key is not injective: two different credentials (user `a-b`/password `c` and user `a`/password `b-c`) share a key |
| QueryBridgeConfig.GetKey | src/main/java/com/fordevs/querybridge/config/DynamicDataSourceManager.java:141-143 | `getKey` yields the very key under which `createAndTestConnection` caches |
| QueryBridgeConfig.DriverMap | src/main/java/com/fordevs/querybridge/config/DynamicDataSourceManager.java:27-37 | the seven lower-case database types and their driver classes, as put into `DRIVER_MAP` |
| QueryBridgeConfig.DriverFor | src/main/java/com/fordevs/querybridge/config/DynamicDataSourceManager.java:27-37 | a driver is found iff the lower-cased type is one of the seven table keys, and it is that key's driver |
| QueryBridgeConfig.DriverForIgnoresCase | src/main/java/com/fordevs/querybridge/config/DynamicDataSourceManager.java:97 | two types equal up to ASCII case select the same driver |
| QueryBridgeConfig.DriverForLowered | src/main/java/com/fordevs/querybridge/config/DynamicDataSourceManager.java:97 | lower-casing a type before the lookup changes nothing |
| QueryBridgeConfig.MixedCaseTypeIsSupported | src/main/java/com/fordevs/querybridge/config/DynamicDataSourceManager.java:29 | `PostgreSQL` selects `org.postgresql.Driver` |
| QueryBridgeConfig.PostgresqlIsSupported | src/main/java/com/fordevs/querybridge/config/DynamicDataSourceManager.java:29 | `postgresql` selects `org.postgresql.Driver` |
| QueryBridgeConfig.SqliteIsUnsupported | src/main/java/com/fordevs/querybridge/config/DynamicDataSourceManager.java:27-37 | `sqlite` has no driver |
| QueryBridgeConfig.CreateDataSource | src/main/java/com/fordevs/querybridge/config/DynamicDataSourceManager.java:93-106 | settings are built iff the type is non-null and supported; the driver comes from the table and the user and password are passed through; a null type fails and an unknown one fails with `Unsupported database type: ` + the type as given |
| QueryBridgeConfig.DataSourceUrlReadsBack | src/main/java/com/fordevs/querybridge/config/DynamicDataSourceManager.java:102 | the JDBC URL parses back into the original-case type, host, port and database name |
| QueryBridgeConfig.DynamicDataSourceManager.CreateAndTestConnection | src/main/java/com/fordevs/querybridge/config/DynamicDataSourceManager.java:44-58 | an unsupported type on an uncached key fails and changes nothing; otherwise the result is the probe's; a new key builds exactly one pool, and a cached key reuses its pool; on success the key maps to the handle and it becomes current; on failure the entry is gone, the slot is empty and the pool is closed; the registry invariant is kept |
| QueryBridgeConfig.DynamicDataSourceManager.TestConnection | src/main/java/com/fordevs/querybridge/config/DynamicDataSourceManager.java:66-75 | the probe's outcome; a failed probe clears the current template |
| QueryBridgeConfig.DynamicDataSourceManager.GetJdbcTemplateForDb | src/main/java/com/fordevs/querybridge/config/DynamicDataSourceManager.java:83-85 | the cached handle for the key, otherwise the current template (possibly none) |
| QueryBridgeConfig.DynamicDataSourceManager.CloseDataSource | src/main/java/com/fordevs/querybridge/config/DynamicDataSourceManager.java:124-133 | removes the key, clears the slot, closes the removed pool if there was one, and keeps the invariant |
| QueryBridgeConfig.DynamicDataSourceManager.constructor | src/main/java/com/fordevs/querybridge/config/DynamicDataSourceManager.java:24 | an empty cache with no pools |
| QueryBridgeConfig.ReconnectScenario | src/main/java/com/fordevs/querybridge/config/DynamicDataSourceManager.java:44-58 | connecting twice with the same credentials gives the key `postgresql-db1-5432-orders-a-p`, builds one pool and leaves one entry, which is current |
| QueryBridgeConfig.UnsupportedTypeScenario | src/main/java/com/fordevs/querybridge/config/DynamicDataSourceManager.java:93-100 | a `sqlite` connect fails with its message and leaves the earlier entry and the current template alone |
| QueryBridgeConfig.ScenarioKey | src/main/java/com/fordevs/querybridge/config/DynamicDataSourceManager.java:114-117 | the key of the scenario credentials, with the port rendered in decimal |
| QueryBridgeConfig.UnsupportedScenarioFacts | src/main/java/com/fordevs/querybridge/config/DynamicDataSourceManager.java:97-99 | the `sqlite` credentials fail with the expected message, under a key different from the supported ones |
| EngineConfig.GenerateKeyForUserDataSource | src/main/java/com/fordevs/dynamicqueryengine/config/DynamicDataSourceManager.java:98-101 | the key derivation: manager, host, port, database, user and password with `-` between |
| EngineConfig.KeyJoinsFields | src/main/java/com/fordevs/dynamicqueryengine/config/DynamicDataSourceManager.java:98-101 | the key is the six fields (manager, host, port, database, user, password) joined by `-` |
| EngineConfig.KeySplitsIntoFields | src/main/java/com/fordevs/dynamicqueryengine/config/DynamicDataSourceManager.java:98-101 | when no field contains `-`, splitting the key gives back the six fields |
| EngineConfig.KeyCollision | src/main/java/com/fordevs/dynamicqueryengine/config/DynamicDataSourceManager.java:98-101 | two different credentials can share a key |
| EngineConfig.GetKey | src/main/java/com/fordevs/dynamicqueryengine/config/DynamicDataSourceManager.java:125-127 | `getKey` yields the key under which connections are cached |
| EngineConfig.CreateDataSource | src/main/java/com/fordevs/dynamicqueryengine/config/DynamicDataSourceManager.java:83-90 | always the PostgreSQL driver, with the user and password passed through |
| EngineConfig.DataSourceUrlReadsBack | src/main/java/com/fordevs/dynamicqueryengine/config/DynamicDataSourceManager.java:86 | the URL parses back into `postgresql`, the host, the port and the database name |
| EngineConfig.DynamicDataSourceManager.CreateAndTestConnection | src/main/java/com/fordevs/dynamicqueryengine/config/DynamicDataSourceManager.java:34-48 | the result is the probe's; a new key builds one pool, and a cached key reuses its pool; on success the key maps to the handle and it is current; on failure the entry is evicted, the slot cleared and the pool closed; the invariant is kept |
| EngineConfig.DynamicDataSourceManager.TestConnection | src/main/java/com/fordevs/dynamicqueryengine/config/DynamicDataSourceManager.java:56-65 | the probe's outcome; a failure clears the slot |
| EngineConfig.DynamicDataSourceManager.GetJdbcTemplateForDb | src/main/java/com/fordevs/dynamicqueryengine/config/DynamicDataSourceManager.java:73-75 | the cached handle, otherwise the current template |
| EngineConfig.DynamicDataSourceManager.CloseDataSource | src/main/java/com/fordevs/dynamicqueryengine/config/DynamicDataSourceManager.java:108-117 | removes the key, clears the slot, closes the removed pool, and keeps the invariant |
| EngineConfig.DynamicDataSourceManager.constructor | src/main/java/com/fordevs/dynamicqueryengine/config/DynamicDataSourceManager.java:23 | an empty cache with no pools |
| LegacyConfig.GenerateKeyForUserDataSource | src/main/java/fordevs/dynamicqueryengine/config/DynamicDataSourceManager.java:68-71 | the key derivation: manager, host, port, database, the `user` field and password with `-` between |
| LegacyConfig.KeyJoinsFields | src/main/java/fordevs/dynamicqueryengine/config/DynamicDataSourceManager.java:68-71 | the key is manager, host, port, database, user and password joined by `-` |
| LegacyConfig.KeySplitsIntoFields | src/main/java/fordevs/dynamicqueryengine/config/DynamicDataSourceManager.java:68-71 | when no field contains `-`, splitting the key gives back the six fields |
| LegacyConfig.GetKey | src/main/java/fordevs/dynamicqueryengine/config/DynamicDataSourceManager.java:73-75 | `getKey` yields the key under which connections are cached |
| LegacyConfig.CreateDataSource | src/main/java/fordevs/dynamicqueryengine/config/DynamicDataSourceManager.java:58-66 | the PostgreSQL driver, with the `user` field and the password passed through |
| LegacyConfig.DataSourceUrlReadsBack | src/main/java/fordevs/dynamicqueryengine/config/DynamicDataSourceManager.java:61 | the URL parses back into its parts |
| LegacyConfig.DynamicDataSourceManager.CreateAndTestConnection | src/main/java/fordevs/dynamicqueryengine/config/DynamicDataSourceManager.java:26-41 | the result is the probe's; a new key builds one pool; on success the key maps to the handle and it is current; on failure the entry is removed and the slot cleared, but no pool is ever closed |
| LegacyConfig.DynamicDataSourceManager.TestConnection | src/main/java/fordevs/dynamicqueryengine/config/DynamicDataSourceManager.java:43-52 | the probe's outcome; a failure clears the slot |
| LegacyConfig.DynamicDataSourceManager.GetJdbcTemplateForDb | src/main/java/fordevs/dynamicqueryengine/config/DynamicDataSourceManager.java:54-56 | the cached handle, otherwise the current template |
| LegacyConfig.DynamicDataSourceManager.constructor | src/main/java/fordevs/dynamicqueryengine/config/DynamicDataSourceManager.java:19 | an empty cache with no pools |
| LegacyConfig.FailedConnectsLeakPools | src/main/java/fordevs/dynamicqueryengine/config/DynamicDataSourceManager.java:26-39 | two failed connects with the same credentials build two pools, both still open, with no cache entry left |
| DataSourceContext.ContextSlot.constructor | src/main/java/com/fordevs/querybridge/config/DataSourceContextService.java:14 | the slot starts empty |
| DataSourceContext.ContextSlot.SetCurrentTemplate | src/main/java/com/fordevs/querybridge/config/DataSourceContextService.java:21-23 | the slot holds the given template, replacing the earlier one |
| DataSourceContext.ContextSlot.GetCurrentTemplate | src/main/java/com/fordevs/querybridge/config/DataSourceContextService.java:30-32 | returns what the slot holds |
| DataSourceContext.ContextSlot.Clear | src/main/java/com/fordevs/querybridge/config/DataSourceContextService.java:37-39 | the slot is empty |
| DataSourceContext.SlotLifecycle | src/main/java/fordevs/dynamicqueryengine/config/DataSourceContextService.java:11-21 | get before any set is empty; a second set wins; clear empties the slot, and so does clearing again |
| Pools.PoolSet.Build | src/main/java/com/fordevs/querybridge/config/DynamicDataSourceManager.java:105 | a fresh, open handle numbered after the existing pools, recording the settings |
| Pools.PoolSet.Close | src/main/java/com/fordevs/querybridge/config/DynamicDataSourceManager.java:127-131 | marks the pool closed and changes nothing else |
| Pools.CachedAfterInsert | src/main/java/com/fordevs/querybridge/config/DynamicDataSourceManager.java:46-49 | caching a new handle under an absent key adds exactly that handle to the cached set |
| Pools.CachedAfterRemove | src/main/java/com/fordevs/querybridge/config/DynamicDataSourceManager.java:125 | removing a key removes exactly its handle from the cached set when handles are not shared |
| JdbcUrl.Parse | src/main/java/com/fordevs/querybridge/config/DynamicDataSourceManager.java:102 | a parsed URL rebuilds to the input |
| JdbcUrl.ParseBuild | src/main/java/com/fordevs/querybridge/config/DynamicDataSourceManager.java:102 | a URL built from a type and host without `:` and a port without `/` parses back into its four parts |
| JavaText.Render | src/main/java/com/fordevs/querybridge/config/DynamicDataSourceManager.java:116 | Java's rendering of a nullable string in `+`: its text, or `null` |
| JavaText.RenderInteger | src/main/java/com/fordevs/dynamicqueryengine/config/DynamicDataSourceManager.java:100 | the rendering of a nullable `Integer` port, `null` or its decimal text, which never holds `:` or `/` |
| JavaText.IntToString | src/main/java/com/fordevs/querybridge/config/DynamicDataSourceManager.java:116 | `Integer.toString`: the digits of the magnitude, without leading zeros, after a `-` for a negative value |
| JavaText.DigitsDenote | src/main/java/com/fordevs/querybridge/config/DynamicDataSourceManager.java:116 | the decimal digits of a number read back as that number |
| JavaText.IntToStringReadsBack | src/main/java/com/fordevs/querybridge/config/DynamicDataSourceManager.java:116 | the rendered port reads back as the port: the whole text for a non-negative one, the text after `-` for a negative one |
| JavaText.IntToStringInjective | src/main/java/com/fordevs/querybridge/config/DynamicDataSourceManager.java:116 | two different ports never render the same |
| JavaText.ToLower | src/main/java/com/fordevs/querybridge/config/DynamicDataSourceManager.java:97 | `toLowerCase` keeps the length and lower-cases each ASCII letter in place |
| JavaText.ToLowerIdempotent | src/main/java/com/fordevs/querybridge/config/DynamicDataSourceManager.java:97 | lower-casing twice is lower-casing once |
| JavaText.SplitJoin | src/main/java/com/fordevs/querybridge/config/DynamicDataSourceManager.java:116 | splitting a `-`-joined list of parts that contain no `-` gives the parts back |
| LegacyWeb.ValidateCredentials | src/main/java/fordevs/dynamicqueryengine/service/DatabaseServiceImpl.java:220-222 | `validateCredentials(credentials)` of the service, and the identical one of the controller: database name, host, user and password each non-null and non-empty |
| LegacyWeb.ValidationIgnoresKindAndPort | src/main/java/fordevs/dynamicqueryengine/service/DatabaseServiceImpl.java:220-222 | the database manager and the port play no part in validation |
| LegacyWeb.ValidationNeedsEachField | src/main/java/fordevs/dynamicqueryengine/controller/DatabaseNavigatorController.java:205-210 | a null or empty database name, host, user or password makes the credentials invalid |
| LegacyWeb.IsValidQuery | src/main/java/fordevs/dynamicqueryengine/service/DatabaseServiceImpl.java:206-212 | `isValidQuery`: the pattern `^[a-zA-Z0-9_\s,=*'();]*$`, checked one character at a time |
| LegacyWeb.ValidQueryEveryChar | src/main/java/fordevs/dynamicqueryengine/service/DatabaseServiceImpl.java:206-212 | a query passes iff every character is an ASCII letter, a digit, `_`, Java whitespace or one of `, = * ' ( ) ;` (so the empty query passes) |
| LegacyWeb.ValidQueryConcat | src/main/java/fordevs/dynamicqueryengine/service/DatabaseServiceImpl.java:206-212 | a concatenation passes iff both parts pass |
| LegacyWeb.RejectsOutsideChar | src/main/java/fordevs/dynamicqueryengine/service/DatabaseServiceImpl.java:206-212 | one character outside the class anywhere rejects the query |
| LegacyWeb.AcceptsPlainSelect | src/main/java/fordevs/dynamicqueryengine/service/DatabaseServiceImpl.java:210 | `SELECT * FROM users;` passes |
| LegacyWeb.RejectsQualifiedName | src/main/java/fordevs/dynamicqueryengine/service/DatabaseServiceImpl.java:210 | `SELECT * FROM public.users` is rejected |
| LegacyWeb.RejectsLineComment | src/main/java/fordevs/dynamicqueryengine/service/DatabaseServiceImpl.java:210 | `1;--` is rejected |
| WebResponse.HandleException | src/main/java/fordevs/dynamicqueryengine/service/DatabaseServiceImpl.java:231-237 | always 500; an empty-map body iff the profile is `prod`, otherwise the prefix followed by the exception message (`null` when absent) |
| WebResponse.ProductionMasksFailures | src/main/java/fordevs/dynamicqueryengine/controller/DatabaseNavigatorController.java:232-238 | under `prod` every failure gives the same response |
| WebResponse.DevelopmentReportsFailures | src/main/java/fordevs/dynamicqueryengine/controller/DatabaseNavigatorController.java:232-238 | outside `prod`, equal responses for one prefix mean equal exception messages |
| LegacyService.DatabaseServiceImpl.constructor | src/main/java/fordevs/dynamicqueryengine/service/DatabaseServiceImpl.java:46 | no credentials are stored |
| LegacyService.DatabaseServiceImpl.ConnectToDatabaseDynamically | src/main/java/fordevs/dynamicqueryengine/service/DatabaseServiceImpl.java:49-76 | invalid credentials give 400 `Invalid credentials provided` and change nothing (stored credentials, cache, slot, built and closed pools); valid ones are stored before the connect; a failed probe gives 500 `Failed to connect to database: ` + name, with the key evicted and the slot empty; success gives 200 `Connected successfully to database: ` + name, with the slot holding the key's handle; other keys are untouched |
| LegacyService.DatabaseServiceImpl.ListTables | src/main/java/fordevs/dynamicqueryengine/service/DatabaseServiceImpl.java:79-95 | with no credentials, 500 with a null body; otherwise 200 with the tables, or the exception response |
| LegacyService.DatabaseServiceImpl.ListColumns | src/main/java/fordevs/dynamicqueryengine/service/DatabaseServiceImpl.java:98-118 | with no credentials, 500 with a null body; otherwise 200 with the columns, or the exception response with the SQL-error prefix for an `SQLException` and the general prefix otherwise |
| LegacyService.DatabaseServiceImpl.GetTableData | src/main/java/fordevs/dynamicqueryengine/service/DatabaseServiceImpl.java:121-148 | with no credentials, 500 with a null body; otherwise 200 with the rows, columns and total, echoing page, size and table name; when discovery answers with a null body, the exception response of the resulting `NullPointerException` |
| LegacyService.DatabaseServiceImpl.ExecuteQuery | src/main/java/fordevs/dynamicqueryengine/service/DatabaseServiceImpl.java:151-198 | the credentials check comes first (500), then the filter (400, only with credentials); with no template under the key and none current, the `NullPointerException` response; with a template, 200 with the rows, or the response for the exception the query throws |
| LegacyService.FailedConnectThenQuery | src/main/java/fordevs/dynamicqueryengine/service/DatabaseServiceImpl.java:55-63 | after a connect that fails its probe the credentials stay stored, and a later query fails with 500 |
| LegacyController.DatabaseNavigatorController.constructor | src/main/java/fordevs/dynamicqueryengine/controller/DatabaseNavigatorController.java:40 | no credentials are stored |
| LegacyController.DatabaseNavigatorController.ConnectToDatabaseDynamically | src/main/java/fordevs/dynamicqueryengine/controller/DatabaseNavigatorController.java:49-74 | as the service: 400 with nothing changed (stored credentials, cache, slot, built and closed pools) for invalid credentials; valid ones are stored first; 500 with the key evicted on a failed probe; 200 with the key's handle current on success |
| LegacyController.DatabaseNavigatorController.RequireCredentials | src/main/java/fordevs/dynamicqueryengine/controller/DatabaseNavigatorController.java:217-223 | a 500 response with a null body iff no credentials are stored, and nothing otherwise |
| LegacyController.DatabaseNavigatorController.ListSchema | src/main/java/fordevs/dynamicqueryengine/controller/DatabaseNavigatorController.java:82-98 | the guard's response when it fires; otherwise 200 with the tables, or the exception response |
| LegacyController.DatabaseNavigatorController.ListColumns | src/main/java/fordevs/dynamicqueryengine/controller/DatabaseNavigatorController.java:107-127 | the guard's response; otherwise 200 with the columns, or the SQL or general exception response |
| LegacyController.DatabaseNavigatorController.GetTableData | src/main/java/fordevs/dynamicqueryengine/controller/DatabaseNavigatorController.java:138-169 | the guard's response; otherwise 200 echoing page, size and table name with the rows, columns and total; for a null discovery body, the `NullPointerException` response |
| LegacyController.DatabaseNavigatorController.ExecuteQuery | src/main/java/fordevs/dynamicqueryengine/controller/DatabaseNavigatorController.java:178-197 | the guard's response; never 400, since no filter is applied; 200 with the rows iff a template is found and the query returns; the `NullPointerException` response with no template, and the response for the thrown exception when the query fails |
| LegacyController.ControllerSkipsQueryFilter | src/main/java/fordevs/dynamicqueryengine/controller/DatabaseNavigatorController.java:178-197 | after a successful connect, a query the service's filter would refuse still runs through the controller |

## Left out

- JDBC and Hikari I/O are not modelled: the `SELECT 1` probe is a boolean input, and pool construction never fails. So the `catch` around the connect flow in the service and the controller (Hikari's fail-fast construction errors) cannot be reached in the model.
- Schema discovery (`SchemaDiscoveryService`) and `jdbcTemplate.query` / `queryForList` are not part of this model. The tables, columns and query rows they return, or the exception they throw, are inputs. `getTableDataWithPagination` catches its own failures and answers with a null body, so table data comes in as a body or none. Query rows are maps from strings to strings instead of `Object` values.
- The atomicity of `ConcurrentHashMap.computeIfAbsent` and the per-thread isolation of the `ThreadLocal` slot are not modelled. There is one sequential registry and one session's slot.
- `toLowerCase` is modelled for ASCII letters only. Locale-specific and non-ASCII case mappings are not.
- `JavaText.IntToString` renders an unbounded integer. The 32-bit range of Java's `int` is not imposed.
- Exceptions carry only their message. The JVM's detailed text for a `NullPointerException` (from a null template or a null table-data body) is not modelled, and the model renders that message as `null`.
- `spring.profiles.active` is compared to `prod` as one string. A comma-separated list of several profiles is treated as not `prod`, as `equals` does.
- The querybridge `DatabaseCredentials` DTO is not part of this model. Its fields come from the getters the manager calls, with `int` for the port.
- The legacy DTO declares `user`, while the legacy service and controller call `getUserName()`. The model uses the one field `user` for both.
- Spring wiring, logging, CORS, the application classes, the global exception handlers and the delegating controller of the `com.fordevs.dynamicqueryengine` generation are not modelled, because they hold no logic of the registry.
- The `page * size` offset of pagination lives in schema discovery and is not modelled.
- Key injectivity and the clear-text password in the key: the source promises neither, so `KeyCollision` exhibits a collision and `KeySplitsIntoFields` states the round trip only for fields free of `-`.
