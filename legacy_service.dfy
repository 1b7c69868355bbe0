/**
 * DatabaseServiceImpl of the `fordevs.dynamicqueryengine` generation: it stores
 * the credentials of the last valid connect request and gates every later call
 * on them. Schema discovery and query execution are given as their outcomes.
 */
module LegacyService {
  import opened Wrappers
  import opened JavaText
  import opened Pools
  import opened LegacyConfig
  import opened WebResponse
  import opened LegacyWeb

  /**
   * The body `getTableDataWithPagination` answers with. That call catches every
   * failure and answers with a null body, which the callers receive as None.
   */
  datatype TableData = TableData(rows: seq<Row>, columns: seq<Row>, totalRows: int)

  /** The response map of `getTableData`, one field per key it puts. */
  datatype TablePage = TablePage(
    rows: seq<Row>,
    columns: seq<Row>,
    currentPage: int,
    pageSize: int,
    totalRows: int,
    tableName: string)

  class DatabaseServiceImpl {
    const manager: DynamicDataSourceManager
    /** `spring.profiles.active`, or None when unset. */
    const activeProfile: Option<string>
    /** The credentials of the last valid connect request; None until there is one. */
    var databaseCredentials: Option<DatabaseCredentials>

    ghost predicate Valid()
      reads this, manager, manager.pools
    {
      manager.Valid()
    }

    constructor (manager: DynamicDataSourceManager, activeProfile: Option<string>)
      ensures this.manager == manager && this.activeProfile == activeProfile
      ensures databaseCredentials == None
    {
      this.manager := manager;
      this.activeProfile := activeProfile;
      databaseCredentials := None;
    }

    /**
     * `connectToDatabaseDynamically`: reject invalid credentials untouched;
     * otherwise store them first, then connect, and on success make the
     * template cached under their key the current one.
     */
    method ConnectToDatabaseDynamically(c: DatabaseCredentials, probeOk: bool) returns (r: Response<string>)
      requires Valid()
      modifies this, manager, manager.pools, manager.context
      ensures Valid()
      ensures !ValidateCredentials(c) ==>
                && r == Response(BadRequest, Text("Invalid credentials provided"))
                && databaseCredentials == old(databaseCredentials)
                && manager.dataSourceCache == old(manager.dataSourceCache)
                && manager.context.current == old(manager.context.current)
                && manager.pools.built == old(manager.pools.built)
                && manager.pools.closed == old(manager.pools.closed)
      ensures ValidateCredentials(c) ==>
                && databaseCredentials == Some(c)
                && manager.dataSourceCache - {GetKey(c)} == old(manager.dataSourceCache) - {GetKey(c)}
      ensures ValidateCredentials(c) && !probeOk ==>
                && r == Response(InternalServerError, Text("Failed to connect to database: " + Render(c.databaseName)))
                && GetKey(c) !in manager.dataSourceCache
                && manager.context.current == None
      ensures ValidateCredentials(c) && probeOk ==>
                && r == Response(Ok, Text("Connected successfully to database: " + Render(c.databaseName)))
                && GetKey(c) in manager.dataSourceCache
                && manager.context.current == Some(manager.dataSourceCache[GetKey(c)])
    {
      if !ValidateCredentials(c) {
        return Response(BadRequest, Text("Invalid credentials provided"));
      }
      databaseCredentials := Some(c);
      var ok := manager.CreateAndTestConnection(c, probeOk);
      if !ok {
        return Response(InternalServerError, Text("Failed to connect to database: " + Render(c.databaseName)));
      }
      var key := GetKey(c);
      var template := manager.GetJdbcTemplateForDb(key);
      manager.context.SetCurrentTemplate(template);
      r := Response(Ok, Text("Connected successfully to database: " + Render(c.databaseName)));
    }

    /** `listTables`: 500 with no body before any valid connect; otherwise the discovered tables. */
    method ListTables(discovered: Outcome<seq<string>>) returns (r: Response<seq<string>>)
      ensures databaseCredentials.None? ==> r == Response(InternalServerError, NullBody)
      ensures r.status == Ok <==> databaseCredentials.Some? && discovered.Returned?
      ensures r.status == Ok ==> r.body == Payload(discovered.value)
      ensures databaseCredentials.Some? && discovered.Threw? ==>
                r == HandleException(activeProfile, discovered.exception, "Error listing tables: ")
    {
      if databaseCredentials.None? {
        return Response(InternalServerError, NullBody);
      }
      match discovered
      case Returned(tables) => r := Response(Ok, Payload(tables));
      case Threw(e) => r := HandleException(activeProfile, e, "Error listing tables: ");
    }

    /** `listColumns`: as `listTables`, with a prefix that names SQL errors apart from the others. */
    method ListColumns(tableName: string, discovered: Outcome<seq<Row>>) returns (r: Response<seq<Row>>)
      ensures databaseCredentials.None? ==> r == Response(InternalServerError, NullBody)
      ensures r.status == Ok <==> databaseCredentials.Some? && discovered.Returned?
      ensures r.status == Ok ==> r.body == Payload(discovered.value)
      ensures databaseCredentials.Some? && discovered.Threw? ==>
                r == HandleException(activeProfile, discovered.exception,
                       if discovered.exception.SqlException? then "SQL error listing columns for table: "
                       else "Error listing columns for table: ")
    {
      if databaseCredentials.None? {
        return Response(InternalServerError, NullBody);
      }
      match discovered
      case Returned(columns) => r := Response(Ok, Payload(columns));
      case Threw(e) =>
        if e.SqlException? {
          r := HandleException(activeProfile, e, "SQL error listing columns for table: ");
        } else {
          r := HandleException(activeProfile, e, "Error listing columns for table: ");
        }
    }

    /**
     * `getTableData`: the page of rows with the page number, size and table name
     * echoed back. A null body from discovery fails on its first getter, so every
     * discovery failure ends as a NullPointerException.
     */
    method GetTableData(tableName: string, page: int, size: int, discovered: Option<TableData>)
      returns (r: Response<TablePage>)
      ensures databaseCredentials.None? ==> r == Response(InternalServerError, NullBody)
      ensures r.status == Ok <==> databaseCredentials.Some? && discovered.Some?
      ensures r.status == Ok ==> r.body.Payload?
      ensures r.status == Ok ==>
                && r.body.value.currentPage == page && r.body.value.pageSize == size
                && r.body.value.tableName == tableName
                && r.body.value.rows == discovered.value.rows
                && r.body.value.columns == discovered.value.columns
                && r.body.value.totalRows == discovered.value.totalRows
      ensures databaseCredentials.Some? && discovered.None? ==>
                r == HandleException(activeProfile, NullPointerException, "Error obtaining data from table: ")
    {
      if databaseCredentials.None? {
        return Response(InternalServerError, NullBody);
      }
      match discovered
      case Some(data) =>
        r := Response(Ok, Payload(TablePage(data.rows, data.columns, page, size, data.totalRows, tableName)));
      case None =>
        r := HandleException(activeProfile, NullPointerException, "Error obtaining data from table: ");
    }

    /**
     * `executeQuery`: the stored-credentials check first, then the query filter,
     * then the template for the stored key (or the current one); a null template
     * fails like any other exception.
     */
    method ExecuteQuery(query: string, run: Outcome<seq<Row>>) returns (r: Response<seq<Row>>)
      ensures databaseCredentials.None? ==> r == Response(InternalServerError, NullBody)
      ensures databaseCredentials.Some? && !IsValidQuery(query) ==> r == Response(BadRequest, NullBody)
      ensures r.status == BadRequest ==> databaseCredentials.Some? && !IsValidQuery(query)
      ensures r.status == Ok <==>
                && databaseCredentials.Some? && IsValidQuery(query) && run.Returned?
                && (GetKey(databaseCredentials.value) in manager.dataSourceCache || manager.context.current.Some?)
      ensures r.status == Ok ==> r.body == Payload(run.value)
      ensures databaseCredentials.Some? && IsValidQuery(query) && run.Threw?
              && (GetKey(databaseCredentials.value) in manager.dataSourceCache || manager.context.current.Some?) ==>
                r == HandleException(activeProfile, run.exception, "Error executing query: ")
      ensures databaseCredentials.Some? && IsValidQuery(query)
              && GetKey(databaseCredentials.value) !in manager.dataSourceCache && manager.context.current.None? ==>
                r == HandleException(activeProfile, NullPointerException, "Error executing query: ")
    {
      if databaseCredentials.None? {
        return Response(InternalServerError, NullBody);
      }
      if !IsValidQuery(query) {
        return Response(BadRequest, NullBody);
      }
      var key := GetKey(databaseCredentials.value);
      var template := manager.GetJdbcTemplateForDb(key);
      if template.None? {
        return HandleException(activeProfile, NullPointerException, "Error executing query: ");
      }
      match run
      case Returned(rows) => r := Response(Ok, Payload(rows));
      case Threw(e) => r := HandleException(activeProfile, e, "Error executing query: ");
    }
  }

  /**
   * A session whose connect passes validation but fails the probe: the
   * credentials stay stored, so a later query gets past the stored-credentials
   * check, finds no template under the key nor a current one, and fails with 500.
   */
  method FailedConnectThenQuery(c: DatabaseCredentials, query: string, run: Outcome<seq<Row>>)
    returns (connected: Response<string>, stored: bool, queried: Response<seq<Row>>)
    requires ValidateCredentials(c) && IsValidQuery(query)
    ensures connected.status == InternalServerError
    ensures stored
    ensures queried.status == InternalServerError
  {
    var slot := new DataSourceContext.ContextSlot();
    var manager := new DynamicDataSourceManager(slot);
    var service := new DatabaseServiceImpl(manager, None);
    connected := service.ConnectToDatabaseDynamically(c, false);
    stored := service.databaseCredentials == Some(c);
    queried := service.ExecuteQuery(query, run);
  }
}
