/**
 * DatabaseNavigatorController of the `fordevs.dynamicqueryengine` generation:
 * the same connect flow as the service, with the read endpoints gated by a
 * guard that yields an error response while no credentials are stored. Its
 * query endpoint has no character filter.
 */
module LegacyController {
  import opened Wrappers
  import opened JavaText
  import opened Pools
  import opened LegacyConfig
  import opened WebResponse
  import opened LegacyWeb
  import opened LegacyService

  class DatabaseNavigatorController {
    const dataSourceManager: DynamicDataSourceManager
    /** `spring.profiles.active`, or None when unset. */
    const activeProfile: Option<string>
    /** The credentials of the last valid connect request; None until there is one. */
    var credentials: Option<DatabaseCredentials>

    ghost predicate Valid()
      reads this, dataSourceManager, dataSourceManager.pools
    {
      dataSourceManager.Valid()
    }

    constructor (dataSourceManager: DynamicDataSourceManager, activeProfile: Option<string>)
      ensures this.dataSourceManager == dataSourceManager && this.activeProfile == activeProfile
      ensures credentials == None
    {
      this.dataSourceManager := dataSourceManager;
      this.activeProfile := activeProfile;
      credentials := None;
    }

    /**
     * `connectToDatabaseDynamically`: reject invalid credentials untouched;
     * otherwise store them first, then connect, and on success make the
     * template cached under their key the current one.
     */
    method ConnectToDatabaseDynamically(c: DatabaseCredentials, probeOk: bool) returns (r: Response<string>)
      requires Valid()
      modifies this, dataSourceManager, dataSourceManager.pools, dataSourceManager.context
      ensures Valid()
      ensures !ValidateCredentials(c) ==>
                && r == Response(BadRequest, Text("Invalid credentials provided"))
                && credentials == old(credentials)
                && dataSourceManager.dataSourceCache == old(dataSourceManager.dataSourceCache)
                && dataSourceManager.context.current == old(dataSourceManager.context.current)
                && dataSourceManager.pools.built == old(dataSourceManager.pools.built)
                && dataSourceManager.pools.closed == old(dataSourceManager.pools.closed)
      ensures ValidateCredentials(c) ==>
                && credentials == Some(c)
                && dataSourceManager.dataSourceCache - {GetKey(c)} == old(dataSourceManager.dataSourceCache) - {GetKey(c)}
      ensures ValidateCredentials(c) && !probeOk ==>
                && r == Response(InternalServerError, Text("Failed to connect to database: " + Render(c.databaseName)))
                && GetKey(c) !in dataSourceManager.dataSourceCache
                && dataSourceManager.context.current == None
      ensures ValidateCredentials(c) && probeOk ==>
                && r == Response(Ok, Text("Connected successfully to database: " + Render(c.databaseName)))
                && GetKey(c) in dataSourceManager.dataSourceCache
                && dataSourceManager.context.current == Some(dataSourceManager.dataSourceCache[GetKey(c)])
    {
      if !ValidateCredentials(c) {
        return Response(BadRequest, Text("Invalid credentials provided"));
      }
      credentials := Some(c);
      var ok := dataSourceManager.CreateAndTestConnection(c, probeOk);
      if !ok {
        return Response(InternalServerError, Text("Failed to connect to database: " + Render(c.databaseName)));
      }
      var key := GetKey(c);
      var template := dataSourceManager.GetJdbcTemplateForDb(key);
      dataSourceManager.context.SetCurrentTemplate(template);
      r := Response(Ok, Text("Connected successfully to database: " + Render(c.databaseName)));
    }

    /** The no-argument `validateCredentials()` guard: an error response iff no credentials are stored. */
    method RequireCredentials<T>() returns (g: Option<Response<T>>)
      ensures g.Some? <==> credentials.None?
      ensures g.Some? ==> g.value == Response(InternalServerError, NullBody)
    {
      if credentials.None? {
        return Some(Response(InternalServerError, NullBody));
      }
      return None;
    }

    /** `listSchema`: the guard's response, or the discovered tables. */
    method ListSchema(discovered: Outcome<seq<string>>) returns (r: Response<seq<string>>)
      ensures credentials.None? ==> r == Response(InternalServerError, NullBody)
      ensures r.status == Ok <==> credentials.Some? && discovered.Returned?
      ensures r.status == Ok ==> r.body == Payload(discovered.value)
      ensures credentials.Some? && discovered.Threw? ==>
                r == HandleException(activeProfile, discovered.exception, "Error listing tables: ")
    {
      var guard := RequireCredentials<seq<string>>();
      if guard.Some? {
        return guard.value;
      }
      match discovered
      case Returned(tables) => r := Response(Ok, Payload(tables));
      case Threw(e) => r := HandleException(activeProfile, e, "Error listing tables: ");
    }

    /** `listColumns`: the guard's response, or the columns, with SQL errors named apart. */
    method ListColumns(tableName: string, discovered: Outcome<seq<Row>>) returns (r: Response<seq<Row>>)
      ensures credentials.None? ==> r == Response(InternalServerError, NullBody)
      ensures r.status == Ok <==> credentials.Some? && discovered.Returned?
      ensures r.status == Ok ==> r.body == Payload(discovered.value)
      ensures credentials.Some? && discovered.Threw? ==>
                r == HandleException(activeProfile, discovered.exception,
                       if discovered.exception.SqlException? then "SQL error listing columns for table: "
                       else "Error listing columns for table: ")
    {
      var guard := RequireCredentials<seq<Row>>();
      if guard.Some? {
        return guard.value;
      }
      match discovered
      case Returned(columns) => r := Response(Ok, Payload(columns));
      case Threw(e) =>
        if e.SqlException? {
          r := HandleException(activeProfile, e, "SQL error listing columns for table: ");
        } else {
          r := HandleException(activeProfile, e, "Error listing columns for table: ");
        }
    }

    /**
     * `getTableData`: the guard's response, or the page with page, size and table
     * name echoed; a null body from discovery ends as a NullPointerException.
     */
    method GetTableData(tableName: string, page: int, size: int, discovered: Option<TableData>)
      returns (r: Response<TablePage>)
      ensures credentials.None? ==> r == Response(InternalServerError, NullBody)
      ensures r.status == Ok <==> credentials.Some? && discovered.Some?
      ensures r.status == Ok ==> r.body.Payload?
      ensures r.status == Ok ==>
                && r.body.value.currentPage == page && r.body.value.pageSize == size
                && r.body.value.tableName == tableName
                && r.body.value.rows == discovered.value.rows
                && r.body.value.columns == discovered.value.columns
                && r.body.value.totalRows == discovered.value.totalRows
      ensures credentials.Some? && discovered.None? ==>
                r == HandleException(activeProfile, NullPointerException, "Error obtaining data from table: ")
    {
      var guard := RequireCredentials<TablePage>();
      if guard.Some? {
        return guard.value;
      }
      match discovered
      case Some(data) =>
        r := Response(Ok, Payload(TablePage(data.rows, data.columns, page, size, data.totalRows, tableName)));
      case None =>
        r := HandleException(activeProfile, NullPointerException, "Error obtaining data from table: ");
    }

    /**
     * `executeQuery`: the guard's response, or the query run on the template
     * for the stored key (or the current one). No query filter is applied, so
     * the status does not depend on the query text.
     */
    method ExecuteQuery(query: string, run: Outcome<seq<Row>>) returns (r: Response<seq<Row>>)
      ensures credentials.None? ==> r == Response(InternalServerError, NullBody)
      ensures r.status != BadRequest
      ensures r.status == Ok <==>
                && credentials.Some? && run.Returned?
                && (GetKey(credentials.value) in dataSourceManager.dataSourceCache || dataSourceManager.context.current.Some?)
      ensures r.status == Ok ==> r.body == Payload(run.value)
      ensures credentials.Some? && run.Threw?
              && (GetKey(credentials.value) in dataSourceManager.dataSourceCache || dataSourceManager.context.current.Some?) ==>
                r == HandleException(activeProfile, run.exception, "Error executing query: ")
      ensures credentials.Some? && GetKey(credentials.value) !in dataSourceManager.dataSourceCache
              && dataSourceManager.context.current.None? ==>
                r == HandleException(activeProfile, NullPointerException, "Error executing query: ")
    {
      var guard := RequireCredentials<seq<Row>>();
      if guard.Some? {
        return guard.value;
      }
      var key := GetKey(credentials.value);
      var template := dataSourceManager.GetJdbcTemplateForDb(key);
      if template.None? {
        return HandleException(activeProfile, NullPointerException, "Error executing query: ");
      }
      match run
      case Returned(rows) => r := Response(Ok, Payload(rows));
      case Threw(e) => r := HandleException(activeProfile, e, "Error executing query: ");
    }
  }

  /**
   * After a successful connect, a query that the service would refuse for its
   * characters still reaches the database through the controller.
   */
  method ControllerSkipsQueryFilter(c: DatabaseCredentials, query: string, rows: seq<Row>)
    returns (connected: Response<string>, queried: Response<seq<Row>>)
    requires ValidateCredentials(c) && !IsValidQuery(query)
    ensures connected.status == Ok
    ensures queried == Response(Ok, Payload(rows))
  {
    var slot := new DataSourceContext.ContextSlot();
    var manager := new DynamicDataSourceManager(slot);
    var controller := new DatabaseNavigatorController(manager, None);
    connected := controller.ConnectToDatabaseDynamically(c, true);
    queried := controller.ExecuteQuery(query, Returned(rows));
  }
}
