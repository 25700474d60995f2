/** The `/api/requests` handler: HTTP method dispatch over the spreadsheet-backed requests table. */
module RequestsApi {
  import opened Basics
  import opened Json
  import opened Http
  import opened Sheets

  datatype HttpRequest = HttpRequest(verb: string, body: Option<Record>, query: Option<Record>)

  /** What the handler decides to do before touching the sheet. */
  datatype Route =
    | ListAll
    | Create(payload: Record)
    | Update(id: Value, patch: Record)
    | Remove(id: Value)
    | MissingId
    | NotAllowed

  /** `req.body || {}`. */
  function BodyOrEmpty(req: HttpRequest): Record {
    OrEmpty(req.body)
  }

  /** `req.query?.id || req.body?.id`. */
  function DeleteId(req: HttpRequest): (id: Value)
    ensures req.query.Some? && Truthy(Get(req.query.value, "id")) ==> id == Get(req.query.value, "id")
    ensures !(req.query.Some? && Truthy(Get(req.query.value, "id"))) ==>
      id == (if req.body.Some? then Get(req.body.value, "id") else Undefined)
  {
    var fromQuery := if req.query.Some? then Get(req.query.value, "id") else Undefined;
    var fromBody := if req.body.Some? then Get(req.body.value, "id") else Undefined;
    if Truthy(fromQuery) then fromQuery else fromBody
  }

  function RouteOf(req: HttpRequest): (r: Route)
    ensures r.ListAll? <==> req.verb == "GET"
    ensures r.Create? <==> req.verb == "POST"
    ensures r.Create? ==> r.payload == BodyOrEmpty(req)
    ensures r.Update? ==>
      req.verb == "PATCH" && Truthy(r.id) && r.id == Get(BodyOrEmpty(req), "id") &&
      r.patch == BodyOrEmpty(req) - {"id"}
    ensures r.Remove? ==> req.verb == "DELETE" && Truthy(r.id) && r.id == DeleteId(req)
    ensures r.Remove? && req.query.Some? && Truthy(Get(req.query.value, "id")) ==> r.id == Get(req.query.value, "id")
    ensures r.MissingId? <==>
      (req.verb == "PATCH" && !Truthy(Get(BodyOrEmpty(req), "id"))) ||
      (req.verb == "DELETE" && !Truthy(DeleteId(req)))
    ensures r.NotAllowed? <==> req.verb !in {"GET", "POST", "PATCH", "DELETE"}
  {
    if req.verb == "GET" then ListAll
    else if req.verb == "POST" then Create(BodyOrEmpty(req))
    else if req.verb == "PATCH" then
      var body := BodyOrEmpty(req);
      var id := Get(body, "id");
      if !Truthy(id) then MissingId else Update(id, body - {"id"})
    else if req.verb == "DELETE" then
      var id := DeleteId(req);
      if !Truthy(id) then MissingId else Remove(id)
    else NotAllowed
  }

  /** The response and the new sheet contents for a route, given the sheet before the request. */
  function Effect(route: Route, values: seq<seq<string>>, freshId: string, now: string): (e: (Response, seq<seq<string>>))
    ensures route.ListAll? ==> e.0.status == 200 && e.1 == values
    ensures route.Create? ==> e.0.status == 201 && |e.1| == |values| + 1 && e.1[..|values|] == values
    ensures (route.Update? || route.Remove?) ==>
      (e.0.status == 404 <==> DataRowIndex(values, route.id) == -1) &&
      (e.0.status == 404 || e.0.status == 200) &&
      (e.0.status == 404 ==> e.1 == values && e.0.body == Error("Not found"))
    ensures route.Update? ==> |e.1| == |values|
    ensures route.Remove? && e.0.status == 200 ==> |e.1| == |values| - 1 && e.0.body == OkTrue
    ensures route.MissingId? ==> e == (Response(400, Error("id is required")), values)
    ensures route.NotAllowed? ==> e == (Response(405, Error("Method not allowed")), values)
    ensures route.ListAll? ==> e.0.body == Rows(ListRows(Columns(Requests), values))
    ensures route.Create? ==>
      var full := WithIdentity(route.payload, freshId, now);
      e == (Response(201, Row(full)), values + [RowToArray(Columns(Requests), full)])
    ensures route.Update? && DataRowIndex(values, route.id) != -1 ==>
      var k := DataRowIndex(values, route.id);
      var merged := Merged(NormalizeRow(Columns(Requests), values[k]), route.patch, route.id, now);
      e == (Response(200, Row(merged)), values[k := RowToArray(Columns(Requests), merged)])
    ensures route.Remove? && DataRowIndex(values, route.id) != -1 ==>
      e.1 == RemoveAt(values, DataRowIndex(values, route.id))
  {
    var cols := Columns(Requests);
    match route
    case ListAll => (Response(200, Rows(ListRows(cols, values))), values)
    case Create(payload) =>
      var full := WithIdentity(payload, freshId, now);
      (Response(201, Row(full)), values + [RowToArray(cols, full)])
    case Update(id, patch) =>
      var k := DataRowIndex(values, id);
      if k == -1 then (Response(404, Error("Not found")), values)
      else
        var merged := Merged(NormalizeRow(cols, values[k]), patch, id, now);
        (Response(200, Row(merged)), values[k := RowToArray(cols, merged)])
    case Remove(id) =>
      var k := DataRowIndex(values, id);
      if k == -1 then (Response(404, Error("Not found")), values)
      else (Response(200, OkTrue), RemoveAt(values, k))
    case MissingId => (Response(400, Error("id is required")), values)
    case NotAllowed => (MethodNotAllowed, values)
  }

  /** Runs one route against the sheet. */
  method Dispatch(sheet: Sheet, route: Route, freshId: string, now: string) returns (resp: Response)
    requires sheet.table == Requests
    modifies sheet
    ensures (resp, sheet.values) == Effect(route, old(sheet.values), freshId, now)
  {
    match route
    case ListAll =>
      resp := Response(200, Rows(ListRows(Columns(sheet.table), sheet.values)));
    case Create(payload) =>
      var full := sheet.AppendRow(payload, freshId, now);
      resp := Response(201, Row(full));
    case Update(id, patch) =>
      var row := sheet.PatchRow(id, patch, now);
      if row.None? {
        resp := Response(404, Error("Not found"));
      } else {
        resp := Response(200, Row(row.value));
      }
    case Remove(id) =>
      var removed := sheet.DeleteRow(id);
      if !removed {
        resp := Response(404, Error("Not found"));
      } else {
        resp := Response(200, OkTrue);
      }
    case MissingId =>
      resp := Response(400, Error("id is required"));
    case NotAllowed =>
      resp := MethodNotAllowed;
  }

  /** The handler, run inside the spreadsheet adapter's `withErrorHandling`. */
  method Handle(sheet: Sheet, configPresent: bool, req: HttpRequest, freshId: string, now: string)
    returns (resp: Response)
    requires sheet.table == Requests
    modifies sheet
    ensures !configPresent ==> resp == Response(500, Error(MissingConfigMessage)) && sheet.values == old(sheet.values)
    ensures configPresent ==> (resp, sheet.values) == Effect(RouteOf(req), old(sheet.values), freshId, now)
  {
    // The body's outcome is only consulted when the configuration is present.
    var outcome := Threw("");
    if configPresent {
      var r := Dispatch(sheet, RouteOf(req), freshId, now);
      outcome := Returned(r);
    }
    resp := Sheets.WithErrorHandling(configPresent, outcome);
  }

  /** PATCH never writes the request's id from the body: the id is taken out before the merge and forced back. */
  lemma PatchBodyIdIgnored(req: HttpRequest)
    requires RouteOf(req).Update?
    ensures "id" !in RouteOf(req).patch
  {
  }
}
