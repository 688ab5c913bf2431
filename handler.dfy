/**
 * `lambda_handler`: one API Gateway request in, one response envelope out.
 * `Try` and `Finish` give its meaning as functions (the try statement, then the
 * except and finally clauses); `LambdaHandler` is the handler itself, run
 * against a `Table`, and is proved to behave as `Handle` says.
 */
module Handler {
  import opened Wrappers
  import opened Json
  import opened Validation
  import opened UpdateParams
  import opened Store
  import opened Routing
  import opened Pagination

  /** The request body as `json.loads` receives it. */
  datatype RawBody =
    | NoBody                     // no body: json.loads(None) raises TypeError
    | Malformed(reason: string)  // not JSON: JSONDecodeError, a kind of ValueError
    | ParsedObject(obj: Dict)    // a JSON object
    | ParsedOther(value: Value)  // JSON that is not an object: it has no `.get`

  /** The parts of the API Gateway event the handler reads. */
  datatype Event = Event(
    httpMethod: string,
    resource: string,
    pathId: string,
    queryStringParameters: Option<map<string, string>>,
    body: RawBody)

  /** What the scans of this invocation return: the unfiltered listing, and the filtered search scan with its continuation pages. */
  datatype Scans = Scans(listPage: Page, searchFirst: Page, searchRest: seq<Page>)

  /** The search scan's pages are the ones the continuation loop reads: every page but the last carries a `LastEvaluatedKey`. */
  predicate SearchChained(scans: Scans) {
    Chain([scans.searchFirst] + scans.searchRest)
  }

  /** The Python exceptions the handler's code can raise. */
  datatype PyException = ValueError(message: string) | TypeError | AttributeError | ZeroDivisionError

  /** What the store calls return, and the other bodies the handler builds. */
  datatype Payload =
    | Text(text: string)
    | PutItemReply
    | UpdateItemReply(attributes: Item)
    | QueryReply(items: seq<Item>)
    | SearchReply(items: seq<Item>, page: int, pageSize: int, totalPage: int)
    | ScanReply(scanned: Page)

  /** What the variable `body` holds when the try statement ends: a plain value, or the validation error itself. */
  datatype BodyValue = Plain(payload: Payload) | Rejected(err: ValidationError)

  /** The response body string: `json.dumps(body)`, or the validation error's own `.json()`. */
  datatype Serialized = Dumps(payload: Payload) | ErrorJson(err: ValidationError)

  datatype Response = Response(statusCode: int, body: Serialized, headers: map<string, string>)

  /** A returned envelope, or an exception that escapes the handler. */
  datatype Outcome = Returned(response: Response) | Raised(exception: PyException)

  /** How the try statement ends. */
  datatype Attempt = Completed(body: BodyValue) | Failed(exception: PyException)

  /** The CORS headers every response carries. */
  const CorsHeaders: map<string, string> := map[
    "Access-Control-Allow-Headers" := "Content-Type",
    "Access-Control-Allow-Origin" := "*",
    "Access-Control-Allow-Methods" := "OPTIONS,POST,GET,PUT,DELETE"
  ]

  /** The message of the ValueError `int()` raises. */
  function IntError(s: string): string {
    "invalid literal for int() with base 10: '" + s + "'"
  }

  function UnrecognizedMessage(request: string): string {
    "Unrecognized request \"" + request + "\""
  }

  /** Whether the body asks for a create: its `id` is missing or falsy. */
  predicate IsCreate(obj: Dict) {
    Get(obj, "id").None? || !Truthy(Get(obj, "id").value)
  }

  /** The create path: the body gets the fresh id and is stored whole if EmployeeCreate accepts it. */
  function CreatePath(obj: Dict, freshId: string, store: map<string, Item>): (Attempt, map<string, Item>) {
    var item := Set(obj, "id", JStr(freshId));
    match ValidateObj(EmployeeCreate, item)
    case Valid => (Completed(Plain(PutItemReply)), store[freshId := item.bindings])
    case Invalid(err) => (Completed(Rejected(err)), store)
  }

  /** The update path: if EmployeeUpdate accepts the body, its fields other than `id` are assigned to the item under that id. */
  function UpdatePath(obj: Dict, store: map<string, Item>): (Attempt, map<string, Item>) {
    match ValidateObj(EmployeeUpdate, obj)
    case Invalid(err) => (Completed(Rejected(err)), store)
    case Valid =>
      UpdateValidIff(obj);
      var key := obj.bindings["id"].s;
      var attributes := Assigned(UpdateValues(Del(obj, "id")));
      (Completed(Plain(UpdateItemReply(attributes))), AfterUpdate(store, key, attributes))
  }

  /** The search path: read the page size and page, gather the scanned items, cut out the page. */
  function SearchPath(params: Option<map<string, string>>, scans: Scans): Attempt
    requires SearchChained(scans)
  {
    if params.None? then Failed(AttributeError)
    else
      var query := params.value;
      if QueryInt(query, "page_size", 10).None? then Failed(ValueError(IntError(query["page_size"])))
      else if QueryInt(query, "page", 1).None? then Failed(ValueError(IntError(query["page"])))
      else
        var pageSize, page := QueryInt(query, "page_size", 10).value, QueryInt(query, "page", 1).value;
        var data := scans.searchFirst.items + Flatten(scans.searchRest);
        if pageSize == 0 then Failed(ZeroDivisionError)
        else Completed(Plain(SearchReply(PageWindow(data, page, pageSize), page, pageSize, TotalPage(|data|, pageSize))))
  }

  /** `PUT /employees`: decode the body, then create or update. */
  function PutRoute(body: RawBody, store: map<string, Item>, freshId: string): (Attempt, map<string, Item>) {
    match body
    case NoBody => (Failed(TypeError), store)
    case Malformed(reason) => (Failed(ValueError(reason)), store)
    case ParsedOther(_) => (Failed(AttributeError), store)
    case ParsedObject(obj) => if IsCreate(obj) then CreatePath(obj, freshId, store) else UpdatePath(obj, store)
  }

  /**
   * The update_item request a `PUT /employees` body leads to: for an accepted
   * update, the body's id as key and the expression and values built from the
   * body without `id`; none otherwise.
   */
  function PutUpdateCalls(body: RawBody): seq<UpdateCall> {
    match body
    case ParsedObject(obj) =>
      if !IsCreate(obj) && ValidateObj(EmployeeUpdate, obj).Valid? then
        UpdateValidIff(obj);
        var fields := Del(obj, "id");
        [UpdateCall(obj.bindings["id"].s, UpdateExpression(fields), UpdateValues(fields))]
      else []
    case _ => []
  }

  /** The update_item requests the handler sends for an event. */
  function UpdateCalls(event: Event): seq<UpdateCall> {
    if RouteOf(RequestLine(event.httpMethod, event.resource)) == CreateOrUpdate then PutUpdateCalls(event.body) else []
  }

  /** The try statement: how it ends, and the store after it. */
  function Try(event: Event, store: map<string, Item>, freshId: string, scans: Scans): (Attempt, map<string, Item>)
    requires SearchChained(scans)
  {
    var request := RequestLine(event.httpMethod, event.resource);
    match RouteOf(request)
    case CreateOrUpdate => PutRoute(event.body, store, freshId)
    case GetById => (Completed(Plain(QueryReply(ItemsWithId(store, event.pathId)))), store)
    case DeleteById => (Completed(Plain(Text("Delete " + Resource + " with id: " + event.pathId))), store - {event.pathId})
    case Search => (SearchPath(event.queryStringParameters, scans), store)
    case ListAll => (Completed(Plain(ScanReply(scans.listPage))), store)
    case Unrecognized => (Failed(ValueError(UnrecognizedMessage(request))), store)
  }

  /** The finally clause: a validation error is serialised by itself, anything else by `json.dumps`. */
  function Serialize(body: BodyValue): Serialized {
    match body
    case Plain(payload) => Dumps(payload)
    case Rejected(err) => ErrorJson(err)
  }

  /**
   * The except and finally clauses, with the ValueError's message read as
   * `str(err)`: status 400 and the message as body; other exceptions escape.
   */
  function Finish(attempt: Attempt): Outcome {
    match attempt
    case Completed(body) => Returned(Response(200, Serialize(body), CorsHeaders))
    case Failed(ValueError(message)) => Returned(Response(400, Dumps(Text(message)), CorsHeaders))
    case Failed(e) => Raised(e)
  }

  /**
   * The except clause as written: `err.message` does not exist on a Python 3
   * exception, so reading it raises AttributeError, which escapes after the
   * finally clause has run.
   */
  function FinishAsWritten(attempt: Attempt): Outcome {
    match attempt
    case Completed(body) => Returned(Response(200, Serialize(body), CorsHeaders))
    case Failed(ValueError(_)) => Raised(AttributeError)
    case Failed(e) => Raised(e)
  }

  /** The handler's result and the store afterwards. */
  function Handle(event: Event, store: map<string, Item>, freshId: string, scans: Scans): (Outcome, map<string, Item>)
    requires SearchChained(scans)
  {
    var (attempt, after) := Try(event, store, freshId, scans);
    (Finish(attempt), after)
  }

  /** The `PUT /employees` branch of the try statement, run against the table. */
  method PutRequest(table: Table, rawBody: RawBody, freshId: string) returns (attempt: Attempt)
    modifies table
    ensures (attempt, table.items) == PutRoute(rawBody, old(table.items), freshId)
    ensures table.updates == old(table.updates) + PutUpdateCalls(rawBody)
  {
    match rawBody {
      case NoBody =>
        attempt := Failed(TypeError);
      case Malformed(reason) =>
        attempt := Failed(ValueError(reason));
      case ParsedOther(_) =>
        attempt := Failed(AttributeError);
      case ParsedObject(parsed) =>
        var obj := parsed;
        if IsCreate(obj) {
          obj := Set(obj, "id", JStr(freshId));
          var isValid := ValidateObj(EmployeeCreate, obj);
          if isValid.Valid? {
            table.PutItem(obj.bindings);
            attempt := Completed(Plain(PutItemReply));
          } else {
            attempt := Completed(Rejected(isValid.err));
          }
        } else {
          var isValid := ValidateObj(EmployeeUpdate, obj);
          if isValid.Valid? {
            UpdateValidIff(obj);
            var id := obj.bindings["id"].s;
            obj := Del(obj, "id");
            var updateExpression, updateValues := GetUpdateParams(obj);
            var attributes := table.UpdateItem(id, updateExpression, updateValues);
            attempt := Completed(Plain(UpdateItemReply(attributes)));
          } else {
            attempt := Completed(Rejected(isValid.err));
          }
        }
    }
  }

  /** The `GET /employees/search` branch of the try statement. */
  method SearchRequest(params: Option<map<string, string>>, scans: Scans) returns (attempt: Attempt)
    requires SearchChained(scans)
    ensures attempt == SearchPath(params, scans)
  {
    if params.None? {
      return Failed(AttributeError);
    }
    var query := params.value;
    var pageSize := QueryInt(query, "page_size", 10);
    if pageSize.None? {
      return Failed(ValueError(IntError(query["page_size"])));
    }
    var page := QueryInt(query, "page", 1);
    if page.None? {
      return Failed(ValueError(IntError(query["page"])));
    }
    var data := CollectScan(scans.searchFirst, scans.searchRest);
    var items := PageWindow(data, page.value, pageSize.value);
    if pageSize.value == 0 {
      return Failed(ZeroDivisionError);
    }
    attempt := Completed(Plain(SearchReply(items, page.value, pageSize.value, TotalPage(|data|, pageSize.value))));
  }

  /**
   * lambda_handler. `freshId` stands for `str(uuid.uuid4())`; `scans` for what
   * the table's scans return.
   */
  method LambdaHandler(table: Table, event: Event, freshId: string, scans: Scans) returns (outcome: Outcome)
    requires SearchChained(scans)
    modifies table
    ensures (outcome, table.items) == Handle(event, old(table.items), freshId, scans)
    ensures table.updates == old(table.updates) + UpdateCalls(event)
  {
    var statusCode := 200;
    var request := RequestLine(event.httpMethod, event.resource);
    var attempt := Completed(Plain(Text("")));
    var route := RouteOf(request);
    if route == CreateOrUpdate {
      attempt := PutRequest(table, event.body, freshId);
    } else if route == GetById {
      var found := table.Query(event.pathId);
      attempt := Completed(Plain(QueryReply(found)));
    } else if route == DeleteById {
      table.DeleteItem(event.pathId);
      attempt := Completed(Plain(Text("Delete " + Resource + " with id: " + event.pathId)));
    } else if route == Search {
      attempt := SearchRequest(event.queryStringParameters, scans);
    } else if route == ListAll {
      attempt := Completed(Plain(ScanReply(scans.listPage)));
    } else {
      attempt := Failed(ValueError(UnrecognizedMessage(request)));
    }
    // except ValueError as err: the status becomes 400 and the body str(err)
    var body: BodyValue;
    if attempt.Failed? && attempt.exception.ValueError? {
      statusCode := 400;
      body := Plain(Text(attempt.exception.message));
      attempt := Completed(body);
    }
    // finally: serialise the body; an exception other than ValueError escapes
    if attempt.Failed? {
      outcome := Raised(attempt.exception);
    } else {
      body := attempt.body;
      var serialized := if body.Rejected? then ErrorJson(body.err) else Dumps(body.payload);
      outcome := Returned(Response(statusCode, serialized, CorsHeaders));
    }
  }

  // ----- what the handler promises -----

  /** A request line that matches none of the five routes is answered 400 with the error's message, and the store is untouched. */
  lemma UnrecognizedIs400(event: Event, store: map<string, Item>, freshId: string, scans: Scans)
    requires SearchChained(scans)
    requires RouteOf(RequestLine(event.httpMethod, event.resource)) == Unrecognized
    ensures Handle(event, store, freshId, scans)
         == (Returned(Response(400, Dumps(Text(UnrecognizedMessage(RequestLine(event.httpMethod, event.resource)))), CorsHeaders)), store)
  {
  }

  /**
   * Every returned envelope carries the CORS headers; its status is 400 exactly
   * when the try statement raised a ValueError, and 200 otherwise.
   */
  lemma EnvelopeShape(event: Event, store: map<string, Item>, freshId: string, scans: Scans)
    requires SearchChained(scans)
    ensures var outcome := Handle(event, store, freshId, scans).0;
      var attempt := Try(event, store, freshId, scans).0;
      outcome.Returned? ==>
        && outcome.response.headers == CorsHeaders
        && (outcome.response.statusCode == 400 <==> attempt.Failed? && attempt.exception.ValueError?)
        && (outcome.response.statusCode == 200 <==> attempt.Completed?)
  {
  }

  /** An exception escapes only for a PUT without a JSON object body, or a search without a query string or with page size 0. */
  lemma RaisedOnlyFor(event: Event, store: map<string, Item>, freshId: string, scans: Scans)
    requires SearchChained(scans)
    ensures var route := RouteOf(RequestLine(event.httpMethod, event.resource));
      Handle(event, store, freshId, scans).0.Raised? <==>
        || (route == CreateOrUpdate && (event.body.NoBody? || event.body.ParsedOther?))
        || (route == Search && (event.queryStringParameters.None? ||
              (var query := event.queryStringParameters.value;
               QueryInt(query, "page_size", 10) == Some(0) && QueryInt(query, "page", 1).Some?)))
  {
  }

  /** Setting `id` on the body does not change EmployeeCreate's verdict, which does not declare it. */
  lemma CreateVerdictIgnoresId(obj: Dict, freshId: string)
    ensures ValidateObj(EmployeeCreate, Set(obj, "id", JStr(freshId))) == ValidateObj(EmployeeCreate, obj)
  {
    assert "id" !in EmployeeFields;
    CreateIgnoresUndeclared(obj, "id", JStr(freshId));
  }

  /**
   * Create: when the body's `id` is missing or falsy and the body passes
   * EmployeeCreate, the item stored under the fresh id is the body with `id`
   * set to it, every other key, declared or not, as it came; no other item
   * changes.
   */
  lemma CreateStoresBodyWithFreshId(obj: Dict, freshId: string, store: map<string, Item>)
    requires IsCreate(obj)
    requires ValidateObj(EmployeeCreate, obj).Valid?
    ensures PutRoute(ParsedObject(obj), store, freshId)
         == (Completed(Plain(PutItemReply)), store[freshId := obj.bindings["id" := JStr(freshId)]])
  {
    PutRouteDispatch(obj, store, freshId);
    CreateVerdictIgnoresId(obj, freshId);
  }

  /** A body whose `id` is truthy takes the update path, any other the create path. */
  lemma PutRouteDispatch(obj: Dict, store: map<string, Item>, freshId: string)
    ensures PutRoute(ParsedObject(obj), store, freshId)
         == if IsCreate(obj) then CreatePath(obj, freshId, store) else UpdatePath(obj, store)
  {
  }

  /** An accepted update assigns the body's fields other than `id`, read back from the placeholder map. */
  lemma UpdatePathAssignsFields(obj: Dict, store: map<string, Item>)
    requires ValidateObj(EmployeeUpdate, obj).Valid?
    ensures Get(obj, "id").Some? && Get(obj, "id").value.JStr?
    ensures var fields := Del(obj, "id").bindings;
      UpdatePath(obj, store) == (Completed(Plain(UpdateItemReply(fields))), AfterUpdate(store, Get(obj, "id").value.s, fields))
  {
    UpdateValidIff(obj);
    ValuesAssignBody(Del(obj, "id"));
  }

  /**
   * Update: when the body's `id` is truthy and EmployeeUpdate accepts the body,
   * the body's fields other than `id` are assigned, with their values, to the
   * item stored under that id (AfterUpdate keeps every attribute they do not
   * name, and every other item), and no `:id` placeholder is sent.
   */
  lemma UpdateAssignsOnlyNamedFields(obj: Dict, store: map<string, Item>, freshId: string)
    requires !IsCreate(obj)
    requires ValidateObj(EmployeeUpdate, obj).Valid?
    ensures Get(obj, "id").Some? && Get(obj, "id").value.JStr?
    ensures Placeholder("id") !in UpdateValues(Del(obj, "id"))
    ensures var fields := obj.bindings - {"id"};
      PutRoute(ParsedObject(obj), store, freshId)
        == (Completed(Plain(UpdateItemReply(fields))), AfterUpdate(store, Get(obj, "id").value.s, fields))
  {
    PutRouteDispatch(obj, store, freshId);
    UpdatePathAssignsFields(obj, store);
    var fields := Del(obj, "id");
    assert fields.bindings == obj.bindings - {"id"};
    NoPlaceholderForAbsentKey(fields, "id");
  }

  /**
   * Update: an accepted update sends one update_item request, keyed by the
   * body's id, whose expression and values are built from the body with `id`
   * removed: the expression assigns the body's other keys, in order, and no
   * `:id` placeholder is bound.
   */
  lemma UpdateRequestOmitsId(obj: Dict)
    requires !IsCreate(obj)
    requires ValidateObj(EmployeeUpdate, obj).Valid?
    ensures Get(obj, "id").Some? && Get(obj, "id").value.JStr?
    ensures var fields := Del(obj, "id");
      PutUpdateCalls(ParsedObject(obj)) == [UpdateCall(Get(obj, "id").value.s, UpdateExpression(fields), UpdateValues(fields))]
    ensures var fields := Del(obj, "id");
      && (forall k :: k in fields.keys <==> k in obj.keys && k != "id")
      && (forall i :: 0 <= i < Len(fields) ==> Assignments(fields)[i] == Assignment(fields.keys[i]) && fields.keys[i] != "id")
      && Placeholder("id") !in UpdateValues(fields)
  {
    UpdateValidIff(obj);
    NoPlaceholderForAbsentKey(Del(obj, "id"), "id");
  }

  /** What a refused body gets: a 200 answer with the error's own JSON, and an untouched store. */
  predicate AnsweredWithRefusal(result: (Attempt, map<string, Item>), store: map<string, Item>) {
    var (attempt, after) := result;
    && after == store
    && attempt.Completed? && attempt.body.Rejected?
    && Finish(attempt) == Returned(Response(200, ErrorJson(attempt.body.err), CorsHeaders))
  }

  /** A body EmployeeCreate refuses is answered with that refusal, and the store is kept. */
  lemma CreatePathRejects(obj: Dict, freshId: string, store: map<string, Item>)
    requires ValidateObj(EmployeeCreate, obj).Invalid?
    ensures CreatePath(obj, freshId, store) == (Completed(Rejected(ValidateObj(EmployeeCreate, obj).err)), store)
  {
    CreateVerdictIgnoresId(obj, freshId);
  }

  /** A body EmployeeUpdate refuses is answered with that refusal, and the store is kept. */
  lemma UpdatePathRejects(obj: Dict, store: map<string, Item>)
    requires ValidateObj(EmployeeUpdate, obj).Invalid?
    ensures UpdatePath(obj, store) == (Completed(Rejected(ValidateObj(EmployeeUpdate, obj).err)), store)
  {
  }

  lemma CreateRefusalWritesNothing(obj: Dict, store: map<string, Item>, freshId: string)
    requires IsCreate(obj) && ValidateObj(EmployeeCreate, obj).Invalid?
    ensures AnsweredWithRefusal(PutRoute(ParsedObject(obj), store, freshId), store)
  {
    PutRouteDispatch(obj, store, freshId);
    CreatePathRejects(obj, freshId, store);
  }

  lemma UpdateRefusalWritesNothing(obj: Dict, store: map<string, Item>, freshId: string)
    requires !IsCreate(obj) && ValidateObj(EmployeeUpdate, obj).Invalid?
    ensures AnsweredWithRefusal(PutRoute(ParsedObject(obj), store, freshId), store)
  {
    PutRouteDispatch(obj, store, freshId);
    UpdatePathRejects(obj, store);
  }

  /** A body either model refuses is answered 200 with the error's own JSON, and nothing is written. */
  lemma RejectedBodyWritesNothing(obj: Dict, store: map<string, Item>, freshId: string)
    requires IsCreate(obj) ==> ValidateObj(EmployeeCreate, obj).Invalid?
    requires !IsCreate(obj) ==> ValidateObj(EmployeeUpdate, obj).Invalid?
    ensures AnsweredWithRefusal(PutRoute(ParsedObject(obj), store, freshId), store)
  {
    if IsCreate(obj) {
      CreateRefusalWritesNothing(obj, store, freshId);
    } else {
      UpdateRefusalWritesNothing(obj, store, freshId);
    }
  }

  /** Delete answers 200 whether or not the id was stored, and afterwards nothing is stored under it. */
  lemma DeleteIsIdempotent(event: Event, store: map<string, Item>, freshId: string, scans: Scans)
    requires SearchChained(scans)
    requires event.httpMethod == "DELETE" && event.resource == "/employees/{id}"
    ensures var (outcome, after) := Handle(event, store, freshId, scans);
      && after == store - {event.pathId}
      && outcome.Returned? && outcome.response.statusCode == 200
      && (event.pathId !in store ==> after == store)
  {
    RouteIff(event.httpMethod, event.resource);
  }

  /** A query string whose page size and page parse, the size nonzero, is answered with the page's window and the page count. */
  lemma SearchPathReplies(query: map<string, string>, scans: Scans, page: int, pageSize: int)
    requires SearchChained(scans)
    requires QueryInt(query, "page_size", 10) == Some(pageSize) && QueryInt(query, "page", 1) == Some(page)
    requires pageSize != 0
    ensures var data := scans.searchFirst.items + Flatten(scans.searchRest);
      SearchPath(Some(query), scans)
        == Completed(Plain(SearchReply(PageWindow(data, page, pageSize), page, pageSize, TotalPage(|data|, pageSize))))
  {
  }

  /**
   * Search: with a page and page size of at least 1, the reply holds the page's
   * window of the first scan page followed by the continuation pages, at most
   * page-size items and none once the start offset reaches the end; the page
   * and page size are echoed and total_page is `len // page_size + 1`.
   */
  lemma SearchReturnsWindow(query: map<string, string>, scans: Scans, page: int, pageSize: int)
    requires SearchChained(scans)
    requires QueryInt(query, "page_size", 10) == Some(pageSize) && QueryInt(query, "page", 1) == Some(page)
    requires page >= 1 && pageSize >= 1
    ensures var data := scans.searchFirst.items + Flatten(scans.searchRest);
      var attempt := SearchPath(Some(query), scans);
      && attempt.Completed? && attempt.body.Plain? && attempt.body.payload.SearchReply?
      && var reply := attempt.body.payload;
      && reply.items == PageWindow(data, page, pageSize)
      && |reply.items| <= pageSize
      && (reply.items == [] <==> (page - 1) * pageSize >= |data|)
      && (forall j :: 0 <= j < |reply.items| ==>
            0 <= (page - 1) * pageSize + j < |data| && reply.items[j] == data[(page - 1) * pageSize + j])
      && reply.page == page && reply.pageSize == pageSize
      && reply.totalPage == |data| / pageSize + 1
  {
    var data := scans.searchFirst.items + Flatten(scans.searchRest);
    SearchPathReplies(query, scans, page, pageSize);
    PageWindowContents(data, page, pageSize);
    PageWindowBounds(data, page, pageSize);
  }

  /** A query string without `page` and `page_size` reads as page 1 of size 10. */
  lemma SearchDefaults(query: map<string, string>, scans: Scans)
    requires SearchChained(scans)
    requires "page" !in query && "page_size" !in query
    ensures var data := scans.searchFirst.items + Flatten(scans.searchRest);
      SearchPath(Some(query), scans) == Completed(Plain(SearchReply(PageWindow(data, 1, 10), 1, 10, |data| / 10 + 1)))
  {
  }

  // ----- the except clause as written -----

  /** As written, every ValueError the try statement raises escapes as AttributeError instead of becoming a 400 response. */
  lemma ValueErrorEscapesAsWritten(attempt: Attempt)
    requires attempt.Failed? && attempt.exception.ValueError?
    ensures FinishAsWritten(attempt) == Raised(AttributeError)
    ensures Finish(attempt) == Returned(Response(400, Dumps(Text(attempt.exception.message)), CorsHeaders))
  {
  }

  /** A POST to /employees: as written the handler raises AttributeError; with `str(err)` it answers 400. */
  lemma UnrecognizedRequestAsWritten(store: map<string, Item>, freshId: string, scans: Scans)
    requires SearchChained(scans)
    ensures var event := Event("POST", "/employees", "", None, NoBody);
      var attempt := Try(event, store, freshId, scans).0;
      && FinishAsWritten(attempt) == Raised(AttributeError)
      && Handle(event, store, freshId, scans).0.Returned?
      && Handle(event, store, freshId, scans).0.response.statusCode == 400
  {
    RouteIff("POST", "/employees");
  }
}
