/**
 * The generic CRUD route generator: a builder that holds an entity name and two optional
 * payload schemas, the five route builders, and the decision logic of the generated handlers.
 */
module Crud {
  import opened Options
  import opened Strings
  import opened Schemas
  import opened Routing

  // ----- persistence adapter and requests, as the handlers see them -----

  /** An adapter error: the store's not-found sentinel or any other failure with its text. */
  datatype DbError = RecordNotFound | DbFailure(text: string)

  /** The text of an adapter error, as `err.Error()` gives it. */
  function ErrorText(e: DbError): string
  {
    match e
    case RecordNotFound => "record not found"
    case DbFailure(text) => text
  }

  /** The outcome of a persistence call that returns no value. */
  datatype Outcome = Pass | Fail(error: DbError)

  /** The outcome of a persistence call that returns a value. */
  datatype Result<X> = Success(value: X) | Failure(error: DbError)

  /** The persistence adapter bound to one entity type: one total function per call. */
  datatype Adapter<!T> = Adapter(
    create: T -> Outcome,
    update: (string, T) -> Outcome,
    delete: string -> Outcome,
    findOne: string -> Result<T>,
    findAll: () -> Result<seq<T>>)

  /** A persistence call a handler made, with its arguments. */
  datatype Call<T> =
    | CreateCall(entity: T)
    | UpdateCall(id: string, entity: T)
    | DeleteCall(id: string)
    | FindOneCall(id: string)
    | FindAllCall

  /** What the framework's parameter or body parser produced. */
  datatype Parsed<X> = Parsed(value: X) | ParseError(message: string)

  /** An incoming request: the outcome of parsing the `id` path parameter and of parsing the body. */
  datatype Request<T> = Request(params: Parsed<string>, body: Parsed<T>)

  datatype Body<T> =
    | Text(text: string)
    | ErrorJson(error: string, message: string)
    | ItemJson(item: T)
    | ItemsJson(items: seq<T>)

  datatype Response<T> = Response(status: nat, body: Body<T>)

  /** What serving one request did: the persistence calls it made, in order, and its response. */
  datatype Exchange<T> = Exchange(calls: seq<Call<T>>, response: Response<T>)

  function BadRequest<T>(message: string): Response<T>
  {
    Response(400, ErrorJson("Bad Request", message))
  }

  function NotFound<T>(entity: string): Response<T>
  {
    Response(404, ErrorJson("Not Found", "The " + Lower(entity) + " was not found."))
  }

  function ServerError<T>(e: DbError): Response<T>
  {
    Response(500, ErrorJson("Internal Server Error", ErrorText(e)))
  }

  /** How an id-scoped handler reports an adapter error: the not-found sentinel is 404, anything else 500. */
  function ItemFailure<T>(entity: string, e: DbError): (r: Response<T>)
    ensures r.status == 404 <==> e.RecordNotFound?
    ensures r.status == 404 || r.status == 500
  {
    if e.RecordNotFound? then NotFound(entity) else ServerError(e)
  }

  const OK := "OK"

  /** The statuses a generated handler can answer with. */
  function PossibleStatuses(op: CrudOp): set<nat>
  {
    match op
    case CreateOp => {200, 400, 500}
    case GetAllOp => {200, 500}
    case _ => {200, 400, 404, 500}
  }

  /**
   * The generated handler for `h`, run against one request and one adapter.
   * Parse failures answer 400 before any persistence call; an id-scoped operation maps the
   * not-found sentinel to 404; every other adapter error is a 500; success is a 200.
   */
  function Serve<T>(h: Handler, req: Request<T>, db: Adapter<T>): (x: Exchange<T>)
    ensures x.response.status in PossibleStatuses(h.op)
    ensures x.response.status == 200 <==> !x.response.body.ErrorJson?
    ensures x.response.status == 400 <==> x.calls == []
    ensures |x.calls| <= 1
  {
    match h.op
    case CreateOp => (
      match req.body
      case ParseError(m) => Exchange([], BadRequest(m))
      case Parsed(entity) =>
        var calls := [CreateCall(entity)];
        match db.create(entity)
        case Fail(err) => Exchange(calls, ServerError(err))
        case Pass => Exchange(calls, Response(200, Text(OK))))
    case UpdateOp => (
      match req.params
      case ParseError(m) => Exchange([], BadRequest(m))
      case Parsed(id) =>
        match req.body
        case ParseError(m) => Exchange([], BadRequest(m))
        case Parsed(entity) =>
          var calls := [UpdateCall(id, entity)];
          match db.update(id, entity)
          case Fail(err) => Exchange(calls, ItemFailure(h.entity, err))
          case Pass => Exchange(calls, Response(200, Text(OK))))
    case DeleteOp => (
      match req.params
      case ParseError(m) => Exchange([], BadRequest(m))
      case Parsed(id) =>
        var calls := [DeleteCall(id)];
        match db.delete(id)
        case Fail(err) => Exchange(calls, ItemFailure(h.entity, err))
        case Pass => Exchange(calls, Response(200, Text(OK))))
    case GetOneOp => (
      match req.params
      case ParseError(m) => Exchange([], BadRequest(m))
      case Parsed(id) =>
        var calls := [FindOneCall(id)];
        match db.findOne(id)
        case Failure(err) => Exchange(calls, ItemFailure(h.entity, err))
        case Success(entity) => Exchange(calls, Response(200, ItemJson(entity))))
    case GetAllOp =>
      var calls := [FindAllCall];
      match db.findAll()
      case Failure(err) => Exchange(calls, ServerError(err))
      case Success(entities) => Exchange(calls, Response(200, ItemsJson(entities)))
  }

  // ----- an independent account of the handler decisions -----

  /** The first parse failure an operation runs into: Update parses the id before the body. */
  function FirstParseError<T>(op: CrudOp, req: Request<T>): Option<string>
  {
    if op in {UpdateOp, DeleteOp, GetOneOp} && req.params.ParseError? then Some(req.params.message)
    else if op in {CreateOp, UpdateOp} && req.body.ParseError? then Some(req.body.message)
    else None
  }

  /** The one persistence call an operation makes once its inputs parsed. */
  function CallOf<T>(op: CrudOp, req: Request<T>): Call<T>
    requires FirstParseError(op, req).None?
  {
    match op
    case CreateOp => CreateCall(req.body.value)
    case UpdateOp => UpdateCall(req.params.value, req.body.value)
    case DeleteOp => DeleteCall(req.params.value)
    case GetOneOp => FindOneCall(req.params.value)
    case GetAllOp => FindAllCall
  }

  /** The error the adapter reports for a call, if any. */
  function CallError<T>(db: Adapter<T>, c: Call<T>): Option<DbError>
  {
    match c
    case CreateCall(e) => if db.create(e).Fail? then Some(db.create(e).error) else None
    case UpdateCall(id, e) => if db.update(id, e).Fail? then Some(db.update(id, e).error) else None
    case DeleteCall(id) => if db.delete(id).Fail? then Some(db.delete(id).error) else None
    case FindOneCall(id) => if db.findOne(id).Failure? then Some(db.findOne(id).error) else None
    case FindAllCall => if db.findAll().Failure? then Some(db.findAll().error) else None
  }

  /** A parse failure answers 400 with the parser's message, and nothing reaches the adapter. */
  lemma ParseFailureIsBadRequest<T>(h: Handler, req: Request<T>, db: Adapter<T>)
    requires FirstParseError(h.op, req).Some?
    ensures Serve(h, req, db) == Exchange([], BadRequest(FirstParseError(h.op, req).value))
  {
  }

  /** Update reports a bad id even when the body is malformed too. */
  lemma UpdateChecksParamsFirst<T>(entity: string, req: Request<T>, db: Adapter<T>)
    requires req.params.ParseError?
    ensures Serve(CrudHandler(UpdateOp, entity), req, db).response == BadRequest(req.params.message)
  {
  }

  /** Once the inputs parse, the handler makes exactly the call its operation names. */
  lemma ParsedRequestMakesOneCall<T>(h: Handler, req: Request<T>, db: Adapter<T>)
    requires FirstParseError(h.op, req).None?
    ensures Serve(h, req, db).calls == [CallOf(h.op, req)]
  {
  }

  /**
   * Adapter errors: for id-scoped operations the not-found sentinel is a 404 naming the entity
   * in lower case; any other error, and every error of Create and GetAll, is a 500 carrying the error text.
   */
  lemma AdapterErrorMapping<T>(h: Handler, req: Request<T>, db: Adapter<T>)
    requires FirstParseError(h.op, req).None?
    requires CallError(db, CallOf(h.op, req)).Some?
    ensures var e := CallError(db, CallOf(h.op, req)).value;
      Serve(h, req, db).response ==
        if IsItemOp(h.op) && e.RecordNotFound? then NotFound(h.entity) else ServerError(e)
  {
  }

  /** A successful call answers 200: `OK` for writes, the record under `item`, the records under `items`. */
  lemma SuccessMapping<T>(h: Handler, req: Request<T>, db: Adapter<T>)
    requires FirstParseError(h.op, req).None?
    requires CallError(db, CallOf(h.op, req)).None?
    ensures Serve(h, req, db).response.status == 200
    ensures h.op in {CreateOp, UpdateOp, DeleteOp} ==> Serve(h, req, db).response.body == Text(OK)
    ensures h.op == GetOneOp ==>
      Serve(h, req, db).response.body == ItemJson(db.findOne(req.params.value).value)
    ensures h.op == GetAllOp ==> Serve(h, req, db).response.body == ItemsJson(db.findAll().value)
  {
  }

  /** Create and GetAll never answer 404, whatever the adapter reports. */
  lemma CollectionOpsNeverNotFound<T>(h: Handler, req: Request<T>, db: Adapter<T>)
    requires h.op in {CreateOp, GetAllOp}
    ensures Serve(h, req, db).response.status != 404
  {
  }

  // ----- documentation metadata -----

  /** A status code as the text key of a response map. */
  function StatusKey(code: nat): (k: string)
    ensures |k| > 0
    decreases code
  {
    if code < 10 then [(code + '0' as int) as char]
    else StatusKey(code / 10) + [((code % 10) + '0' as int) as char]
  }

  function ErrorResponseDoc(description: string): ResponseDoc
  {
    ResponseDoc(description, map["application/json" := ErrorSchema])
  }

  /** The 200 of a write: plain text whose schema defaults to `OK`. */
  function TextResponseDoc(description: string): ResponseDoc
  {
    ResponseDoc(description, map["text/plain" := StringSchema.(default := Some(OK))])
  }

  /** The 200 of a read: the JSON success envelope. */
  function SuccessResponseDoc(description: string): ResponseDoc
  {
    ResponseDoc(description, map["application/json" := SuccessSchema])
  }

  /** The entry an empty response map starts with: `default`, with an empty description and no content. */
  const DefaultResponseDoc := ResponseDoc("", map[])

  /** The response map of a collection route: the seeded default entry, the given 200 and the four error slots. */
  function CollectionResponses(ok: ResponseDoc): (m: map<string, ResponseDoc>)
    ensures m.Keys == CollectionStatusKeys && m["200"] == ok && m["default"] == DefaultResponseDoc
    ensures forall k :: k in m && k !in {"200", "default"} ==> m[k].content == map["application/json" := ErrorSchema]
  {
    map[
      "default" := DefaultResponseDoc,
      "200" := ok,
      "400" := ErrorResponseDoc("Bad Request"),
      "401" := ErrorResponseDoc("Unauthorized"),
      "403" := ErrorResponseDoc("Forbidden"),
      "500" := ErrorResponseDoc("Internal Server Error")]
  }

  /** The response map of an item route: as for a collection route, plus 404. */
  function ItemResponses(ok: ResponseDoc): (m: map<string, ResponseDoc>)
    ensures m.Keys == ItemStatusKeys && m["200"] == ok && m["default"] == DefaultResponseDoc
    ensures forall k :: k in m && k !in {"200", "default"} ==> m[k].content == map["application/json" := ErrorSchema]
  {
    CollectionResponses(ok)["404" := ErrorResponseDoc("Not Found")]
  }

  /**
   * What every generated route satisfies: its handler, method, path, parameters, tag and
   * documented statuses all follow from its operation and entity name, and only the route that
   * uses a payload schema carries one.
   */
  predicate WellFormed(r: Route)
  {
    var op := r.handler.op;
    && r.handler.entity == r.entity
    && r.httpMethod == MethodOf(op)
    && r.path == PathOf(op, r.entity)
    && r.meta.parameters == (if IsItemOp(op) then [IdParameter] else [])
    && r.meta.tags == [r.entity + "s"]
    && r.meta.responses.Keys == (if IsItemOp(op) then ItemStatusKeys else CollectionStatusKeys)
    && (r.meta.requestBody.Some? <==> op in {CreateOp, UpdateOp})
    && (op != CreateOp ==> r.createSchema.None?)
    && (op != UpdateOp ==> r.updateSchema.None?)
    && r.middlewares == []
  }

  /** Every status a generated handler can answer with is documented in its route's response map. */
  lemma HandlerStatusesDocumented<T>(r: Route, req: Request<T>, db: Adapter<T>)
    requires WellFormed(r)
    ensures StatusKey(Serve(r.handler, req, db).response.status) in r.meta.responses
  {
    HandlerStatusKeys();
  }

  /** The keys of the four statuses a handler uses. */
  lemma HandlerStatusKeys()
    ensures StatusKey(200) == "200" && StatusKey(400) == "400"
    ensures StatusKey(404) == "404" && StatusKey(500) == "500"
  {
    assert StatusKey(2) == "2" && StatusKey(20) == "20";
    assert StatusKey(4) == "4" && StatusKey(40) == "40";
    assert StatusKey(5) == "5" && StatusKey(50) == "50";
  }

  // ----- the builder -----

  /** The CRUD builder for one entity: its name and the payload schemas assigned so far. */
  class CrudApi {
    const name: string
    var create: Option<Schema>
    var update: Option<Schema>

    /** A builder for the entity `name`, with no payload schema assigned. */
    constructor (name: string)
      ensures this.name == name && create == None && update == None
    {
      this.name := name;
      create := None;
      update := None;
    }

    /** Sets the create payload schema, leaves the update schema alone, and returns this builder. */
    method AssignCreateSchema(schema: Option<Schema>) returns (api: CrudApi)
      modifies this
      ensures api == this
      ensures create == schema && update == old(update)
    {
      create := schema;
      api := this;
    }

    /** Sets the update payload schema, leaves the create schema alone, and returns this builder. */
    method AssignUpdateSchema(schema: Option<Schema>) returns (api: CrudApi)
      modifies this
      ensures api == this
      ensures update == schema && create == old(create)
    {
      update := schema;
      api := this;
    }

    /** POST on the collection path, carrying the create schema as its required request body. */
    function CreateRoute(): (r: Route)
      reads this
      ensures WellFormed(r) && r.handler.op == CreateOp && r.entity == name
      ensures r.httpMethod == POST && r.path == CollectionPath(name)
      ensures r.createSchema == create
      ensures r.meta.requestBody.Some? && r.meta.requestBody.value.required
      ensures r.meta.requestBody.value.schema == create
    {
      Route(
        Metadata(
          "Create " + name,
          "This endpoint creates a new " + Lower(name) + ".",
          [name + "s"],
          [],
          Some(RequestBody(true, "Payload to create a new " + Lower(name) + ".", create)),
          CollectionResponses(TextResponseDoc(name + " created successfully."))),
        name, create, None, POST, CollectionPath(name), [], CrudHandler(CreateOp, name))
    }

    /** PUT on the item path, carrying the update schema as its required request body. */
    function UpdateRoute(): (r: Route)
      reads this
      ensures WellFormed(r) && r.handler.op == UpdateOp && r.entity == name
      ensures r.httpMethod == PUT && r.path == ItemPath(name)
      ensures r.updateSchema == update
      ensures r.meta.requestBody.Some? && r.meta.requestBody.value.required
      ensures r.meta.requestBody.value.schema == update
    {
      Route(
        Metadata(
          "Update " + name,
          "This endpoint updates an existing " + Lower(name) + ".",
          [name + "s"],
          [IdParameter],
          Some(RequestBody(true, "Payload to update an existing " + Lower(name) + ".", update)),
          ItemResponses(TextResponseDoc(name + " updated successfully"))),
        name, None, update, PUT, ItemPath(name), [], CrudHandler(UpdateOp, name))
    }

    /** DELETE on the item path, with no request body and no schema. */
    function DeleteRoute(): (r: Route)
      reads this
      ensures WellFormed(r) && r.handler.op == DeleteOp && r.entity == name
      ensures r.httpMethod == DELETE && r.path == ItemPath(name)
    {
      Route(
        Metadata(
          "Delete " + name,
          "This endpoint deletes an existing " + Lower(name) + ".",
          [name + "s"],
          [IdParameter],
          None,
          ItemResponses(TextResponseDoc(name + " deleted successfully."))),
        name, None, None, DELETE, ItemPath(name), [], CrudHandler(DeleteOp, name))
    }

    /** GET on the item path, answering with the success envelope. */
    function GetOneRoute(): (r: Route)
      reads this
      ensures WellFormed(r) && r.handler.op == GetOneOp && r.entity == name
      ensures r.httpMethod == GET && r.path == ItemPath(name)
      ensures r.meta.responses["200"].content == map["application/json" := SuccessSchema]
    {
      Route(
        Metadata(
          "Get " + name,
          "This endpoint retrieves an existing " + Lower(name) + ".",
          [name + "s"],
          [IdParameter],
          None,
          ItemResponses(SuccessResponseDoc(name + " retrieved successfully."))),
        name, None, None, GET, ItemPath(name), [], CrudHandler(GetOneOp, name))
    }

    /** GET on the collection path, answering with the success envelope. */
    function GetAllRoute(): (r: Route)
      reads this
      ensures WellFormed(r) && r.handler.op == GetAllOp && r.entity == name
      ensures r.httpMethod == GET && r.path == CollectionPath(name)
      ensures r.meta.responses["200"].content == map["application/json" := SuccessSchema]
    {
      Route(
        Metadata(
          "Get " + name + "s",
          "This endpoint retrieves a list of " + Lower(name) + "s.",
          [name + "s"],
          [],
          None,
          CollectionResponses(SuccessResponseDoc(name + "'s retrieved successfully."))),
        name, None, None, GET, CollectionPath(name), [], CrudHandler(GetAllOp, name))
    }
  }

}
