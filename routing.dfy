/**
 * The route record every generator produces and both the document assembler and the
 * HTTP binder consume, together with the naming conventions for its paths.
 */
module Routing {
  import opened Options
  import opened Strings
  import opened Schemas

  datatype Method = GET | POST | PUT | DELETE

  /** The five operations generated for every entity. */
  datatype CrudOp = CreateOp | UpdateOp | DeleteOp | GetOneOp | GetAllOp

  /** A request handler: the generated operation it runs and the entity it was generated for. */
  datatype Handler = CrudHandler(op: CrudOp, entity: string)

  datatype Parameter = Parameter(name: string, location: string, required: bool, schema: Schema)

  /** A request body; `schema` is None when the route was built before a schema was assigned. */
  datatype RequestBody = RequestBody(required: bool, description: string, schema: Option<Schema>)

  /** One documented response: its description and a schema per media type. */
  datatype ResponseDoc = ResponseDoc(description: string, content: map<string, Schema>)

  /** The documentation half of a route; `responses` is keyed by the status code as text. */
  datatype Metadata = Metadata(
    summary: string,
    description: string,
    tags: seq<string>,
    parameters: seq<Parameter>,
    requestBody: Option<RequestBody>,
    responses: map<string, ResponseDoc>)

  datatype Route = Route(
    meta: Metadata,
    entity: string,
    createSchema: Option<Schema>,
    updateSchema: Option<Schema>,
    httpMethod: Method,
    path: string,
    middlewares: seq<Handler>,
    handler: Handler)

  /** Operations addressed at one record by its id. */
  predicate IsItemOp(op: CrudOp)
  {
    op in {UpdateOp, DeleteOp, GetOneOp}
  }

  /** The HTTP method each generated operation is served under. */
  function MethodOf(op: CrudOp): (m: Method)
    ensures m == GET <==> op in {GetOneOp, GetAllOp}
    ensures m == POST <==> op == CreateOp
    ensures m == PUT <==> op == UpdateOp
    ensures m == DELETE <==> op == DeleteOp
  {
    match op
    case CreateOp => POST
    case UpdateOp => PUT
    case DeleteOp => DELETE
    case GetOneOp => GET
    case GetAllOp => GET
  }

  /** The collection path of an entity: its lower-cased name, naively pluralised with "s". */
  function CollectionPath(name: string): (p: string)
    ensures |p| == |name| + 2 && p[0] == '/' && p[|p| - 1] == 's'
  {
    "/" + Lower(name) + "s"
  }

  /** The item path of an entity: the collection path followed by the `:id` segment. */
  function ItemPath(name: string): (p: string)
    ensures |p| == |name| + 6 && p[0] == '/' && p[|p| - 1] == 'd'
    ensures p[..|name| + 2] == CollectionPath(name)
  {
    CollectionPath(name) + "/:id"
  }

  /** The path a generated operation is served at. */
  function PathOf(op: CrudOp, name: string): string
  {
    if IsItemOp(op) then ItemPath(name) else CollectionPath(name)
  }

  /** The one parameter of an item route: the required path parameter `id`, a UUID. */
  const IdParameter := Parameter("id", "path", true, UUIDSchema)

  /**
   * The response keys every route documents: the `default` entry the empty response map starts
   * with, and the statuses; 401 and 403 are reserved for middleware.
   */
  const CollectionStatusKeys: set<string> := {"default", "200", "400", "401", "403", "500"}

  /** Item routes document 404 as well. */
  const ItemStatusKeys: set<string> := CollectionStatusKeys + {"404"}

  /** A collection path and an item path never coincide, whatever the two entity names. */
  lemma CollectionAndItemPathsDiffer(a: string, b: string)
    ensures CollectionPath(a) != ItemPath(b)
  {
  }

  /** Two entities share a collection path, and an item path, exactly when their names agree up to case. */
  lemma PathsIdentifyNamesUpToCase(a: string, b: string)
    ensures CollectionPath(a) == CollectionPath(b) <==> Lower(a) == Lower(b)
    ensures ItemPath(a) == ItemPath(b) <==> Lower(a) == Lower(b)
  {
    if CollectionPath(a) == CollectionPath(b) {
      assert Lower(a) == CollectionPath(a)[1..|a| + 1];
      assert Lower(b) == CollectionPath(b)[1..|b| + 1];
    }
    if ItemPath(a) == ItemPath(b) {
      assert |a| == |b|;
      assert CollectionPath(a) == ItemPath(a)[..|a| + 2];
      assert CollectionPath(b) == ItemPath(b)[..|b| + 2];
      assert Lower(a) == CollectionPath(a)[1..|a| + 1];
      assert Lower(b) == CollectionPath(b)[1..|b| + 1];
    }
  }

  /** Generated paths contain a brace only if the entity name does. */
  lemma GeneratedPathsBraceFree(name: string)
    requires '{' !in name
    ensures '{' !in CollectionPath(name) && '{' !in ItemPath(name)
  {
    LowerKeepsNonLetters(name, '{');
  }

}
