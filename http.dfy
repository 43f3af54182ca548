/**
 * The API document assembler and the HTTP binder. Both walk the same route list: the assembler
 * folds it into a path map and a schema catalog, the binder registers each route with the router.
 */
module Http {
  import opened Options
  import opened Schemas
  import opened Routing
  import opened Crud
  import opened Users

  // ----- the API document -----

  /** One documented operation of a path. */
  datatype Operation = Operation(
    summary: string,
    description: string,
    tags: seq<string>,
    parameters: seq<Parameter>,
    requestBody: Option<RequestBody>,
    responses: map<string, ResponseDoc>)

  /** The per-method operation slots of one documented path. */
  datatype PathItem = PathItem(
    get: Option<Operation>,
    post: Option<Operation>,
    put: Option<Operation>,
    delete: Option<Operation>)

  const EmptyPathItem := PathItem(None, None, None, None)

  function Slot(item: PathItem, m: Method): Option<Operation>
  {
    match m
    case GET => item.get
    case POST => item.post
    case PUT => item.put
    case DELETE => item.delete
  }

  datatype Info = Info(title: string, version: string)

  datatype Server = Server(url: string, description: string)

  /** An environment variable, or the fallback when the variable is not set (a set but empty variable wins). */
  function EnvString(env: map<string, string>, key: string, fallback: string): (v: string)
    ensures key in env ==> v == env[key]
    ensures key !in env ==> v == fallback
  {
    if key in env then env[key] else fallback
  }

  /** The document's title and version: APP_NAME and APP_VERSION, with their fallbacks. */
  function DocInfo(env: map<string, string>): Info
  {
    Info(EnvString(env, "APP_NAME", "Dynamic CRUD API"), EnvString(env, "APP_VERSION", "1.0.0"))
  }

  /** The document's servers: the local one on APP_PORT, then the production one at APP_BASE_URL. */
  function DocServers(env: map<string, string>): seq<Server>
  {
    [
      Server("http://localhost:" + EnvString(env, "APP_PORT", "6173"), "Development"),
      Server(EnvString(env, "APP_BASE_URL", "https://example.com"), "Production")
    ]
  }

  /** With nothing set, the document falls back to its built-in title, version, port and base URL. */
  lemma DocumentFallbacks()
    ensures DocInfo(map[]) == Info("Dynamic CRUD API", "1.0.0")
    ensures DocServers(map[]) ==
      [Server("http://localhost:6173", "Development"), Server("https://example.com", "Production")]
  {
    assert "http://localhost:" + "6173" == "http://localhost:6173";
  }

  /** A variable that is set always wins over the fallback, even when its value is empty. */
  lemma SetVariablesOverride(env: map<string, string>)
    requires "APP_NAME" in env && "APP_PORT" in env
    ensures DocInfo(env).title == env["APP_NAME"]
    ensures DocServers(env)[0].url == "http://localhost:" + env["APP_PORT"]
  {
  }

  datatype Document = Document(
    openapi: string,
    info: Info,
    servers: seq<Server>,
    tags: seq<string>,
    paths: map<string, PathItem>,
    schemas: map<string, Schema>)

  // ----- what the assembler is meant to compute -----

  /** A POST without a create schema or a PUT without an update schema is left out of the document. */
  predicate Skipped(r: Route)
  {
    || (r.httpMethod == POST && r.createSchema.None?)
    || (r.httpMethod == PUT && r.updateSchema.None?)
  }

  /** Documented paths carry the `/api` prefix; the router registers the bare path. */
  function DocPath(r: Route): string
  {
    "/api" + r.path
  }

  /** The operation a route contributes: only POST and PUT keep the request body. */
  function OperationOf(r: Route): (op: Operation)
    ensures op.requestBody == if r.httpMethod in {POST, PUT} then r.meta.requestBody else None
    ensures op.responses == r.meta.responses && op.parameters == r.meta.parameters
    ensures op.summary == r.meta.summary && op.description == r.meta.description && op.tags == r.meta.tags
  {
    Operation(
      r.meta.summary, r.meta.description, r.meta.tags, r.meta.parameters,
      if r.httpMethod in {POST, PUT} then r.meta.requestBody else None,
      r.meta.responses)
  }

  function SetSlot(item: PathItem, m: Method, op: Operation): (r: PathItem)
    ensures Slot(r, m) == Some(op)
    ensures forall m' :: m' != m ==> Slot(r, m') == Slot(item, m')
  {
    match m
    case GET => item.(get := Some(op))
    case POST => item.(post := Some(op))
    case PUT => item.(put := Some(op))
    case DELETE => item.(delete := Some(op))
  }

  /**
   * One step of the path fold: a skipped route changes nothing; otherwise the route's slot of its
   * path is set, the other slots of that path and every other path stay as they were, and a path
   * seen for the first time gets an entry holding that slot alone.
   */
  function AddRoute(paths: map<string, PathItem>, r: Route): (out: map<string, PathItem>)
    ensures Skipped(r) ==> out == paths
    ensures !Skipped(r) ==> out.Keys == paths.Keys + {DocPath(r)}
    ensures !Skipped(r) ==> Slot(out[DocPath(r)], r.httpMethod) == Some(OperationOf(r))
    ensures !Skipped(r) ==> forall m :: m != r.httpMethod ==>
      Slot(out[DocPath(r)], m) == if DocPath(r) in paths then Slot(paths[DocPath(r)], m) else None
    ensures forall p :: p in paths && p != DocPath(r) ==> out[p] == paths[p]
  {
    if Skipped(r) then paths
    else
      var p := DocPath(r);
      var existing := if p in paths then paths[p] else EmptyPathItem;
      paths[p := SetSlot(existing, r.httpMethod, OperationOf(r))]
  }

  /** The path map of a route list: the routes folded in, in list order. */
  function PathsOf(rs: seq<Route>): map<string, PathItem>
  {
    if rs == [] then map[] else AddRoute(PathsOf(rs[..|rs| - 1]), rs[|rs| - 1])
  }

  /** The three catalog entries present whatever the routes. */
  const FixedCatalog: map<string, Schema> :=
    map["SuccessResponse" := SuccessSchema, "ErrorResponse" := ErrorSchema, "User" := UserSchema]

  /** A POST or PUT that is not skipped registers its payload schema. */
  predicate RegistersSchema(r: Route)
  {
    r.httpMethod in {POST, PUT} && !Skipped(r)
  }

  /** The catalog name of a payload schema: Create<Entity> or Update<Entity>. */
  function SchemaName(r: Route): string
  {
    (if r.httpMethod == POST then "Create" else "Update") + r.entity
  }

  function PayloadSchema(r: Route): Schema
    requires RegistersSchema(r)
  {
    if r.httpMethod == POST then r.createSchema.value else r.updateSchema.value
  }

  function AddSchema(catalog: map<string, Schema>, r: Route): map<string, Schema>
  {
    if RegistersSchema(r) then catalog[SchemaName(r) := PayloadSchema(r)] else catalog
  }

  /** The schema catalog of a route list: the fixed entries plus every registered payload schema. */
  function CatalogOf(rs: seq<Route>): map<string, Schema>
  {
    if rs == [] then FixedCatalog else AddSchema(CatalogOf(rs[..|rs| - 1]), rs[|rs| - 1])
  }

  /** The route at index i writes slot m of documented path p. */
  predicate Writes(r: Route, p: string, m: Method)
  {
    !Skipped(r) && DocPath(r) == p && r.httpMethod == m
  }

  /** The documented paths of a route list: the prefixed paths of its routes that are not skipped. */
  function DocPaths(rs: seq<Route>): set<string>
  {
    set i | 0 <= i < |rs| && !Skipped(rs[i]) :: DocPath(rs[i])
  }

  /** The payload schema names a route list registers. */
  function SchemaNames(rs: seq<Route>): set<string>
  {
    set i | 0 <= i < |rs| && RegistersSchema(rs[i]) :: SchemaName(rs[i])
  }

  /** The path map has exactly one entry per documented path of a route that is not skipped. */
  lemma {:induction false} PathsOfKeys(rs: seq<Route>)
    ensures PathsOf(rs).Keys == DocPaths(rs)
  {
    if rs != [] {
      var n := |rs| - 1;
      var init := rs[..n];
      PathsOfKeys(init);
      forall p | p in DocPaths(rs)
        ensures p in PathsOf(rs)
      {
        var i :| 0 <= i < |rs| && !Skipped(rs[i]) && DocPath(rs[i]) == p;
        if i < n {
          assert init[i] == rs[i];
          assert p in DocPaths(init);
        }
      }
      forall p | p in PathsOf(rs)
        ensures p in DocPaths(rs)
      {
        if p in PathsOf(init) {
          var i :| 0 <= i < n && !Skipped(init[i]) && DocPath(init[i]) == p;
          assert rs[i] == init[i];
        } else {
          assert !Skipped(rs[n]) && p == DocPath(rs[n]);
        }
      }
    }
  }

  /**
   * Last writer wins: the slot of method m at path p holds the operation of the last route that
   * writes it; routes for other methods or paths, and skipped routes, leave it alone.
   */
  lemma {:induction false} SlotIsLastWriter(rs: seq<Route>, p: string, m: Method, i: nat)
    requires i < |rs| && Writes(rs[i], p, m)
    requires forall j :: i < j < |rs| ==> !Writes(rs[j], p, m)
    ensures p in PathsOf(rs) && Slot(PathsOf(rs)[p], m) == Some(OperationOf(rs[i]))
  {
    var n := |rs| - 1;
    var init := rs[..n];
    if i < n {
      forall j | i < j < |init|
        ensures !Writes(init[j], p, m)
      {
        assert init[j] == rs[j];
      }
      assert init[i] == rs[i];
      SlotIsLastWriter(init, p, m, i);
    }
  }

  /** A slot no route writes stays empty, also at a path that other methods put into the map. */
  lemma {:induction false} SlotEmptyWithoutWriter(rs: seq<Route>, p: string, m: Method)
    requires p in PathsOf(rs)
    requires forall j :: 0 <= j < |rs| ==> !Writes(rs[j], p, m)
    ensures Slot(PathsOf(rs)[p], m) == None
  {
    var n := |rs| - 1;
    var init := rs[..n];
    if p in PathsOf(init) {
      forall j | 0 <= j < |init|
        ensures !Writes(init[j], p, m)
      {
        assert init[j] == rs[j];
      }
      SlotEmptyWithoutWriter(init, p, m);
    }
  }

  /** Payload schema names never clash with the fixed catalog entries. */
  lemma SchemaNamesAvoidFixedEntries(r: Route)
    ensures SchemaName(r) !in FixedCatalog
  {
    var name := SchemaName(r);
    assert name[0] == (if r.httpMethod == POST then 'C' else 'U');
    assert name[1] == (if r.httpMethod == POST then 'r' else 'p');
  }

  /** The catalog holds the three fixed entries plus Create/Update<Entity> for every route that registers a schema. */
  lemma {:induction false} CatalogOfKeys(rs: seq<Route>)
    ensures CatalogOf(rs).Keys == FixedCatalog.Keys + SchemaNames(rs)
  {
    if rs != [] {
      var n := |rs| - 1;
      var init := rs[..n];
      CatalogOfKeys(init);
      forall k | k in SchemaNames(rs)
        ensures k in CatalogOf(rs)
      {
        var i :| 0 <= i < |rs| && RegistersSchema(rs[i]) && SchemaName(rs[i]) == k;
        if i < n {
          assert init[i] == rs[i];
          assert k in SchemaNames(init);
        }
      }
      forall k | k in CatalogOf(rs) && k !in FixedCatalog
        ensures k in SchemaNames(rs)
      {
        if k in CatalogOf(init) {
          var i :| 0 <= i < n && RegistersSchema(init[i]) && SchemaName(init[i]) == k;
          assert rs[i] == init[i];
        } else {
          assert RegistersSchema(rs[n]) && k == SchemaName(rs[n]);
        }
      }
    }
  }

  /** The fixed entries keep their schemas whatever the routes register. */
  lemma {:induction false} CatalogKeepsFixedEntries(rs: seq<Route>)
    ensures forall k :: k in FixedCatalog ==> k in CatalogOf(rs) && CatalogOf(rs)[k] == FixedCatalog[k]
  {
    if rs != [] {
      var n := |rs| - 1;
      CatalogKeepsFixedEntries(rs[..n]);
      SchemaNamesAvoidFixedEntries(rs[n]);
    }
  }

  /** A payload schema name maps to the schema of the last route registering that name. */
  lemma {:induction false} CatalogEntryIsLastSchema(rs: seq<Route>, i: nat)
    requires i < |rs| && RegistersSchema(rs[i])
    requires forall j :: i < j < |rs| && RegistersSchema(rs[j]) ==> SchemaName(rs[j]) != SchemaName(rs[i])
    ensures SchemaName(rs[i]) in CatalogOf(rs) && CatalogOf(rs)[SchemaName(rs[i])] == PayloadSchema(rs[i])
  {
    var n := |rs| - 1;
    var init := rs[..n];
    if i < n {
      forall j | i < j < |init| && RegistersSchema(init[j])
        ensures SchemaName(init[j]) != SchemaName(init[i])
      {
        assert init[j] == rs[j];
      }
      assert init[i] == rs[i];
      CatalogEntryIsLastSchema(init, i);
    }
  }

  /** A skipped route leaves both the path map and the catalog exactly as they were. */
  lemma SkippedRouteChangesNothing(rs: seq<Route>, r: Route)
    requires Skipped(r)
    ensures PathsOf(rs + [r]) == PathsOf(rs)
    ensures CatalogOf(rs + [r]) == CatalogOf(rs)
  {
    assert (rs + [r])[..|rs|] == rs;
  }

  /** The User routes document their paths under /api. */
  lemma UserDocPaths(rs: seq<Route>)
    requires UserRouteShape(rs)
    ensures DocPath(rs[0]) == DocPath(rs[2]) == "/api/users"
    ensures DocPath(rs[1]) == DocPath(rs[3]) == DocPath(rs[4]) == "/api/users/:id"
  {
    assert "/api" + "/users" == "/api/users";
    assert "/api" + "/users/:id" == "/api/users/:id";
  }

  /** The User routes document exactly two paths, /api/users and /api/users/:id. */
  lemma UserApiPaths(rs: seq<Route>)
    requires UserRouteShape(rs)
    ensures PathsOf(rs).Keys == {"/api/users", "/api/users/:id"}
  {
    UserDocPaths(rs);
    PathsOfKeys(rs);
    var d := DocPaths(rs);
    forall p | p in d
      ensures p == "/api/users" || p == "/api/users/:id"
    {
      var i :| 0 <= i < |rs| && !Skipped(rs[i]) && DocPath(rs[i]) == p;
      assert i == 0 || i == 1 || i == 2 || i == 3 || i == 4;
    }
    assert !Skipped(rs[0]) && !Skipped(rs[1]);
    assert DocPath(rs[0]) in d && DocPath(rs[1]) in d;
  }

  /** /api/users documents GetAll under GET and Create under POST, and nothing under PUT or DELETE. */
  lemma UserCollectionPathItem(rs: seq<Route>)
    requires UserRouteShape(rs)
    ensures "/api/users" in PathsOf(rs)
    ensures var c := PathsOf(rs)["/api/users"];
      c.get == Some(OperationOf(rs[0])) && c.post == Some(OperationOf(rs[2])) && c.put == None && c.delete == None
  {
    var p := "/api/users";
    UserDocPaths(rs);
    SlotIsLastWriter(rs, p, GET, 0);
    SlotIsLastWriter(rs, p, POST, 2);
    SlotEmptyWithoutWriter(rs, p, PUT);
    SlotEmptyWithoutWriter(rs, p, DELETE);
  }

  /** /api/users/:id documents GetOne under GET, Update under PUT and Delete under DELETE, and nothing under POST. */
  lemma UserItemPathItem(rs: seq<Route>)
    requires UserRouteShape(rs)
    ensures "/api/users/:id" in PathsOf(rs)
    ensures var it := PathsOf(rs)["/api/users/:id"];
      && it.get == Some(OperationOf(rs[1])) && it.put == Some(OperationOf(rs[3]))
      && it.delete == Some(OperationOf(rs[4])) && it.post == None
  {
    var p := "/api/users/:id";
    UserDocPaths(rs);
    SlotIsLastWriter(rs, p, GET, 1);
    SlotIsLastWriter(rs, p, PUT, 3);
    SlotIsLastWriter(rs, p, DELETE, 4);
    SlotEmptyWithoutWriter(rs, p, POST);
  }

  /** The User catalog gains CreateUser and UpdateUser, both the full User schema, beside the fixed entries. */
  lemma UserApiCatalog(rs: seq<Route>)
    requires UserRouteShape(rs)
    ensures CatalogOf(rs).Keys == {"SuccessResponse", "ErrorResponse", "User", "CreateUser", "UpdateUser"}
    ensures CatalogOf(rs)["CreateUser"] == UserSchema && CatalogOf(rs)["UpdateUser"] == UserSchema
  {
    assert SchemaName(rs[2]) == "CreateUser" && SchemaName(rs[3]) == "UpdateUser";
    assert !RegistersSchema(rs[0]) && !RegistersSchema(rs[1]) && !RegistersSchema(rs[4]);
    assert RegistersSchema(rs[2]) && RegistersSchema(rs[3]);
    CatalogOfKeys(rs);
    var names := SchemaNames(rs);
    forall k | k in names
      ensures k == "CreateUser" || k == "UpdateUser"
    {
      var i :| 0 <= i < |rs| && RegistersSchema(rs[i]) && SchemaName(rs[i]) == k;
      assert i == 2 || i == 3;
    }
    assert SchemaName(rs[2]) in names && SchemaName(rs[3]) in names;
    CatalogEntryIsLastSchema(rs, 2);
    CatalogEntryIsLastSchema(rs, 3);
  }

  // ----- the path-placeholder rewrite -----

  /** The index of the first `}` in s, or |s| when s has none. */
  function IndexOfClose(s: string): (k: nat)
    ensures k <= |s|
    ensures k < |s| ==> s[k] == '}'
    ensures forall j :: 0 <= j < k ==> s[j] != '}'
  {
    if s == [] || s[0] == '}' then 0 else 1 + IndexOfClose(s[1..])
  }

  /**
   * Rewrites every `{name}` (a non-empty name without `}`) to `:name`, scanning left to right
   * and resuming after each rewrite, as a regular-expression replace-all does.
   */
  function ReplacePlaceholders(s: string): (r: string)
    ensures |r| <= |s|
    ensures '{' !in s ==> r == s
    decreases |s|
  {
    if s == [] then []
    else
      var k := IndexOfClose(s[1..]);
      if s[0] == '{' && 1 <= k < |s| - 1 then
        [':'] + s[1..k + 1] + ReplacePlaceholders(s[k + 2..])
      else
        [s[0]] + ReplacePlaceholders(s[1..])
  }

  /** A leading `{name}` is rewritten to `:name`, and the rewrite carries on after it. */
  lemma ReplaceLeadingPlaceholder(x: string, q: string)
    requires |x| > 0 && '}' !in x
    ensures ReplacePlaceholders("{" + x + "}" + q) == ":" + x + ReplacePlaceholders(q)
  {
    var s := "{" + x + "}" + q;
    var t := s[1..];
    assert t == x + "}" + q;
    assert t[|x|] == '}';
    var k := IndexOfClose(t);
    assert k == |x|;
    assert s[1..k + 1] == x;
    assert s[k + 2..] == q;
  }

  /** A character other than `{` passes through the rewrite unchanged. */
  lemma ReplaceKeepsOtherChar(c: char, t: string)
    requires c != '{'
    ensures ReplacePlaceholders([c] + t) == [c] + ReplacePlaceholders(t)
  {
    assert ([c] + t)[1..] == t;
  }

  /** A brace-free prefix passes through the rewrite unchanged. */
  lemma {:induction false} ReplaceKeepsBraceFreePrefix(p: string, t: string)
    requires '{' !in p
    ensures ReplacePlaceholders(p + t) == p + ReplacePlaceholders(t)
  {
    if p == [] {
      assert p + t == t;
    } else {
      var tail := p[1..] + t;
      var r := ReplacePlaceholders(t);
      calc {
        ReplacePlaceholders(p + t);
      == { assert p + t == [p[0]] + tail; }
        ReplacePlaceholders([p[0]] + tail);
      == { ReplaceKeepsOtherChar(p[0], tail); }
        [p[0]] + ReplacePlaceholders(tail);
      == { ReplaceKeepsBraceFreePrefix(p[1..], t); }
        [p[0]] + (p[1..] + r);
      == { assert p == [p[0]] + p[1..]; }
        p + r;
      }
    }
  }

  /** A placeholder after a brace-free prefix is rewritten to `:name`, and the rewrite carries on after it. */
  lemma ReplaceOnePlaceholder(p: string, x: string, q: string)
    requires '{' !in p && |x| > 0 && '}' !in x
    ensures ReplacePlaceholders(p + ("{" + x + "}" + q)) == p + (":" + x + ReplacePlaceholders(q))
  {
    ReplaceKeepsBraceFreePrefix(p, "{" + x + "}" + q);
    ReplaceLeadingPlaceholder(x, q);
  }

  // ----- the router the binder registers with -----

  /** One registration: method, router path and the handler chain (middlewares, then the handler). */
  datatype Registration = Registration(httpMethod: Method, path: string, chain: seq<Handler>)

  /** The HTTP router, seen only through the registrations it receives. */
  class Router {
    var registrations: seq<Registration>

    constructor ()
      ensures registrations == []
    {
      registrations := [];
    }

    method Get(path: string, chain: seq<Handler>)
      modifies this
      ensures registrations == old(registrations) + [Registration(GET, path, chain)]
    {
      registrations := registrations + [Registration(GET, path, chain)];
    }

    method Post(path: string, chain: seq<Handler>)
      modifies this
      ensures registrations == old(registrations) + [Registration(POST, path, chain)]
    {
      registrations := registrations + [Registration(POST, path, chain)];
    }

    method Put(path: string, chain: seq<Handler>)
      modifies this
      ensures registrations == old(registrations) + [Registration(PUT, path, chain)]
    {
      registrations := registrations + [Registration(PUT, path, chain)];
    }

    method Delete(path: string, chain: seq<Handler>)
      modifies this
      ensures registrations == old(registrations) + [Registration(DELETE, path, chain)]
    {
      registrations := registrations + [Registration(DELETE, path, chain)];
    }
  }

  /** The registration a route receives: its method, its rewritten path, its middlewares then its handler. */
  function Binding(r: Route): (b: Registration)
    ensures b.httpMethod == r.httpMethod && |b.chain| == |r.middlewares| + 1
    ensures b.chain[|b.chain| - 1] == r.handler
    ensures b.chain[..|r.middlewares|] == r.middlewares
  {
    Registration(r.httpMethod, ReplacePlaceholders(r.path), r.middlewares + [r.handler])
  }

  /** The registrations of a route list, in list order. */
  function Bindings(rs: seq<Route>): seq<Registration>
  {
    if rs == [] then [] else Bindings(rs[..|rs| - 1]) + [Binding(rs[|rs| - 1])]
  }

  /** The i-th registration is the binding of the i-th route. */
  lemma {:induction false} BindingsInOrder(rs: seq<Route>)
    ensures |Bindings(rs)| == |rs|
    ensures forall i :: 0 <= i < |rs| ==> Bindings(rs)[i] == Binding(rs[i])
  {
    if rs != [] {
      var n := |rs| - 1;
      var init := rs[..n];
      BindingsInOrder(init);
      var b := Bindings(rs);
      assert b == Bindings(init) + [Binding(rs[n])];
      forall i | 0 <= i < |rs|
        ensures b[i] == Binding(rs[i])
      {
        if i < n {
          assert init[i] == rs[i];
        }
      }
    }
  }

  /**
   * A generated route whose entity name has no brace is registered under its own path, and
   * documented under that path with the `/api` prefix.
   */
  lemma LiveAndDocumentedPaths(r: Route)
    requires WellFormed(r) && '{' !in r.entity
    ensures Binding(r).path == r.path
    ensures DocPath(r) == "/api" + Binding(r).path
  {
    GeneratedPathsBraceFree(r.entity);
  }

  /** A User route whose path has no placeholder is registered under that path, with its handler alone. */
  lemma UserBinding(r: Route, m: Method, path: string, op: CrudOp)
    requires IsUserRoute(r, m, path, op) && '{' !in path
    ensures Binding(r) == Registration(m, path, [CrudHandler(op, "User")])
  {
    assert r.middlewares + [r.handler] == [CrudHandler(op, "User")];
  }

  /** Each User route is registered under its own path, with its handler alone as its chain. */
  lemma UserRouteBindings(rs: seq<Route>)
    requires UserRouteShape(rs)
    ensures Binding(rs[0]) == Registration(GET, "/users", [CrudHandler(GetAllOp, "User")])
    ensures Binding(rs[1]) == Registration(GET, "/users/:id", [CrudHandler(GetOneOp, "User")])
    ensures Binding(rs[2]) == Registration(POST, "/users", [CrudHandler(CreateOp, "User")])
    ensures Binding(rs[3]) == Registration(PUT, "/users/:id", [CrudHandler(UpdateOp, "User")])
    ensures Binding(rs[4]) == Registration(DELETE, "/users/:id", [CrudHandler(DeleteOp, "User")])
  {
    assert '{' !in "/users" && '{' !in "/users/:id";
    UserBinding(rs[0], GET, "/users", GetAllOp);
    UserBinding(rs[1], GET, "/users/:id", GetOneOp);
    UserBinding(rs[2], POST, "/users", CreateOp);
    UserBinding(rs[3], PUT, "/users/:id", UpdateOp);
    UserBinding(rs[4], DELETE, "/users/:id", DeleteOp);
  }

  /** The router receives the five User routes in list order. */
  lemma UserRegistrations(rs: seq<Route>)
    requires UserRouteShape(rs)
    ensures Bindings(rs) == [
      Registration(GET, "/users", [CrudHandler(GetAllOp, "User")]),
      Registration(GET, "/users/:id", [CrudHandler(GetOneOp, "User")]),
      Registration(POST, "/users", [CrudHandler(CreateOp, "User")]),
      Registration(PUT, "/users/:id", [CrudHandler(UpdateOp, "User")]),
      Registration(DELETE, "/users/:id", [CrudHandler(DeleteOp, "User")])]
  {
    UserRouteBindings(rs);
    BindingsInOrder(rs);
    var b := Bindings(rs);
    assert b[0] == Binding(rs[0]) && b[1] == Binding(rs[1]) && b[2] == Binding(rs[2]);
    assert b[3] == Binding(rs[3]) && b[4] == Binding(rs[4]);
    FiveElements(b);
  }

  /** A sequence of five elements is the display of its elements. */
  lemma FiveElements<T>(s: seq<T>)
    requires |s| == 5
    ensures s == [s[0], s[1], s[2], s[3], s[4]]
  {
  }

  // ----- the assembler and the binder -----

  class HttpRouter {
    const routes: seq<Route>

    /** The route table: the User routes. */
    constructor ()
      ensures IsUserRouteList(routes)
    {
      var usersRoutes := LoadRoutes();
      routes := [] + usersRoutes;
    }

    /** Registers every route with the router, in list order, under its rewritten path. */
    method InitializeRoutes(router: Router)
      modifies router
      ensures router.registrations == old(router.registrations) + Bindings(routes)
    {
      for i := 0 to |routes|
        invariant router.registrations == old(router.registrations) + Bindings(routes[..i])
      {
        assert routes[..i + 1][..i] == routes[..i];
        var route := routes[i];
        var path := ReplacePlaceholders(route.path);
        match route.httpMethod {
          case GET => router.Get(path, route.middlewares + [route.handler]);
          case POST => router.Post(path, route.middlewares + [route.handler]);
          case PUT => router.Put(path, route.middlewares + [route.handler]);
          case DELETE => router.Delete(path, route.middlewares + [route.handler]);
        }
      }
      assert routes[..|routes|] == routes;
    }

    /** Builds the API document: the routes folded into the path map and the schema catalog. */
    method InitializeOpenAPI(env: map<string, string>) returns (doc: Document)
      ensures doc.paths == PathsOf(routes)
      ensures doc.schemas == CatalogOf(routes)
      ensures doc.openapi == "3.0.0" && doc.info == DocInfo(env) && doc.servers == DocServers(env)
      ensures doc.tags == []
    {
      var paths: map<string, PathItem> := map[];
      var schemas: map<string, Schema> :=
        map["SuccessResponse" := SuccessSchema, "ErrorResponse" := ErrorSchema, "User" := UserSchema];

      for i := 0 to |routes|
        invariant paths == PathsOf(routes[..i])
        invariant schemas == CatalogOf(routes[..i])
      {
        assert routes[..i + 1][..i] == routes[..i];
        var route := routes[i];
        var m := route.meta;
        var item := EmptyPathItem;
        match route.httpMethod {
          case GET =>
            item := item.(get := Some(Operation(m.summary, m.description, m.tags, m.parameters, None, m.responses)));
          case POST =>
            if route.createSchema.None? {
              continue;
            }
            schemas := schemas["Create" + route.entity := route.createSchema.value];
            item := item.(post := Some(Operation(m.summary, m.description, m.tags, m.parameters, m.requestBody, m.responses)));
          case PUT =>
            if route.updateSchema.None? {
              continue;
            }
            schemas := schemas["Update" + route.entity := route.updateSchema.value];
            item := item.(put := Some(Operation(m.summary, m.description, m.tags, m.parameters, m.requestBody, m.responses)));
          case DELETE =>
            item := item.(delete := Some(Operation(m.summary, m.description, m.tags, m.parameters, None, m.responses)));
        }

        var path := "/api" + route.path;
        if path in paths {
          var existing := paths[path];
          match route.httpMethod {
            case GET => paths := paths[path := existing.(get := item.get)];
            case POST => paths := paths[path := existing.(post := item.post)];
            case PUT => paths := paths[path := existing.(put := item.put)];
            case DELETE => paths := paths[path := existing.(delete := item.delete)];
          }
        } else {
          paths := paths[path := item];
        }
      }
      assert routes[..|routes|] == routes;

      doc := Document(
        "3.0.0",
        Info(EnvString(env, "APP_NAME", "Dynamic CRUD API"), EnvString(env, "APP_VERSION", "1.0.0")),
        [
          Server("http://localhost:" + EnvString(env, "APP_PORT", "6173"), "Development"),
          Server(EnvString(env, "APP_BASE_URL", "https://example.com"), "Production")
        ],
        [],
        paths,
        schemas);
    }
  }

}
