# dynamic-crud, modelled in Dafny

dynamic-crud is a Go HTTP service that generates a complete CRUD API for an entity from a
generic builder. The builder (`crudApi`) holds the entity name and two optional payload
schemas. It produces five routes: GetAll, GetOne, Create, Update and Delete. Each route
carries its HTTP method, its path, its OpenAPI metadata and a handler that talks to a
persistence adapter. The HTTP layer (`httpRouter`) consumes one route list in two ways:

- it registers every route with the web framework's router (`InitializeRoutes`);
- it folds the same list into an OpenAPI 3.0.0 document, with a path map and a schema catalog
  (`InitializeOpenAPI`).

The only entity wired up is `User`. Its schemas, and the error and success envelopes, are
package-level constants.

The model has these modules:

| module | file | what it holds |
|---|---|---|
| `Options` | `options.dfy` | the Option type |
| `Strings` | `strings.dfy` | ASCII lower-casing |
| `Schemas` | `schemas.dfy` | schema values built the way the kin-openapi builder calls build them, and the User, create/update, error and success schemas |
| `Routing` | `routing.dfy` | the route record and the path and method conventions |
| `Crud` | `crud_api.dfy` | the builder, as a class with two mutable schema slots and `reads this` route builders; the handler decision logic, as a pure function `Serve` over an abstract adapter and an already-parsed request |
| `Users` | `users.dfy` | `LoadRoutes`, the builder chain for `User` |
| `Http` | `http.dfy` | the placeholder rewrite, the route binder and the document assembler |

`InitializeRoutes` and `InitializeOpenAPI` are methods with loops, as in the source. Each is
proved against a specification function:

- `Bindings` is the registration list the binder is meant to produce;
- `PathsOf` and `CatalogOf` are the path map and schema catalog the assembler is meant to
  produce.

The lemmas about those functions state what the fold means:

- the keys of the path map;
- that the last writer of a method slot wins;
- that skipped routes change nothing;
- that the fixed catalog entries survive.

The model follows what the code does, also where it differs from what the code seems to intend:

- The `name` property of the User schemas uses `WithMin(3)`. This reads like "at least three
  characters", but in kin-openapi it sets the numeric `minimum` keyword, not `minLength`. The
  model records `minimum := Some(3)`, not a length bound of 3.
- Update's 200 description has no trailing period ("User updated successfully"). GetAll's reads
  "User's retrieved successfully.". Both are kept as written.
- Every response map starts from kin-openapi's `NewResponses()` without arguments, which seeds
  a `default` entry with an empty description (in the kin-openapi releases whose `Responses`
  type has `Set`, the ones this code is written against); the routes never remove it, so it is documented
  beside the status codes (`Crud.CollectionResponses`).
- GetAll's response map documents 400, 401 and 403. 401 and 403 appear in every route's map.
  No generated handler ever answers 401 or 403, and GetAll never answers 400
  (`Crud.Serve`, `Crud.PossibleStatuses`).

## Model

| member | source | states |
|---|---|---|
| `Strings.Lower` | internal/crud/crud_api.go:129 | the result has the input's length and contains no upper-case ASCII letter; each letter A-Z becomes its lower-case counterpart (code point plus 32); every other character is kept |
| `Schemas.UserSchemaRequiresEveryProperty` | internal/routing/schemas/user.go:5-19 | the User schema has exactly the properties id, name, email, createdAt and updatedAt, and its required list names exactly those, once each |
| `Schemas.InputSchemasAreUserWithoutSystemFields` | internal/routing/schemas/user.go:21-39 | the create and update schemas are the User properties minus id, createdAt and updatedAt; name and email are both required |
| `Schemas.CreateAndUpdateSchemasAgree` | internal/routing/schemas/user.go:21-39 | the create and update schemas are the same value |
| `Schemas.FieldConstraintsAgree` | internal/routing/schemas/user.go:8-9 | in all three user schemas, name is a string with minimum 3 and email has format email and the one email pattern |
| `Schemas.ErrorSchemaShape` | internal/routing/schemas/response.go:7-15 | the error envelope has exactly the properties error and message, both required, both of format text |
| `Schemas.SuccessSchemaShape` | internal/routing/schemas/response.go:17-28 | the success envelope has item (anyOf User) and items (an array whose items are that same anyOf), and nothing is required |
| `Routing.MethodOf` | internal/crud/crud_api.go:143 | GET serves exactly GetOne and GetAll; POST exactly Create; PUT exactly Update; DELETE exactly Delete |
| `Routing.CollectionPath` | internal/crud/crud_api.go:144 | the collection path is `/` + the lower-cased name + `s`, two characters longer than the name |
| `Routing.ItemPath` | internal/crud/crud_api.go:254 | the item path is the collection path followed by `/:id` |
| `Routing.CollectionAndItemPathsDiffer` | internal/crud/crud_api.go:375 | no collection path equals any item path, whatever the two entity names |
| `Routing.PathsIdentifyNamesUpToCase` | internal/crud/crud_api.go:587 | two entities share a collection path, and an item path, exactly when their names are equal after lower-casing |
| `Routing.GeneratedPathsBraceFree` | internal/crud/crud_api.go:487 | a name without `{` yields paths without `{`, so the rewrite of the binder leaves them alone |
| `Crud.ItemFailure` | internal/crud/crud_api.go:275-286 | an id-scoped handler answers 404 exactly when the adapter reports the not-found sentinel; otherwise it answers 500 |
| `Crud.Serve` | internal/crud/crud_api.go:146-602 | a handler answers only the statuses of its operation; 200 exactly when the body is not an error envelope; 400 exactly when no adapter call was made; at most one adapter call |
| `Crud.ParseFailureIsBadRequest` | internal/crud/crud_api.go:256-273 | a parse failure answers 400 "Bad Request" with the parser's message, and the adapter is not called |
| `Crud.UpdateChecksParamsFirst` | internal/crud/crud_api.go:257-264 | Update reports a bad id even when the body is also malformed |
| `Crud.ParsedRequestMakesOneCall` | internal/crud/crud_api.go:489-501 | once the inputs parse, the handler makes exactly the one adapter call its operation names, with the parsed id and body |
| `Crud.AdapterErrorMapping` | internal/crud/crud_api.go:501-512 | on an adapter error, id-scoped operations answer 404 "The <entity> was not found." for the sentinel; every other error, and every error of Create and GetAll, is a 500 carrying the error text |
| `Crud.SuccessMapping` | internal/crud/crud_api.go:589-602 | on success the handler answers 200: plain `OK` for writes, the record under item for GetOne, the records under items for GetAll |
| `Crud.CollectionOpsNeverNotFound` | internal/crud/crud_api.go:156-161 | Create and GetAll never answer 404, whatever the adapter reports |
| `Crud.CollectionResponses` | internal/crud/crud_api.go:75-124 | a collection route documents exactly the seeded `default` entry (empty description, no content) and 200, 400, 401, 403 and 500; every error entry is the JSON error envelope |
| `Crud.ItemResponses` | internal/crud/crud_api.go:169-228 | an item route documents the collection keys, including the seeded `default` entry, plus 404; every error entry is again the JSON error envelope |
| `Crud.HandlerStatusesDocumented` | internal/crud/crud_api.go:406-518 | every status the handler of a generated route can answer with is a key of that route's response map |
| `Crud.CrudApi.constructor` | internal/crud/crud_api.go:47-60 | a new builder holds the entity name and no payload schema |
| `Crud.CrudApi.AssignCreateSchema` | internal/crud/crud_api.go:62-66 | sets the create slot, leaves the update slot, returns the same builder |
| `Crud.CrudApi.AssignUpdateSchema` | internal/crud/crud_api.go:68-72 | sets the update slot, leaves the create slot, returns the same builder |
| `Crud.CrudApi.CreateRoute` | internal/crud/crud_api.go:74-166 | a well-formed POST route on the collection path; it carries the create schema in its create slot and in a required request body |
| `Crud.CrudApi.UpdateRoute` | internal/crud/crud_api.go:168-292 | a well-formed PUT route on the item path; it carries the update schema in its update slot and in a required request body |
| `Crud.CrudApi.DeleteRoute` | internal/crud/crud_api.go:294-404 | a well-formed DELETE route on the item path, with no request body and no schema |
| `Crud.CrudApi.GetOneRoute` | internal/crud/crud_api.go:406-520 | a well-formed GET route on the item path whose 200 is the JSON success envelope |
| `Crud.CrudApi.GetAllRoute` | internal/crud/crud_api.go:522-604 | a well-formed GET route on the collection path whose 200 is the JSON success envelope |
| `Users.LoadRoutes` | cmd/api/http/routes/users.go:21-39 | five well-formed User routes in the order GetAll, GetOne, Create, Update, Delete; Create and Update carry the User schema |
| `Users.UserRouteListOfRoutes` | cmd/api/http/routes/users.go:32-38 | five well-formed User routes listed in that order make up the User route list |
| `Users.UserRouteMethodsAndPaths` | cmd/api/http/routes/users.go:26-30 | the User routes are GET /users, GET /users/:id, POST /users, PUT /users/:id and DELETE /users/:id, with their handlers and no middleware |
| `Http.DocumentFallbacks` | cmd/api/http/http.go:138-153 | with no variable set, the document is titled "Dynamic CRUD API" 1.0.0 and lists http://localhost:6173 then https://example.com |
| `Http.EnvString` | common/env.go:9-17 | a variable that is set gives its value, even when empty; a variable that is not set gives the fallback |
| `Http.SetVariablesOverride` | common/env.go:9-17 | a variable that is set wins over the fallback, even when it is empty |
| `Http.OperationOf` | cmd/api/http/http.go:69-116 | an operation keeps the route's summary, description, tags, parameters and responses; only POST and PUT keep the request body |
| `Http.AddRoute` | cmd/api/http/http.go:118-135 | a skipped route changes nothing; otherwise only the route's own method slot of its prefixed path is set, a new path gets that slot alone, and every other path and slot is kept |
| `Http.PathsOfKeys` | cmd/api/http/http.go:66-135 | the path map has one key per `/api`-prefixed path of a route that is not skipped, and no other key |
| `Http.SlotIsLastWriter` | cmd/api/http/http.go:122-132 | a method slot holds the operation of the last route that writes that method at that path |
| `Http.SlotEmptyWithoutWriter` | cmd/api/http/http.go:133-135 | a method slot that no route writes stays empty, even at a path that other methods created |
| `Http.SchemaNamesAvoidFixedEntries` | cmd/api/http/http.go:60-64 | Create<Entity> and Update<Entity> never collide with SuccessResponse, ErrorResponse or User |
| `Http.CatalogOfKeys` | cmd/api/http/http.go:78-98 | the catalog holds the three fixed entries plus Create/Update<Entity> for every POST/PUT route that is not skipped, and nothing else |
| `Http.CatalogKeepsFixedEntries` | cmd/api/http/http.go:60-64 | the three fixed entries keep their schemas whatever the routes register |
| `Http.CatalogEntryIsLastSchema` | cmd/api/http/http.go:83-98 | a payload schema name maps to the schema of the last route that registers that name |
| `Http.SkippedRouteChangesNothing` | cmd/api/http/http.go:79-96 | a POST without a create schema, or a PUT without an update schema, changes neither the path map nor the catalog |
| `Http.UserDocPaths` | cmd/api/http/http.go:118 | the User routes are documented under /api/users and /api/users/:id |
| `Http.UserApiPaths` | cmd/api/http/http.go:118-135 | the User document has exactly the two paths /api/users and /api/users/:id |
| `Http.UserCollectionPathItem` | cmd/api/http/http.go:66-135 | /api/users documents GetAll under GET and Create under POST, and nothing under PUT or DELETE |
| `Http.UserItemPathItem` | cmd/api/http/http.go:66-135 | /api/users/:id documents GetOne, Update and Delete under GET, PUT and DELETE, and nothing under POST |
| `Http.UserApiCatalog` | cmd/api/http/http.go:60-98 | the User catalog is SuccessResponse, ErrorResponse, User, CreateUser and UpdateUser; both payload entries are the User schema |
| `Http.IndexOfClose` | cmd/api/http/http.go:42 | the index found is the first `}`, or the length when there is none |
| `Http.ReplacePlaceholders` | cmd/api/http/http.go:42 | the rewrite never lengthens a path and leaves a path without `{` unchanged |
| `Http.ReplaceLeadingPlaceholder` | cmd/api/http/http.go:42 | a leading `{name}` becomes `:name` and the rewrite carries on after it |
| `Http.ReplaceKeepsOtherChar` | cmd/api/http/http.go:42 | a character other than `{` passes through the rewrite |
| `Http.ReplaceKeepsBraceFreePrefix` | cmd/api/http/http.go:42 | a prefix without `{` passes through the rewrite unchanged |
| `Http.ReplaceOnePlaceholder` | cmd/api/http/http.go:42 | a `{name}` after a prefix without `{` becomes `:name`, and the rewrite carries on after it |
| `Http.Binding` | cmd/api/http/http.go:44-53 | a route is registered under its own method, with its middlewares followed by its handler |
| `Http.BindingsInOrder` | cmd/api/http/http.go:41-54 | the i-th registration is the binding of the i-th route |
| `Http.LiveAndDocumentedPaths` | cmd/api/http/http.go:42 | a generated route is registered under its own path, and documented under that path with the `/api` prefix |
| `Http.UserBinding` | cmd/api/http/http.go:46 | a User route with a path that has no placeholder is registered under that path, with its handler alone |
| `Http.UserRouteBindings` | cmd/api/http/http.go:44-53 | each User route is registered under its own method and path, with its handler alone |
| `Http.UserRegistrations` | cmd/api/http/http.go:40-55 | the router receives the five User routes in list order |
| `Http.HttpRouter.constructor` | cmd/api/http/http.go:26-38 | the route table is the User route list |
| `Http.HttpRouter.InitializeRoutes` | cmd/api/http/http.go:40-55 | the router's registrations grow by exactly the bindings of the routes, in order |
| `Http.HttpRouter.InitializeOpenAPI` | cmd/api/http/http.go:57-160 | the document is OpenAPI 3.0.0 with no tags; its paths are the path fold, its schemas the catalog fold, and its info and servers come from the environment with fallbacks |

## Left out

- `Strings.Lower` lower-cases ASCII letters only. Go's `strings.ToLower` also maps non-ASCII
  letters. Every entity name in this system is ASCII.
- `NewCrudApi` takes the entity name from the Go type parameter by reflection. The model's
  constructor takes the name as an argument. The start-up log line is not modelled.
- The persistence adapter (the `Crud[T]` interface over gorm) is abstract: one total function
  per call, returning an error or a value. The SQL it runs, and whether gorm's `Updates` and
  `Delete` ever report the not-found sentinel, are not part of this model. The not-found test is
  `err == gorm.ErrRecordNotFound`, an identity comparison; a wrapped sentinel would be a 500.
  The model's `RecordNotFound` stands for the unwrapped sentinel only.
- Delete passes a zero-valued `*T` to the adapter. The model's delete call carries only the id.
- Fiber's parameter and body parsers are represented only by their outcome: a parsed value or
  an error message. JSON encoding of the responses is not modelled.
- The web framework's router is a stand-in class that records registrations. Handler chains
  are sequences of handler identities; middlewares never run.
- `paths.Find` in kin-openapi also matches a stored path that differs only in the names of its
  `{}` placeholders. The model looks paths up exactly. Generated paths use `:id`, not `{}`
  placeholders, so the two agree on every route this system generates.
- `Http.ReplacePlaceholders` models the regular expression `\{([^}]+)\}` replaced with `:$1`:
  leftmost matches, not overlapping, a non-empty name without `}`. It is proved only for
  paths with a brace-free prefix followed by one placeholder. General properties, such as
  `:`-paths never containing a matched pair, are not stated.
- The environment is a map parameter. `.env` loading by godotenv is not modelled.
- `internal/routing` (the `Route` and `Method` types) is not part of this model. `Route` is
  reconstructed from its uses, and `Method` has only the four values the code switches on.
  A route with any other method would get an empty path item in the source; the model has no
  such route.
- Storage construction, migrations, the User model's Go struct and its validation, and the
  program entry point are outside the modelled core.
- The document's `$ref` indirections (`NewRef`) are modelled as the referenced schema value.
