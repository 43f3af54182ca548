/** The route list of the User entity: the builder chain and the five routes in their fixed order. */
module Users {
  import opened Options
  import opened Strings
  import opened Schemas
  import opened Routing
  import opened Crud

  /**
   * The User routes as wired: GetAll, GetOne, Create, Update, Delete, all generated for "User",
   * with the full User schema in both payload slots.
   */
  predicate IsUserRouteList(rs: seq<Route>)
  {
    && |rs| == 5
    && (forall i :: 0 <= i < |rs| ==> WellFormed(rs[i]) && rs[i].entity == "User")
    && rs[0].handler.op == GetAllOp
    && rs[1].handler.op == GetOneOp
    && rs[2].handler.op == CreateOp
    && rs[3].handler.op == UpdateOp
    && rs[4].handler.op == DeleteOp
    && rs[2].createSchema == Some(UserSchema)
    && rs[3].updateSchema == Some(UserSchema)
  }

  /** Builds the User CRUD builder, assigns UserSchema to both payload slots and lists its five routes. */
  method LoadRoutes() returns (routes: seq<Route>)
    ensures IsUserRouteList(routes)
  {
    var api := new CrudApi("User");
    api := api.AssignCreateSchema(Some(UserSchema));
    api := api.AssignUpdateSchema(Some(UserSchema));

    var getAllRoute := api.GetAllRoute();
    var getOneRoute := api.GetOneRoute();
    var createRoute := api.CreateRoute();
    var updateRoute := api.UpdateRoute();
    var deleteRoute := api.DeleteRoute();

    routes := [getAllRoute, getOneRoute, createRoute, updateRoute, deleteRoute];
    UserRouteListOfRoutes(getAllRoute, getOneRoute, createRoute, updateRoute, deleteRoute);
  }

  /** Five well-formed User routes in the order GetAll, GetOne, Create, Update, Delete form the User route list. */
  lemma UserRouteListOfRoutes(getAll: Route, getOne: Route, create: Route, update: Route, delete: Route)
    requires WellFormed(getAll) && getAll.entity == "User" && getAll.handler.op == GetAllOp
    requires WellFormed(getOne) && getOne.entity == "User" && getOne.handler.op == GetOneOp
    requires WellFormed(create) && create.entity == "User" && create.handler.op == CreateOp
    requires WellFormed(update) && update.entity == "User" && update.handler.op == UpdateOp
    requires WellFormed(delete) && delete.entity == "User" && delete.handler.op == DeleteOp
    requires create.createSchema == Some(UserSchema) && update.updateSchema == Some(UserSchema)
    ensures IsUserRouteList([getAll, getOne, create, update, delete])
  {
    var rs := [getAll, getOne, create, update, delete];
    forall i | 0 <= i < |rs|
      ensures WellFormed(rs[i]) && rs[i].entity == "User"
    {
      assert i == 0 || i == 1 || i == 2 || i == 3 || i == 4;
    }
  }

  lemma LowerUser()
    ensures Lower("User") == "user"
  {
    var l := Lower("User");
    assert l[0] == 'u' && l[1] == 's' && l[2] == 'e' && l[3] == 'r';
  }

  /** One User route: its method, its path and its handler, with no middleware. */
  predicate IsUserRoute(r: Route, m: Method, path: string, op: CrudOp)
  {
    && r.httpMethod == m
    && r.path == path
    && r.handler == CrudHandler(op, "User")
    && r.entity == "User"
    && r.middlewares == []
  }

  /**
   * The User route table as the binder and the assembler see it: methods, paths, handlers and
   * payload schemas of the five routes, in order.
   */
  predicate UserRouteShape(rs: seq<Route>)
  {
    && |rs| == 5
    && IsUserRoute(rs[0], GET, "/users", GetAllOp)
    && IsUserRoute(rs[1], GET, "/users/:id", GetOneOp)
    && IsUserRoute(rs[2], POST, "/users", CreateOp)
    && IsUserRoute(rs[3], PUT, "/users/:id", UpdateOp)
    && IsUserRoute(rs[4], DELETE, "/users/:id", DeleteOp)
    && rs[2].createSchema == Some(UserSchema)
    && rs[3].updateSchema == Some(UserSchema)
  }

  /** The User routes are served at /users (GetAll, Create) and /users/:id (GetOne, Update, Delete). */
  lemma UserRouteMethodsAndPaths(rs: seq<Route>)
    requires IsUserRouteList(rs)
    ensures UserRouteShape(rs)
  {
    LowerUser();
    assert CollectionPath("User") == "/users";
    assert ItemPath("User") == "/users/:id";
    assert WellFormed(rs[0]) && WellFormed(rs[1]) && WellFormed(rs[2]) && WellFormed(rs[3]) && WellFormed(rs[4]);
  }

}
