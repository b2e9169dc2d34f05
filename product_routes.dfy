/**
 * The catalog router: its route table in registration order, and what a
 * request meets on the way to a handler (the `verify` gate on guarded routes).
 */
module ProductRoutes {
  import opened Wrappers
  import opened Routing
  import AccessGate

  datatype Handler = CreateProduct | GetProducts | GetProduct | UpdateProduct | DeleteProduct | GetSellerProduct

  /** The registrations, in order. */
  const Table: seq<Route<Handler>> := [
    Route(Post, "/", true, CreateProduct),
    Route(Get, "/", false, GetProducts),
    Route(Get, "/:id", false, GetProduct),
    Route(Patch, "/", true, UpdateProduct),
    Route(Delete, "/:id", true, DeleteProduct),
    Route(Get, "/seller", true, GetSellerProduct)
  ]

  /** Fills a fresh router the way the module's top level does. */
  method Build() returns (router: Router<Handler>)
    ensures fresh(router)
    ensures router.routes == Table
  {
    router := new Router();
    router.Register(Post, "/", true, CreateProduct);
    router.Register(Get, "/", false, GetProducts);
    router.Register(Get, "/:id", false, GetProduct);
    router.Register(Patch, "/", true, UpdateProduct);
    router.Register(Delete, "/:id", true, DeleteProduct);
    router.Register(Get, "/seller", true, GetSellerProduct);
  }

  /** The handlers that change the catalog. */
  predicate Mutates(h: Handler) {
    h == CreateProduct || h == UpdateProduct || h == DeleteProduct
  }

  /** The compiled patterns of the table. */
  lemma TablePatterns()
    ensures PatternOf("/") == []
    ensures PatternOf("/:id") == [Param("id")]
    ensures PatternOf("/seller") == [Literal("seller")]
  {
    RootSegments();
    SegmentsOfWords([":id"]);
    assert "/" + Text.Join([":id"], '/') == "/:id";
    SegmentsOfWords(["seller"]);
    assert "/" + Text.Join(["seller"], '/') == "/seller";
    assert ToSegment(":id") == Param("id");
  }

  /** `verify` guards exactly the create, update, delete and seller-listing routes. */
  lemma GuardedRoutes()
    ensures forall i :: 0 <= i < |Table| ==>
      (Table[i].guarded <==> Table[i].handler in {CreateProduct, UpdateProduct, DeleteProduct, GetSellerProduct})
    ensures forall i :: 0 <= i < |Table| && Table[i].verb != Get ==> Table[i].guarded
  {
  }

  lemma SellerSegments()
    ensures PathSegments("/seller") == ["seller"]
  {
    SegmentsOfWords(["seller"]);
    assert "/" + Text.Join(["seller"], '/') == "/seller";
  }

  /** A request for `/seller` is captured by `GET /:id`, which has no gate, with `id` bound to "seller". */
  lemma SellerPathCapturedById()
    ensures Dispatch(Table, Get, "/seller") == Some(Dispatched(2, map["id" := "seller"]))
    ensures Table[2].handler == GetProduct && !Table[2].guarded
  {
    TablePatterns();
    SellerSegments();
    assert MatchSegments([Param("id")], ["seller"]) == Some(map["id" := "seller"]);
    assert Matches(Table[2], Get, "/seller");
    assert !Matches(Table[0], Get, "/seller");
    assert !Matches(Table[1], Get, "/seller");
    var d := Dispatch(Table, Get, "/seller");
    assert d.Some?;
    assert d.value.index == 2;
  }

  /** Whatever the seller listing's pattern matches, `GET /:id`'s pattern matches too. */
  lemma SellerMatchImpliesIdMatch(verb: Verb, path: string)
    requires Matches(Table[5], verb, path)
    ensures Matches(Table[2], verb, path)
  {
    TablePatterns();
    var segments := PathSegments(path);
    assert MatchSegments([Literal("seller")], segments).Some?;
    assert segments == ["seller"];
    assert MatchSegments([Param("id")], segments).Some?;
  }

  /** No request whatsoever reaches the seller listing: whatever it would match, `GET /:id` matches first. */
  lemma SellerListingUnreachable(verb: Verb, path: string)
    ensures Dispatch(Table, verb, path).Some? ==> Dispatch(Table, verb, path).value.index != 5
  {
    if Matches(Table[5], verb, path) {
      SellerMatchImpliesIdMatch(verb, path);
    }
  }

  /** The update route is registered on "/", so an update request never carries an `id`. */
  lemma UpdateCarriesNoId(path: string)
    ensures Dispatch(Table, Patch, path).Some? ==> Dispatch(Table, Patch, path).value == Dispatched(3, map[])
  {
    TablePatterns();
    var d := Dispatch(Table, Patch, path);
    if d.Some? {
      assert d.value.index == 3;
      assert MatchSegments([], PathSegments(path)) == Some(map[]);
    }
  }

  /** What a request meets: no route (Express answers 404 itself), the gate's rejection, or its handler. */
  datatype Served =
    | NoRoute
    | Refused(status: int, message: string)
    | Invoked(handler: Handler, params: map<string, string>, sellerId: Option<string>)

  /** Dispatch, then `verify` on a guarded route, then the handler. */
  function Serve(verb: Verb, path: string, req: AccessGate.Request,
                 jwtVerify: string -> AccessGate.Verification): (s: Served)
    ensures s.NoRoute? <==> Dispatch(Table, verb, path).None?
    ensures s.Invoked? ==> s.handler == Table[Dispatch(Table, verb, path).value.index].handler
    ensures s.Refused? ==> AccessGate.Verify(req, jwtVerify) == AccessGate.Reject(s.status, s.message)
    ensures Dispatch(Table, verb, path).Some? && !Table[Dispatch(Table, verb, path).value.index].guarded ==>
      var d := Dispatch(Table, verb, path).value;
      s == Invoked(Table[d.index].handler, d.params, None)
    ensures Dispatch(Table, verb, path).Some? && Table[Dispatch(Table, verb, path).value.index].guarded ==>
      (s.Invoked? <==> AccessGate.Verify(req, jwtVerify).Proceed?)
  {
    match Dispatch(Table, verb, path)
    case None => NoRoute
    case Some(d) =>
      var route := Table[d.index];
      if !route.guarded then Invoked(route.handler, d.params, None)
      else
        match AccessGate.Verify(req, jwtVerify)
        case Reject(status, message) => Refused(status, message)
        case Proceed(sellerId) => Invoked(route.handler, d.params, sellerId)
  }

  /** Every catalog change passes the seller gate first, and runs with the seller id the gate recorded. */
  lemma MutationsPassTheGate(verb: Verb, path: string, req: AccessGate.Request,
                             jwtVerify: string -> AccessGate.Verification)
    requires Serve(verb, path, req, jwtVerify).Invoked? && Mutates(Serve(verb, path, req, jwtVerify).handler)
    ensures AccessGate.Verify(req, jwtVerify).Proceed?
    ensures Serve(verb, path, req, jwtVerify).sellerId == AccessGate.Verify(req, jwtVerify).sellerId
  {
    GuardedRoutes();
  }
}
