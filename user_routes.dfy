/**
 * The identity router: its route table in registration order. The `verify`
 * it guards routes with is the identity service's own middleware, which is
 * not part of this model; only which routes it guards is.
 */
module UserRoutes {
  import opened Wrappers
  import opened Routing
  import Text

  datatype Handler = RegisterUser | Login | GetMe | Logout | GetAddresses | AddAddress | DeleteAddress

  /** The registrations, in order. */
  const Table: seq<Route<Handler>> := [
    Route(Post, "/register", false, RegisterUser),
    Route(Post, "/login", false, Login),
    Route(Get, "/me", true, GetMe),
    Route(Get, "/logout", true, Logout),
    Route(Get, "/users/me/addresses", true, GetAddresses),
    Route(Post, "/users/me/addresses", true, AddAddress),
    Route(Delete, "/users/me/addresses/:addressId", true, DeleteAddress)
  ]

  /** Fills a fresh router the way the module's top level does. */
  method Build() returns (router: Router<Handler>)
    ensures fresh(router)
    ensures router.routes == Table
  {
    router := new Router();
    router.Register(Post, "/register", false, RegisterUser);
    router.Register(Post, "/login", false, Login);
    router.Register(Get, "/me", true, GetMe);
    router.Register(Get, "/logout", true, Logout);
    router.Register(Get, "/users/me/addresses", true, GetAddresses);
    router.Register(Post, "/users/me/addresses", true, AddAddress);
    router.Register(Delete, "/users/me/addresses/:addressId", true, DeleteAddress);
  }

  /** Registration and login are open; every other route runs `verify` first. */
  lemma GuardedRoutes()
    ensures forall i :: 0 <= i < |Table| ==> (Table[i].guarded <==> Table[i].handler !in {RegisterUser, Login})
  {
  }

  /** The segments of the address-book path. */
  lemma AddressPathSegments(path: string)
    requires path == "/users/me/addresses"
    ensures PathSegments(path) == ["users", "me", "addresses"]
  {
    assert Text.Join(["addresses"], '/') == "addresses";
    assert ["me", "addresses"][1..] == ["addresses"];
    assert Text.Join(["me", "addresses"], '/') == "me/addresses";
    assert ["users", "me", "addresses"][1..] == ["me", "addresses"];
    assert Text.Join(["users", "me", "addresses"], '/') == "users/me/addresses";
    SegmentsOfWords(["users", "me", "addresses"]);
  }

  /** The segments of a path naming one entry of the address book. */
  lemma AddressItemPathSegments(path: string, id: string)
    requires id != "" && '/' !in id
    requires path == "/users/me/addresses/" + id
    ensures PathSegments(path) == ["users", "me", "addresses", id]
  {
    assert Text.Join([id], '/') == id;
    assert ["addresses", id][1..] == [id];
    assert Text.Join(["addresses", id], '/') == "addresses" + "/" + id;
    assert ["me", "addresses", id][1..] == ["addresses", id];
    assert Text.Join(["me", "addresses", id], '/') == "me" + "/" + ("addresses" + "/" + id);
    assert ["users", "me", "addresses", id][1..] == ["me", "addresses", id];
    assert Text.Join(["users", "me", "addresses", id], '/') == "users" + "/" + ("me" + "/" + ("addresses" + "/" + id));
    assert "/" + ("users" + "/" + ("me" + "/" + ("addresses" + "/" + id))) == path;
    SegmentsOfWords(["users", "me", "addresses", id]);
  }

  lemma LiteralWord(w: string)
    requires w == [] || w[0] != ':'
    ensures ToSegment(w) == Literal(w)
  {
  }

  lemma AddressListPattern(path: string)
    requires path == "/users/me/addresses"
    ensures PatternOf(path) == [Literal("users"), Literal("me"), Literal("addresses")]
  {
    AddressPathSegments(path);
    LiteralWord("users");
    LiteralWord("me");
    LiteralWord("addresses");
  }

  lemma AddressItemPattern(path: string)
    requires path == "/users/me/addresses/:addressId"
    ensures PatternOf(path) == [Literal("users"), Literal("me"), Literal("addresses"), Param("addressId")]
  {
    assert "/users/me/addresses/" + ":addressId" == path;
    AddressItemPathSegments(path, ":addressId");
    LiteralWord("users");
    LiteralWord("me");
    LiteralWord("addresses");
    assert ToSegment(":addressId") == Param("addressId");
  }

  /** The single-word paths of the table. */
  lemma WordPathPattern(path: string, word: string)
    requires word != "" && '/' !in word && word[0] != ':'
    requires path == "/" + word
    ensures PatternOf(path) == [Literal(word)]
  {
    SegmentsOfWords([word]);
    assert Text.Join([word], '/') == word;
  }

  lemma ItemPathParamNames(path: string)
    requires path == "/users/me/addresses/:addressId"
    ensures ParamNames(PatternOf(path)) == {"addressId"}
  {
    AddressItemPattern(path);
    var pattern := PatternOf(path);
    assert pattern[3].name == "addressId";
    assert ParamNames(pattern) == {"addressId"};
  }

  lemma ListPathParamNames(path: string)
    requires path == "/users/me/addresses"
    ensures ParamNames(PatternOf(path)) == {}
  {
    AddressListPattern(path);
    LiteralPatternBindsNothing(PatternOf(path));
  }

  lemma WordPathParamNames(path: string, word: string)
    requires word != "" && '/' !in word && word[0] != ':'
    requires path == "/" + word
    ensures ParamNames(PatternOf(path)) == {}
  {
    WordPathPattern(path, word);
    LiteralPatternBindsNothing(PatternOf(path));
  }

  /** The names each route of the table binds: only the delete-address route binds one, `addressId`. */
  lemma RouteParamNames(i: nat)
    requires i < |Table|
    ensures ParamNames(PatternOf(Table[i].path)) == if Table[i].handler == DeleteAddress then {"addressId"} else {}
  {
    if i == 0 {
      WordPathParamNames(Table[0].path, "register");
    } else if i == 1 {
      WordPathParamNames(Table[1].path, "login");
    } else if i == 2 {
      WordPathParamNames(Table[2].path, "me");
    } else if i == 3 {
      WordPathParamNames(Table[3].path, "logout");
    } else if i == 4 {
      ListPathParamNames(Table[4].path);
    } else if i == 5 {
      ListPathParamNames(Table[5].path);
    } else {
      ItemPathParamNames(Table[6].path);
    }
  }

  /** The item pattern matches a path naming one entry, binding `addressId` to the entry's id. */
  lemma ItemPathMatch(pattern: string, path: string, id: string)
    requires pattern == "/users/me/addresses/:addressId"
    requires id != "" && '/' !in id
    requires path == "/users/me/addresses/" + id
    ensures MatchSegments(PatternOf(pattern), PathSegments(path)) == Some(map["addressId" := id])
  {
    AddressItemPattern(pattern);
    AddressItemPathSegments(path, id);
    var last := [Param("addressId")];
    assert MatchSegments(last, [id]) == Some(map["addressId" := id]);
    MatchLiteralHead("addresses", last, [id]);
    MatchLiteralHead("me", [Literal("addresses")] + last, ["addresses"] + [id]);
    MatchLiteralHead("users", [Literal("me")] + ([Literal("addresses")] + last), ["me"] + (["addresses"] + [id]));
    assert [Literal("users")] + ([Literal("me")] + ([Literal("addresses")] + last)) == PatternOf(pattern);
    assert ["users"] + (["me"] + (["addresses"] + [id])) == PathSegments(path);
  }

  /** The delete-address route is the only one registered for DELETE. */
  lemma DeleteRegisteredOnce()
    ensures forall j :: 0 <= j < |Table| && j != 6 ==> Table[j].verb != Delete
  {
  }

  /** Deleting address `id` goes to the delete-address route with `addressId` bound to `id`. */
  lemma DeleteAddressDispatch(path: string, id: string)
    requires id != "" && '/' !in id
    requires path == "/users/me/addresses/" + id
    ensures Dispatch(Table, Delete, path) == Some(Dispatched(6, map["addressId" := id]))
  {
    ItemPathMatch(Table[6].path, path, id);
    DeleteRegisteredOnce();
    SoleRouteForVerb(Table, Delete, path, 6, map["addressId" := id]);
  }
}
