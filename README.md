# micro-ecom request logic in Dafny

This project models the request-decision logic of the two Express services of
micro-ecom: the identity service (`apps/auth`) and the catalog service
(`apps/product`). The libraries they call are treated as opaque parameters:
mongoose queries, bcrypt, jsonwebtoken and the ImageKit upload. What remains
is modelled and proved:

- **Seller gate** (`AccessGate`). The catalog's `verify` middleware picks the
  token from the `token` cookie, otherwise from the second space-separated
  word of `Authorization`. It then maps each outcome of `jwt.verify` to 401,
  403 or "proceed with `sellerId`".
- **Request validators** (`AuthSchemas`, `ProductSchemas`). The zod schemas
  become parse functions from raw bodies (every field optional) to validated
  records. Each one states exactly when it succeeds and what it produces,
  defaults included.
- **User records** (`UserModel`). The mongoose user schema: stored addresses
  with their own `_id` and `isDefault` false by default, the password hidden
  from default reads, and the unique and required keys.
- **Identity handlers** (`UserController`).
  - `registerUser`, `addAddress` and `deleteAddress` change the collection.
    They are methods of the class `UserStore`, whose fields hold the records
    and the id counter.
  - `login`, `getMe`, `logout` and `getAddresses` only read. They are
    functions.
  - Registration follows the code's duplicate test, `if (exists)` on what
    `User.find` resolved to. Any list, the empty one included, counts as
    "exists". Registration goes on only when the lookup resolved to nothing
    (`lookup == None`). Against a real collection `User.find` always yields a
    list, so as written every valid registration is refused.
- **Catalog handlers** (`ProductController`).
  - `createProduct` validates the body, uploads every file in order and
    stores one record.
  - `getProducts` builds the filter, the skip and the limit step by step, then
    answers according to what the query returns.
- **Route tables** (`Routing`, `ProductRoutes`, `UserRoutes`). A router is
  filled by successive registrations. A request goes to the first route, in
  registration order, whose method and path pattern match it. Each route
  carries a "guarded by `verify`" flag.

## Model

| member | source | states |
|---|---|---|
| AccessGate.HeaderToken | apps/product/src/middleware/auth.middleware.ts:14 | the header token is a field of the header without spaces, and there is none when the header is absent |
| AccessGate.ExtractToken | apps/product/src/middleware/auth.middleware.ts:14 | a non-empty cookie token is used; otherwise the header's second word is used |
| AccessGate.Verify | apps/product/src/middleware/auth.middleware.ts:8-28 | rejections are only 401 or 403; 401 "Unauthorised" iff there is no token; 403 "Invalid token" iff verification throws or returns a falsy payload; 403 "Unauthorised" iff the payload's role is not "seller"; it proceeds iff the role is "seller", with `sellerId` set to the payload's `id` |
| AccessGate.HeaderTokenOfSchemeAndToken | apps/product/src/middleware/auth.middleware.ts:14 | `Authorization: <scheme> <token>` yields the token, whatever the scheme word is |
| AccessGate.HeaderTokenIsSecondWord | apps/product/src/middleware/auth.middleware.ts:14 | with more words after the token, the header still yields the second word |
| AccessGate.CookieTakesPrecedence | apps/product/src/middleware/auth.middleware.ts:14 | while the cookie carries a token, the Authorization header does not affect the outcome |
| AccessGate.AdmittedOnlyWithSellerClaims | apps/product/src/middleware/auth.middleware.ts:17-24 | a request is admitted only if its token verified to a claims object with role "seller", and the recorded seller id is that object's `id` |
| Text.Field | apps/product/src/middleware/auth.middleware.ts:14 | `split(c)[i]` exists iff the string has more than `i` pieces, and the piece holds no separator |
| Text.JoinSplit | apps/product/src/middleware/auth.middleware.ts:14 | joining the pieces of `split(c)` with `c` gives back the string |
| Text.SplitAfterPrefix | apps/product/src/middleware/auth.middleware.ts:14 | splitting `a + c + b`, where `a` has no `c`, gives `a` followed by the pieces of `b` |
| Text.SplitJoin | apps/product/src/middleware/auth.middleware.ts:14 | splitting the join of separator-free pieces gives back those pieces |
| AuthSchemas.ParseFullName | apps/auth/src/types/index.ts:3-6 | valid iff both names are present and non-empty; the result holds the two names |
| AuthSchemas.ParseAddress | apps/auth/src/types/index.ts:39-46 | valid iff all five strings are present and non-empty (isDefault optional); the result carries the six fields unchanged |
| AuthSchemas.ParseAddresses | apps/auth/src/types/index.ts:8-15 | a list is valid iff every entry is, and the result parses each entry in order |
| AuthSchemas.ParseRole | apps/auth/src/types/index.ts:22 | exactly "user" and "seller" are accepted |
| AuthSchemas.ParseRegistration | apps/auth/src/types/index.ts:17-24 | valid iff username length ≥ 3, email passes the email check, password length ≥ 6, fullName valid, role "user" or "seller", and every given address valid; the result carries those fields |
| AuthSchemas.ParseLogin | apps/auth/src/types/index.ts:26-36 | valid iff password length ≥ 6, an email if present passes the check, a username if present has length ≥ 3, and an email or a username is truthy |
| AuthSchemas.ParseAddressPatch | apps/auth/src/types/index.ts:48-55 | valid iff every string field present is non-empty; absent fields stay absent |
| AuthSchemas.AddressIsCompletePatch | apps/auth/src/types/index.ts:39-55 | every valid new address is also a valid address update with the same fields |
| AuthSchemas.AddressesOptionalAtRegistration | apps/auth/src/types/index.ts:23 | leaving out the addresses does not change whether a registration is valid |
| UserModel.PublicView | apps/auth/src/model/user.model.ts:41-45 | a default read returns every field except the password |
| UserModel.CastAddress | apps/auth/src/model/user.model.ts:24-27 | the subdocument gets its own `_id` and the five strings; isDefault is false unless given |
| UserModel.CastAddresses | apps/auth/src/model/user.model.ts:54-56 | a list of addresses is cast entry by entry, in order, with consecutive fresh ids |
| UserModel.CastAddressComplete | apps/auth/src/model/user.model.ts:4-23 | a validated address always stores five non-empty strings, so the misspelled `requiured` never matters on these paths |
| UserController.IndexOfUser | apps/auth/src/controller/user.controller.ts:94 | `findById` finds the first record with that `_id`, or reports that none has it |
| UserController.FindForLogin | apps/auth/src/controller/user.controller.ts:67-70 | `findOne` returns a stored record matching the given email or username; it returns none iff no record matches |
| UserController.NewUser | apps/auth/src/controller/user.controller.ts:32-39 | the created record takes username, email, fullName and role from the parsed body, the digest as its password, and the given addresses (or none) cast in order |
| UserController.RegisteredAddressesComplete | apps/auth/src/controller/user.controller.ts:32-39 | every address created at registration is complete |
| UserController.UserStore.Register | apps/auth/src/controller/user.controller.ts:12-52 | invalid body: 400 "Invalid data", store unchanged; any lookup result: 400 "User already exists.", store unchanged; an insert refused by the unique or required keys: 500; otherwise exactly one record is appended, and the reply is 200 with the token for {id, role, 7d} in the cookie and the body; the store invariant (unique keys, required keys, complete addresses) is kept |
| UserController.UserStore.AddAddress | apps/auth/src/controller/user.controller.ts:138-175 | invalid body: 400; unknown user: 404; each with no change; otherwise one cast address is appended to that user's list, earlier entries and other users are unchanged, and the new list is returned |
| UserController.UserStore.DeleteAddress | apps/auth/src/controller/user.controller.ts:180-203 | unknown user: 404 with no change; otherwise every address with that `_id` is removed from that user's list, and the rest is returned |
| UserController.RemoveById | apps/auth/src/controller/user.controller.ts:187-191 | `$pull` keeps every entry whose id differs, as many times as it occurs, and no entry with that id; the result is never longer |
| UserController.RemoveByIdKeepsOrder | apps/auth/src/controller/user.controller.ts:187-191 | the surviving addresses keep their original order |
| UserController.RemoveAbsentId | apps/auth/src/controller/user.controller.ts:187-191 | pulling an id that no address carries changes nothing |
| UserController.RemoveByIdIdempotent | apps/auth/src/controller/user.controller.ts:184-194 | deleting the same id twice is the same as deleting it once |
| UserController.DeleteUndoesAdd | apps/auth/src/controller/user.controller.ts:151-199 | deleting the address just pushed, by its fresh id, restores the list |
| UserController.LoginChain | apps/auth/src/controller/user.controller.ts:55-89 | 400 iff the body is invalid; 404 iff no record matches the email or username |
| UserController.Login | apps/auth/src/controller/user.controller.ts:55-89 | 400 / 404 / 403 / 200 only; 403 iff the comparison refuses the found record's password; no failure touches the cookie; 200 carries the token for the found record's {id, role, 7d} in the cookie and the body |
| UserController.LoginAsWritten | apps/auth/src/controller/user.controller.ts:72-76 | with the comparison not awaited, login never answers 403, and every found record logs in |
| UserController.UnawaitedCompareAdmitsWrongPassword | apps/auth/src/controller/user.controller.ts:72-76 | a wrong password is refused with the awaited comparison and admitted as written |
| UserController.GetMe | apps/auth/src/controller/user.controller.ts:92-100 | always 200 "Data fetched."; the record without its password, or none for an unknown id |
| UserController.Logout | apps/auth/src/controller/user.controller.ts:103-111 | 200 and the `token` cookie cleared |
| UserController.ProjectAddresses | apps/auth/src/controller/user.controller.ts:116-119 | the projection exists iff the user does, and holds exactly the stored list |
| UserController.GetAddresses | apps/auth/src/controller/user.controller.ts:114-135 | always 200; `[]` with "No addresses saved yet." when the user is missing or the list is missing or empty; otherwise the stored list unchanged |
| UserController.GetAddressesOfStore | apps/auth/src/controller/user.controller.ts:116-131 | over the store, the body is the user's stored list, or `[]` for an unknown user |
| ProductSchemas.ParseCurrency | apps/product/src/types/index.ts:8 | exactly "USD" and "INR" are accepted |
| ProductSchemas.ParsePrice | apps/product/src/types/index.ts:4-9 | valid iff the amount is present and ≥ 0 and a given currency is USD or INR; the currency defaults to INR |
| ProductSchemas.ParseProduct | apps/product/src/types/index.ts:12-17 | valid iff the title is non-empty, the price is valid, and a given stock is a whole number ≥ 0; description is optional and stock defaults to 0 |
| ProductSchemas.ParsePricePatch | apps/product/src/types/index.ts:23 | amount and currency may each be given alone; a given amount is ≥ 0; no default is filled in |
| ProductSchemas.ParseProductPatch | apps/product/src/types/index.ts:20-25 | every field optional; a given stock is a whole number ≥ 0; a given price is a valid partial price |
| ProductSchemas.CreateBodyIsValidPatch | apps/product/src/types/index.ts:12-25 | every valid create body is also a valid update body with the same amount |
| ProductController.UploadCalls | apps/product/src/controllers/product.controller.ts:29-33 | one upload per file, of that file's buffer, in file order |
| ProductController.UploadAll | apps/product/src/controllers/product.controller.ts:31-33 | the images exist iff every upload succeeds; they are the upload results in file order |
| ProductController.ProductStore.Create | apps/product/src/controllers/product.controller.ts:18-48 | invalid body: 400 with no upload and no record; an upload or insert failure: 500 with no record; otherwise exactly one record, holding the parsed fields, the seller id and the images in file order, is appended and returned with 200 |
| ProductController.PlanQuery | apps/product/src/controllers/product.controller.ts:53-75 | a text condition iff `q` is a non-empty string; a `price.amount` condition iff minprice or maxprice is non-empty, with `$gte` iff minprice and `$lte` iff maxprice, neither overwriting the other; skip is the number, or 0 when missing or NaN; limit 10 |
| ProductController.GetProducts | apps/product/src/controllers/product.controller.ts:51-85 | no parameters give an empty filter, skip 0 and limit 10; a failed query gives 500; an empty result gives 200 "No products found" with `[]`; otherwise 200 "products found" with the results |
| Routing.PatternOf | apps/product/src/routes/product.route.ts:15-30 | a registered path compiles to one pattern segment per path segment; `:name` segments become parameters |
| Routing.MatchSegments | apps/product/src/routes/product.route.ts:15-30 | a match needs equal length and equal literals, binds exactly the pattern's parameter names, and never binds an empty segment |
| Routing.FirstMatch | apps/product/src/routes/product.route.ts:15-30 | the first route, at or after a position, that answers the method and path |
| Routing.Dispatch | apps/product/src/routes/product.route.ts:15-30 | the chosen route matches and no earlier one does; its parameters are the bindings of its pattern; there is no route iff none matches |
| Routing.Router.constructor | apps/product/src/routes/product.route.ts:12 | a new router has no routes |
| Routing.Router.Register | apps/product/src/routes/product.route.ts:15-30 | each registration is appended after the earlier ones |
| ProductRoutes.Build | apps/product/src/routes/product.route.ts:12-30 | the router holds the six registrations in source order |
| ProductRoutes.GuardedRoutes | apps/product/src/routes/product.route.ts:15-30 | create, update, delete and the seller listing are guarded by `verify`, and the two GET routes for products are not |
| ProductRoutes.TablePatterns | apps/product/src/routes/product.route.ts:15-30 | "/" has no segments, "/:id" binds `id`, and "/seller" is one literal |
| ProductRoutes.SellerPathCapturedById | apps/product/src/routes/product.route.ts:21-30 | `GET /seller` goes to the unguarded `GET /:id` route with `id` = "seller" |
| ProductRoutes.SellerMatchImpliesIdMatch | apps/product/src/routes/product.route.ts:21-30 | every request the seller listing matches, `GET /:id` matches too |
| ProductRoutes.SellerListingUnreachable | apps/product/src/routes/product.route.ts:21-30 | no request is dispatched to the seller listing |
| ProductRoutes.UpdateCarriesNoId | apps/product/src/routes/product.route.ts:24 | a dispatched update request goes to `PATCH /` and binds no parameter |
| ProductRoutes.Serve | apps/product/src/routes/product.route.ts:15-30 | no route iff dispatch finds none; an invoked handler is the dispatched route's; an unguarded route runs its handler without the gate and with no seller id; on a guarded route the handler runs iff the gate proceeds, and a refusal is the gate's own rejection |
| ProductRoutes.MutationsPassTheGate | apps/product/src/routes/product.route.ts:15-27 | create, update and delete run only after the gate admits the request, and with the gate's seller id |
| UserRoutes.Build | apps/auth/src/route/user.route.ts:13-22 | the router holds the seven registrations in source order |
| UserRoutes.GuardedRoutes | apps/auth/src/route/user.route.ts:15-22 | registration and login are open; every other route is guarded by `verify` |
| UserRoutes.AddressItemPathSegments | apps/auth/src/route/user.route.ts:22 | a path for one address has the address-book segments followed by the id |
| UserRoutes.WordPathPattern | apps/auth/src/route/user.route.ts:15-19 | a one-word route path is a single literal |
| UserRoutes.WordPathParamNames | apps/auth/src/route/user.route.ts:15-19 | a one-word route path binds nothing |
| UserRoutes.RouteParamNames | apps/auth/src/route/user.route.ts:15-22 | only the delete-address route binds a parameter, and that parameter is `addressId` |
| UserRoutes.ItemPathMatch | apps/auth/src/route/user.route.ts:22 | the delete-address pattern matches `/users/me/addresses/<id>` and binds `addressId` to the id |
| UserRoutes.DeleteRegisteredOnce | apps/auth/src/route/user.route.ts:22 | the delete-address route is the only DELETE registration |
| UserRoutes.DeleteAddressDispatch | apps/auth/src/route/user.route.ts:22 | `DELETE /users/me/addresses/<id>` goes to the delete-address route with `addressId` = id |

## Left out

- bcrypt, jsonwebtoken and ImageKit are not modelled: signing, verification (including the `exp` claim), hashing, comparison and upload. They are function parameters (`sign`, `jwtVerify`, `compare`, `upload`) or given values (`hashed`).
- UserController.UserStore.Register: the stored password is the given digest `hashed`. As written, `bcrypt.hash` is not awaited and a promise is handed to `User.create`; mongoose's cast of that value is not modelled.
- UserController.UserStore.Register: the `User.find` result is an input (`lookup`), as the test doubles supply it. The model does not compute it from the store.
- Mongoose casting is not modelled. This covers the `fullName` object stored in a String path, `_id` strings against ObjectIds (`ObjectId.isValid`), and `{ email: undefined }` inside `$or`. The model treats the last as matching nothing.
- MongoDB `$text` search semantics, the atomicity of `findByIdAndUpdate`, and database errors other than the ones the model names. The errors modelled are `run` failing, `accepted` false, and inserts refused by the unique or required keys.
- `Number(...)` is not modelled. A numeric query parameter carries its raw text and the number `Number` gives, taken as an integer or NaN. Fractional and infinite values and repeated numeric parameters, which arrive as arrays, are not modelled.
- Express also answers `HEAD` requests with `GET` routes; the model has no `HEAD` method.
- Express routing is case-insensitive and percent-decodes parameters; neither is modelled. Paths are matched as given, and one trailing slash is ignored.
- String lengths are counted in characters, not UTF-16 code units. Prices and stock are `real`, not IEEE floats.
- The `z.string().email()` format is the parameter `isEmail`.
- zod error texts, cookie flags (`httpOnly`, `secure`), Express response chaining, `apps/auth/src/index.ts` and `apps/auth/jest.config.js` are plumbing and are not modelled.
- `Promise.all` parallelism and the race between the duplicate check and the insert in `registerUser` are not modelled. Uploads are all-or-nothing, and their order is kept.
- `getProduct`, `updateProduct`, `deleteProduct` and `getSellerProduct` appear only as route handlers. Their source is not part of this model.
- The identity service's own `verify` middleware (imported by apps/auth/src/route/user.route.ts) is not part of this model; only which routes it guards is.
- Each `catch` that answers 500 after a library throws is not modelled, except where a parameter above stands for that failure.

## Findings

| source | as written | input that shows it | evidently intended | confidence | as-written member | corrected member |
|---|---|---|---|---|---|---|
| apps/auth/src/controller/user.controller.ts:72-76 | `bcrypt.compare` is not awaited, so `valid` is a promise and `!valid` is always false | a stored user "alice" and the body `{ username: "alice", password: "wrong-password" }` | `await bcrypt.compare(...)`, so a wrong password gets 403 | high (not executed) | UserController.LoginAsWritten | UserController.Login |
