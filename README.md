# Request gating in api-habit-tracker, modelled in Dafny

The habit-tracker backend is an Express application. Before any controller
runs, each request passes through a short pipeline:

- the bearer-token gate `authenticatedToken`;
- the schema guards `validateParams` and `validateBody`, whose schemas are
  written with Zod;
- the controller itself.

Controllers answer through the uniform envelope built by `formatSuccess`,
`formatError` and `sendResponse`. This project models that pipeline and
proves what it promises. It covers:

- status codes and error strings;
- which request fields a stage may change;
- the order of the checks in each route;
- the defaults and constraints of every schema;
- which handlers can be reached at all.

The modules follow the program's structure:

- `Wire`: JSON values and `undefined`.
- `Text`: `split`, `join` and the decimal rendering of array indices.
- `Zod`: the part of Zod the schemas use. A schema is data, and `ParseAt`
  interprets it the way `safeParse` does. As in Zod 4, the `.min`/`.max`
  length checks run on any string or array, even one that failed the type
  check, while format checks run only on a string.
- `Http`: the request as a value, and the Express request, response and
  `next` objects as classes whose calls are recorded.
- `ResponseFormatter`: the envelope builders and `sendResponse`.
- `Validation`: the three guards as a pure step (`ValidationStep`) and as
  methods on the Express objects (`ValidateBody`, `ValidateParams`,
  `ValidateQuery`).
- `Auth`: the token gate as a pure step (`AuthStep`) and as a method
  (`AuthenticatedToken`).
- `HabitSchemas`, `UserSchemas`, `AuthSchemas`: the schemas as `Zod` data.
  Each comes with a predicate that states the constraints directly, and a
  lemma proving the two agree.
- `Pipeline`: stages, routes and the `Router` class, whose registration
  calls append to its stack. `Walk` goes through the stack in registration
  order, as Express's `next()` does.
- `HabitRoutes`, `UserRoutes`, `TagRoutes`, `AuthRoutes`: each router's
  registration calls, and what each route does with the requests that reach
  it.
- `App`: the health route and the three mounted routers.

The tag router is defined but not mounted (src/server.ts:25-27), so no
request reaches a tag handler (`App.TagHandlersUnreachable`).

Parts the model does not interpret are parameters:

- the JWT verifier (`Auth.Verifier`);
- Zod's e-mail and UUID format checks (`Zod.Formats`);
- the database-derived `insertUserSchema` and `insertTagSchema`
  (`Validation.Oracles.external`). These may accept, refuse with issues, or
  throw something else.

The clock is a parameter too (`now`).

The model follows the code as written. In particular,
`sendResponse` does not guarantee that the status it writes matches the
envelope's `statusCode`: an explicit code 0 is written as 200 or 500 while
the body still says 0 (`ResponseFormatter.SentResponseAgrees`).

## Model

| member | source | states |
|---|---|---|
| ResponseFormatter.CodeOr | src/utils/responseFormatter.ts:54 | `code \|\| fallback`: the code itself when it is not 0, and exactly the fallback when it is 0 |
| ResponseFormatter.FormatSuccess | src/utils/responseFormatter.ts:17-29 | `success` is true and `data` is the input unchanged, `undefined` (no `data` key) included; `statusCode` is 200 when omitted and the given code otherwise, including 0; message and timestamp as given |
| ResponseFormatter.FormatError | src/utils/responseFormatter.ts:31-43 | `success` is false and `error` is the input unchanged; `statusCode` is 500 when omitted and the given code otherwise; message and timestamp as given |
| ResponseFormatter.SentEnvelope | src/utils/responseFormatter.ts:52-60 | the success branch builds exactly `formatSuccess`'s envelope; the error branch builds exactly `formatError`'s envelope with the payload as `error` and the given status code, where a missing or empty message becomes "An error occurred" and any other is kept; a payload of `undefined` gives an envelope without `data` or `error` |
| ResponseFormatter.SentStatus | src/utils/responseFormatter.ts:54-61 | the written status is never 0: the envelope's code, or 200 / 500 when that code is 0 |
| ResponseFormatter.SendResponse | src/utils/responseFormatter.ts:45-63 | the response receives exactly one status, then exactly one JSON body, and that body is the envelope that was built |
| ResponseFormatter.SentResponseAgrees | src/utils/responseFormatter.ts:52-62 | `success` tells the branch; the written status equals the envelope's `statusCode` exactly when that code is not 0, an explicit 0 is written as 200 or 500, and any other explicit code is both written and carried in the body |
| Validation.RunSchema | src/middleware/validation.ts:7 | a schema declared in the repository only ever throws a `ZodError`, with at least one issue; it accepts exactly when Zod's parse is valid, returning the parsed value, and otherwise rejects with the parse's issues. A database-derived schema gives whatever its oracle gives |
| Validation.ErrorText | src/middleware/validation.ts:13-53 | the 400 text is "Validation failed" for the body, "Invalid params" for params and "Invalid Query Params" for the query |
| Validation.ErrorTextIdentifiesSurface | src/middleware/validation.ts:13-53 | the error text depends only on the surface that failed, and distinct surfaces give distinct texts |
| Validation.Details | src/middleware/validation.ts:14-17 | one detail per issue, in issue order; each `field` is the issue path joined with '.' and each `message` is the issue's message |
| Validation.FieldNameRoundTrip | src/middleware/validation.ts:15 | when no key contains '.', splitting a `field` on '.' gives back the rendered path steps, so nothing is lost |
| Validation.ValidationStep | src/middleware/validation.ts:4-63 | continue exactly when the parse succeeds, 400 exactly on a `ZodError`, and `next(e)` exactly on anything else thrown. On success only the body guard changes the request, and only `body`, to the parsed value. A 400 carries the surface's text and `Details` of the issues |
| Validation.ParamsAndQueryUntouched | src/middleware/validation.ts:25-63 | the params and query guards never change the request; parsed defaults and coercions are thrown away |
| Validation.ValidateBody | src/middleware/validation.ts:4-23 | on the Express objects: success replaces `req.body` and calls `next()` once; a `ZodError` writes one 400 status and one body without calling `next`; anything else calls `next(e)` once. Nothing else is written |
| Validation.ValidateParams | src/middleware/validation.ts:25-43 | the same, with "Invalid params", and `req` is left unchanged |
| Validation.ValidateQuery | src/middleware/validation.ts:45-63 | the same, with "Invalid Query Params", and `req` is left unchanged |
| Auth.BearerToken | src/middleware/auth.ts:14-16 | no header gives no token; a token is never empty and never contains a space |
| Auth.TokenIsSecondWord | src/middleware/auth.ts:15 | the token is exactly the non-empty second space-separated word; the first word may be anything, so the scheme is not checked |
| Auth.NoSpaceNoToken | src/middleware/auth.ts:15-16 | a header without a space, such as a bare token, yields no token |
| Auth.AuthStep | src/middleware/auth.ts:13-28 | 401 `{error: "bad Request"}` exactly when there is no token; 403 `{error: "Forbidden"}` exactly when the verifier refuses it; otherwise continue with `user` set to the claim and nothing else changed. Nothing is ever forwarded |
| Auth.AuthenticatedToken | src/middleware/auth.ts:8-29 | on the Express objects, exactly one of three things happens: a 401 status and body, a 403 status and body, or `req.user` set and `next()` called once. `req.user` is not set on a refusal |
| HabitSchemas.FrequencyRefineIsRedundant | src/schemas/habitSchemas.ts:6-10 | the `refine` on `frequency` never changes the outcome of the enum, so its message can never appear |
| HabitSchemas.UuidArrayValid | src/schemas/habitSchemas.ts:12 | an optional array of UUID strings is accepted exactly when it is absent or every element is a UUID string |
| HabitSchemas.CreateFieldsFront | src/schemas/habitSchemas.ts:4-10 | `name` is accepted exactly when it is a string of 1 to 100 characters, `description` when absent or a string, and `frequency` when it is one of daily, weekly or monthly |
| HabitSchemas.CreateFieldsBack | src/schemas/habitSchemas.ts:11-12 | `targetCount` is accepted exactly when absent or a positive integer; `tagIds` when absent or a list of UUIDs |
| HabitSchemas.CreateFieldsValid | src/schemas/habitSchemas.ts:3-13 | every field of `createHabitSchema` is accepted exactly when the body meets `CreateHabitOk` |
| HabitSchemas.CreateHabitAccepts | src/schemas/habitSchemas.ts:3-13 | `createHabitSchema` accepts a body exactly when it is an object meeting `CreateHabitOk` |
| HabitSchemas.CreateHabitKeys | src/schemas/habitSchemas.ts:3-13 | a parsed create body holds only the five declared keys |
| HabitSchemas.TargetCountDefault | src/schemas/habitSchemas.ts:11 | `targetCount` parses to the number sent, or to 1 when it is absent |
| HabitSchemas.CreateHabitDefaults | src/schemas/habitSchemas.ts:3-13 | an accepted create body always has `targetCount`: the one sent, or 1. Keys outside the schema are dropped |
| HabitSchemas.UpdateFieldsFront | src/schemas/habitSchemas.ts:16-18 | the `name`, `description` and `frequency` of an update are each accepted exactly when absent or valid |
| HabitSchemas.UpdateFieldsBack | src/schemas/habitSchemas.ts:19-21 | the `targetCount`, `isActive` and `tagIds` of an update are each accepted exactly when absent or valid |
| HabitSchemas.UpdateFieldsValid | src/schemas/habitSchemas.ts:15-22 | every field of `updateHabitSchema` is accepted exactly when the body meets `UpdateHabitOk` |
| HabitSchemas.UpdateHabitAccepts | src/schemas/habitSchemas.ts:15-22 | `updateHabitSchema` accepts a body exactly when it is an object meeting `UpdateHabitOk` |
| HabitSchemas.UpdateHabitAcceptsEmpty | src/schemas/habitSchemas.ts:15-22 | `{}` is accepted and parses to `{}` |
| HabitSchemas.IdSchemaOutcome | src/schemas/habitSchemas.ts:24-29 | a one-field UUID schema accepts a string id exactly when it is a UUID; otherwise the only issue is at the key, with the schema's message |
| HabitSchemas.UuidSchemaRejects | src/schemas/habitSchemas.ts:24-26 | `uuidSchema` refuses a non-UUID `id` with the single issue "Invalid habit ID format" at `id` |
| HabitSchemas.TagIdSchemaRejects | src/schemas/habitSchemas.ts:27-29 | `tagIdSchema` refuses a non-UUID `tagId` with the single issue "Invalid tag ID format" at `tagId` |
| HabitSchemas.CompleteHabitAccepts | src/schemas/habitSchemas.ts:31-33 | `completeHabitSchema` accepts exactly when `note` is absent or a string of at most 500 characters |
| HabitSchemas.AddTagsRejectsEmpty | src/schemas/habitSchemas.ts:35-37 | an empty `tagIds` is refused with the single issue "At least one tag ID is required" at `tagIds` |
| HabitSchemas.AddTagsRejectsEmptyString | src/schemas/habitSchemas.ts:35-37 | `tagIds: ""` gives exactly the type issue and then "At least one tag ID is required", because the length check also runs on strings |
| HabitSchemas.AddTagsAccepts | src/schemas/habitSchemas.ts:35-37 | `addTagsToHabitSchema` accepts exactly a non-empty list of UUID strings |
| UserSchemas.GetUserOutcome | src/schemas/userSchemas.ts:3-5 | accepts exactly when `id` is a UUID string; otherwise there is one issue, at `id`, saying "Invalid user ID format", even when `id` is absent or not a string |
| UserSchemas.UpdateUserFieldsFront | src/schemas/userSchemas.ts:8-13 | `username` is accepted exactly when absent or a string of 3 to 30 characters; `email` when absent or an address |
| UserSchemas.UpdateUserFieldsBack | src/schemas/userSchemas.ts:14-15 | `firstName` and `lastName` are each accepted exactly when absent or a string of at most 50 characters |
| UserSchemas.UpdateUserFieldsValid | src/schemas/userSchemas.ts:7-16 | every field of `updateUserSchema` is accepted exactly when the body meets `UpdateUserOk` |
| UserSchemas.UpdateUserAccepts | src/schemas/userSchemas.ts:7-16 | `updateUserSchema` accepts a body exactly when it is an object meeting `UpdateUserOk` |
| UserSchemas.UpdateUserAcceptsEmpty | src/schemas/userSchemas.ts:7-16 | `{}` is accepted |
| UserSchemas.UsernameMessages | src/schemas/userSchemas.ts:8-12 | a username under 3 characters gives first "Username must be at least 3 characters"; one over 30 gives "Username too long" |
| UserSchemas.EmailFieldRefuses | src/schemas/userSchemas.ts:13 | a string `email` that is not an address is refused with the single issue "Invalid email format" |
| UserSchemas.EmailMessage | src/schemas/userSchemas.ts:13 | that issue is among the issues of the whole update body, which is refused |
| AuthSchemas.EmailFieldIssues | src/schemas/authSchemas.ts:4 | `email` is accepted exactly when it is an address; otherwise there is exactly one issue, "Invalid email", whether `email` is missing, not a string or malformed (`EmailIssues`) |
| AuthSchemas.PasswordFieldIssues | src/schemas/authSchemas.ts:5 | `password` is accepted exactly when it is a non-empty string. The empty string gives "Password is required"; a non-string gives the type issue, followed by "Password is required" when it is an empty array (`PasswordIssues`) |
| AuthSchemas.LoginIssues | src/schemas/authSchemas.ts:3-6 | the issues of a login body are the e-mail's followed by the password's |
| AuthSchemas.LoginAccepts | src/schemas/authSchemas.ts:3-6 | `loginSchema` accepts exactly an object with an e-mail address and a non-empty password |
| AuthSchemas.LoginRejectsEmail | src/schemas/authSchemas.ts:4 | a missing or malformed e-mail makes the first issue "Invalid email" at `email` |
| AuthSchemas.LoginRejectsEmptyPassword | src/schemas/authSchemas.ts:5 | with a good e-mail, `password: ""` gives exactly one issue, "Password is required" |
| AuthSchemas.LoginRejectsEmptyArrayPassword | src/schemas/authSchemas.ts:5 | with a good e-mail, `password: []` gives exactly the type issue and then "Password is required", because the length check also runs on arrays |
| AuthSchemas.LoginTwoIssues | src/schemas/authSchemas.ts:3-6 | with both fields bad, the e-mail's issue comes first and the rest are the password's: two issues, or three when the password is an empty array |
| Pipeline.StepChanges | src/middleware/validation.ts:7-9 | a stage that continues changes at most `body` (a guard) or `user` (the gate); headers, params and query are never changed |
| Pipeline.HandlerRunsOnlyAfterAll | src/routes/authRoutes.ts:9-11 | a route's handler runs exactly when every stage before it continued, on the request as they left it; otherwise the first stage that stopped decides. Nothing after the handler runs |
| Pipeline.Match | src/routes/habitRoutes.ts:28-57 | a pattern fits a path exactly when the lengths agree, literal segments are equal and parameter segments are non-empty. The bound names are exactly the pattern's parameter names, and a parameter that occurs once is bound to the segment in its place, which is what `req.params` holds |
| Pipeline.OnlyDeclaredHandlers | src/routes/habitRoutes.ts:24-57 | a request only ever reaches a handler registered in the router |
| Pipeline.DispatchKeepsIdentity | src/routes/authRoutes.ts:7-11 | without a gate in the stack, a handler sees the caller's headers and `user` unchanged |
| Pipeline.GatedRouter | src/routes/habitRoutes.ts:26 | behind `router.use(authenticatedToken)`, every request, matched or not, gets 401 without a token and 403 with a refused one; a handler is reached only with a verified token, and its claim is `user` |
| Pipeline.Router.Use | src/routes/habitRoutes.ts:26 | `router.use` appends one middleware layer to the stack |
| Pipeline.Router.Route | src/routes/habitRoutes.ts:28 | `router.get/post/put/delete` appends one route to the stack |
| HabitRoutes.BuildHabitRouter | src/routes/habitRoutes.ts:24-57 | the registration calls build exactly the gate followed by the eight routes, in source order |
| HabitRoutes.HabitsGated | src/routes/habitRoutes.ts:26 | every habit request goes through the gate first: 401 or 403 as the gate decides, and the claim is `user` at any handler |
| HabitRoutes.ListingUnguarded | src/routes/habitRoutes.ts:28 | `GET /` has no guard: an admitted request reaches `getUserHabits` |
| HabitRoutes.IdGuardRefuses | src/routes/habitRoutes.ts:30 | `validateParams(uuidSchema)` answers a non-UUID id with 400 "Invalid params" and the one detail `id` / "Invalid habit ID format" |
| HabitRoutes.IdRouteRefuses | src/routes/habitRoutes.ts:30-57 | any route starting with that guard refuses a non-UUID id, whatever follows it |
| HabitRoutes.ReachShow | src/routes/habitRoutes.ts:28-30 | `GET /:id` is the first route that fits `GET /<id>` |
| HabitRoutes.ReachCreate | src/routes/habitRoutes.ts:28-32 | `POST /` is the first route that fits `POST /` |
| HabitRoutes.ReachUpdate | src/routes/habitRoutes.ts:28-39 | `PUT /:id` is the first route that fits `PUT /<id>` |
| HabitRoutes.ReachDelete | src/routes/habitRoutes.ts:28-41 | `DELETE /:id` is the first route that fits `DELETE /<id>` |
| HabitRoutes.ReachComplete | src/routes/habitRoutes.ts:28-48 | `POST /:id/complete` is the first route that fits `POST /<id>/complete` |
| HabitRoutes.ReachByTag | src/routes/habitRoutes.ts:28-50 | `GET /tag/:tagId` is the first route that fits `GET /tag/<tagId>` |
| HabitRoutes.ReachAddTags | src/routes/habitRoutes.ts:28-57 | `POST /:id/tags` is the first route that fits `POST /<id>/tags`; `/:id/complete` does not fit it |
| HabitRoutes.ShowChecksId | src/routes/habitRoutes.ts:30 | `GET /:id` answers a non-UUID id with 400 before `getHabitById` |
| HabitRoutes.UpdateChecksId | src/routes/habitRoutes.ts:34-39 | `PUT /:id` answers a non-UUID id with "Invalid params" whatever the body |
| HabitRoutes.DeleteChecksId | src/routes/habitRoutes.ts:41 | `DELETE /:id` answers a non-UUID id with 400 before `deleteHabit` |
| HabitRoutes.CompleteChecksId | src/routes/habitRoutes.ts:43-48 | `POST /:id/complete` answers a non-UUID id with "Invalid params" whatever the body |
| HabitRoutes.AddTagsChecksId | src/routes/habitRoutes.ts:52-57 | `POST /:id/tags` answers a non-UUID id with "Invalid params" whatever the body |
| HabitRoutes.IdRoutesCheckId | src/routes/habitRoutes.ts:30-57 | each of the five routes on a habit id answers a non-UUID id with that 400, before the handler and before any body check |
| HabitRoutes.TagStagesRefuse | src/routes/habitRoutes.ts:50 | the stages of `GET /tag/:tagId` answer a non-UUID tag id with 400 "Invalid tag ID format" at `tagId` |
| HabitRoutes.TagRouteChecksTagId | src/routes/habitRoutes.ts:50 | `GET /tag/<tagId>` with a non-UUID tag id is answered with that 400 |
| HabitRoutes.CreateRoute | src/routes/habitRoutes.ts:32 | `POST /` reaches `createHabit` exactly when `createHabitSchema` accepts the body, and then with the parsed body; otherwise 400 "Validation failed" with one detail per issue |
| HabitRoutes.UpdateStages | src/routes/habitRoutes.ts:34-39 | on a UUID id, the stages of `PUT /:id` are decided by the body guard |
| HabitRoutes.UpdateRoute | src/routes/habitRoutes.ts:34-39 | `PUT /<uuid>` reaches `updateHabits` exactly when `updateHabitSchema` accepts the body, with the parsed body; otherwise 400 "Validation failed" |
| UserRoutes.BuildUserRouter | src/routes/userRoutes.ts:12-27 | the registration calls build exactly the gate followed by the four routes, in source order |
| UserRoutes.UsersGated | src/routes/userRoutes.ts:14 | every user request goes through the gate first |
| UserRoutes.UserListingUnguarded | src/routes/userRoutes.ts:16 | `GET /` has no guard: an admitted request reaches `getUsers` |
| UserRoutes.UserIdGuardRefuses | src/routes/userRoutes.ts:18 | `validateParams(getUserSchema)` answers a non-UUID id with 400 "Invalid params" and the one detail `id` / "Invalid user ID format" |
| UserRoutes.UserIdRouteRefuses | src/routes/userRoutes.ts:18-27 | each route on `/:id` starts with that guard and so refuses a non-UUID id |
| UserRoutes.ReachUserId | src/routes/userRoutes.ts:16-27 | for GET, PUT and DELETE, the route on `/:id` is the first that fits `/<id>` |
| UserRoutes.UserIdRoutesCheckId | src/routes/userRoutes.ts:18-27 | `GET`, `PUT` and `DELETE /:id` answer a non-UUID id with that 400, before the handler and before the body |
| UserRoutes.UpdateUserStages | src/routes/userRoutes.ts:20-25 | on a UUID id, the stages of `PUT /:id` are decided by the body guard |
| UserRoutes.UpdateUserRoute | src/routes/userRoutes.ts:20-25 | `PUT /<uuid>` reaches `updateUser` exactly when `updateUserSchema` accepts the body, with the parsed body; otherwise 400 "Validation failed" |
| TagRoutes.BuildTagRouter | src/routes/tagRoutes.ts:14-29 | the registration calls build exactly the gate followed by the four routes, in source order |
| TagRoutes.TagsGated | src/routes/tagRoutes.ts:16 | every tag request goes through the gate first |
| TagRoutes.TagListingUnguarded | src/routes/tagRoutes.ts:18 | `GET /` has no guard: an admitted request reaches `getTag` |
| TagRoutes.TagIdGuardAccepts | src/routes/tagRoutes.ts:27 | `validateParams(tagIdSchema)` lets a UUID tag id through and leaves the request unchanged |
| TagRoutes.TagIdGuardRefuses | src/routes/tagRoutes.ts:22 | `validateParams(tagIdSchema)` answers a non-UUID tag id with 400 "Invalid params" / "Invalid tag ID format" |
| TagRoutes.ReachDeleteTag | src/routes/tagRoutes.ts:18-22 | `DELETE /:tagId` is the first route that fits `DELETE /<tagId>` |
| TagRoutes.ReachUpdateTag | src/routes/tagRoutes.ts:18-29 | `PUT /:tagId` is the first route that fits `PUT /<tagId>` |
| TagRoutes.DeleteTagChecksId | src/routes/tagRoutes.ts:22 | `DELETE /:tagId` answers a non-UUID tag id with 400 before `deleteTag` |
| TagRoutes.UpdateTagStages | src/routes/tagRoutes.ts:24-29 | the stages of `PUT /:tagId` check the body first: a refused body gives "Validation failed" and a throwing schema is forwarded. After an accepted body, a non-UUID id gives "Invalid params" and a UUID id reaches `updateTag` with the parsed body |
| TagRoutes.UpdateTagChecksBodyFirst | src/routes/tagRoutes.ts:24-29 | a request to `PUT /<tagId>` gets "Validation failed" for a bad body even when the tag id is also bad; with an accepted body and a UUID id it reaches `updateTag` with the parsed body |
| AuthRoutes.BuildAuthRouter | src/routes/authRoutes.ts:7-11 | the registration calls build exactly the two routes, with no gate |
| AuthRoutes.AuthRoutesOpen | src/routes/authRoutes.ts:9-11 | no token is asked for: register and login see the caller's headers and `user` |
| AuthRoutes.RegisterRoute | src/routes/authRoutes.ts:9 | `POST /register` reaches `register` exactly when `insertUserSchema` accepts; a refusal gives 400 "Validation failed", and a throw is forwarded |
| AuthRoutes.LoginRoute | src/routes/authRoutes.ts:11 | `POST /login` reaches `login` exactly when `loginSchema` accepts the body, with the parsed body; otherwise 400 "Validation failed" with one detail per issue |
| AuthRoutes.LoginNeedsEmail | src/routes/authRoutes.ts:11 | a login body without a valid e-mail gets 400 whose first detail is `email` / "Invalid email" |
| App.MountedDeclareNoTagHandler | src/server.ts:25-27 | none of the three mounted routers registers a tag handler |
| App.TagHandlersUnreachable | src/server.ts:25-27 | no request reaches a tag handler, because the tag router is not mounted |
| App.ProtectedPrefixes | src/server.ts:26-27 | everything under `/api/users` and `/api/habits` gets 401 without a token and 403 with a refused one, whether or not a route matches |
| App.ReachedUserIsVerified | src/server.ts:25-27 | for a request arriving without `user`, a handler that sees a `user` got it from a token the verifier accepted |

## Left out

- Controllers (src/controllers/*.ts) are opaque final stages (`Pipeline.Handler`). What they do with the database is not modelled. `asyncHandler` around the tag controllers is only promise plumbing, so it is not modelled either.
- src/utils/jwt.ts is not part of this model. Signing, HS256 verification (section 3.2 of RFC 7518) and expiry (section 4.1.4 of RFC 7519) are one oracle, `Auth.Verifier`, which returns a claim or a failure.
- Password hashing, Redis, rate limiting, clustering and process start-up are not modelled.
- The helmet, cors, morgan and body-parser middleware in src/server.ts are not modelled. The request arrives already parsed, as `Req`.
- The health route's HTML body is not modelled. `App.Serve` only says that `GET /health` reaches it.
- `insertUserSchema` and `insertTagSchema` are defined in the database schema, which is not part of this model. They are oracles that accept, refuse with issues, or throw.
- E-mail and UUID syntax are uninterpreted predicates (`Zod.Formats`).
- Zod runs its length checks on any non-null value with a `length` property. The model gives a length only to strings and arrays. A JSON object with a `length` key, refused by `z.string()` or `z.array()`, is modelled with the type issue alone. Any length-check issue JavaScript's comparison of that `length` would add is not modelled.
- Zod's default message texts, such as those of `.min(1)` without a message, are not modelled. They appear as `ZodDefault(code)`.
- Zod counts string length in UTF-16 code units. The model counts characters of a `seq<char>`.
- JavaScript numbers are modelled as reals, without floating-point range or rounding.
- Zod's handling of `NaN`, infinities and unsafe integers is not modelled.
- Express routing details are not modelled: URL decoding, case-insensitive and trailing-slash matching, HEAD requests, and path prefixes on `router.use`. Paths are given as their segments, and a parameter matches any non-empty segment.
- A thrown `next()` inside `authenticatedToken`'s `try` block is not modelled. Express catches errors from later handlers itself.
- Any non-verification exception in the gate is not modelled. The only failure taken to the 403 branch is the verifier's.
- `Auth.AuthHeader`: only a single string-valued `authorization` header is modelled. Node's array-valued headers are not.
- `ResponseFormatter.SendResponse`: a status code outside 100-999, or one that is not an integer, is written as given. Node and Express throw for such a code instead. The controllers that call `sendResponse` pass only 200 and 201.
- `ResponseFormatter.FormatSuccess`: the timestamp is the parameter `now`, not the clock.
- `ResponseFormatter.FormatError`: the timestamp is the parameter `now`, not the clock.
