/** The user router, mounted at `/api/users`: the bearer-token gate, then
    four routes; those on `/:id` check the id with `getUserSchema`. */
module UserRoutes {
  import opened Wire
  import opened Text
  import opened Zod
  import opened Http
  import opened Validation
  import opened Auth
  import opened UserSchemas
  import opened Pipeline

  const UserIdGuard: Stage := Validate(ParamsSurface, Declared(GetUserSchema))

  const ListUsers: Layer := Endpoint(Get, [], [Handle(GetUsers)])
  const ShowUser: Layer := Endpoint(Get, [Param("id")], [UserIdGuard, Handle(GetUserById)])
  const UpdateUserEndpoint: Layer :=
    Endpoint(Put, [Param("id")], [UserIdGuard, Validate(BodySurface, Declared(UpdateUserSchema)), Handle(UpdateUser)])
  const DeleteUserRoute: Layer := Endpoint(Delete, [Param("id")], [UserIdGuard, Handle(DeleteUser)])

  /** The router's stack, in registration order. */
  const UserLayers: seq<Layer> := [Middleware(Authenticate), ListUsers, ShowUser, UpdateUserEndpoint, DeleteUserRoute]

  /** The registration calls of the user router. */
  method BuildUserRouter() returns (router: Router)
    ensures fresh(router)
    ensures router.stack == UserLayers
  {
    router := new Router();
    router.Use(Authenticate);
    router.Route(ListUsers.verb, ListUsers.pattern, ListUsers.stages);
    router.Route(ShowUser.verb, ShowUser.pattern, ShowUser.stages);
    router.Route(UpdateUserEndpoint.verb, UpdateUserEndpoint.pattern, UpdateUserEndpoint.stages);
    router.Route(DeleteUserRoute.verb, DeleteUserRoute.pattern, DeleteUserRoute.stages);
  }

  /** Every user request goes through the gate first. */
  lemma UsersGated(env: Env, verb: Verb, path: seq<string>, req: Req)
    ensures var token := BearerToken(AuthHeader(req));
      var f := Dispatch(UserLayers, env, verb, path, req);
      && (token.None? ==> f == Responded(401, ErrorBody("bad Request")))
      && (token.Some? && env.verify(token.value).Rejected? ==> f == Responded(403, ErrorBody("Forbidden")))
      && (f.Reached? ==> Admitted(env, req) && f.req.user == Claimed(env, req).user)
  {
    assert NoGateFrom(UserLayers, 1);
    GatedRouter(UserLayers, env, verb, path, req);
  }

  /** `GET /` has no guard: an admitted request reaches `getUsers`. */
  lemma UserListingUnguarded(env: Env, req: Req)
    requires Admitted(env, req)
    ensures Dispatch(UserLayers, env, Get, [], req) == Reached(GetUsers, Claimed(env, req).(params := map[]))
  {
    PastTheGate(UserLayers, env, Get, [], req);
    EnterRoute(UserLayers, 1, env, Get, [], Claimed(env, req));
  }

  /** The id guard on a path segment that is not a UUID: 400 "Invalid
      params", with one detail naming `id`. */
  lemma UserIdGuardRefuses(env: Env, x: string, req: Req)
    requires !env.oracles.formats.isUuid(x)
    ensures Step(UserIdGuard, env, req.(params := map["id" := x])) ==
      Respond(400, ValidationErrorBody("Invalid params", [Detail("id", Text("Invalid user ID format"))]))
  {
    var target := ParamsJson(map["id" := x]);
    GetUserOutcome(env.oracles.formats, target.fields);
    var p := Parse(GetUserSchema, env.oracles.formats, target);
    assert p.issues == [Issue([Key("id")], p.issues[0].code, Text("Invalid user ID format"))];
    assert Segments([Key("id")]) == ["id"];
  }

  /** The answer to a user id that is not a UUID. */
  const UserIdRefusal: Final :=
    Responded(400, ValidationErrorBody("Invalid params", [Detail("id", Text("Invalid user ID format"))]))

  /** A route whose first stage is the user id guard, entered with an id
      that is not a UUID, answers `UserIdRefusal`. */
  lemma UserIdRouteRefuses(k: nat, env: Env, verb: Verb, x: string, req: Req)
    requires 2 <= k < |UserLayers| && UserLayers[k].verb == verb
    requires Match(UserLayers[k].pattern, [x]) == Some(map["id" := x])
    requires !env.oracles.formats.isUuid(x)
    ensures Walk(UserLayers, k, env, verb, [x], req) == UserIdRefusal
  {
    UserIdGuardRefuses(env, x, req);
    assert UserLayers[k].stages[0] == UserIdGuard;
    EnterDecided(UserLayers, k, env, verb, [x], req, map["id" := x], UserIdRefusal);
  }

  /** The route on `/:id` for the verb is the first that fits `/<x>`. */
  lemma ReachUserId(env: Env, verb: Verb, x: string, req: Req)
    requires Admitted(env, req) && x != "" && verb in {Get, Put, Delete}
    ensures var k := if verb == Get then 2 else if verb == Put then 3 else 4;
      && Dispatch(UserLayers, env, verb, [x], req) == Walk(UserLayers, k, env, verb, [x], Claimed(env, req))
      && UserLayers[k].verb == verb
      && Match(UserLayers[k].pattern, [x]) == Some(map["id" := x])
  {
    var k := if verb == Get then 2 else if verb == Put then 3 else 4;
    assert Match([Param("id")], [x]) == Some(map["id" := x]);
    forall i | 1 <= i < k ensures Skipped(UserLayers[i], verb, [x]) { }
    GatedWalk(UserLayers, k, env, verb, [x], req);
  }

  /** `GET /:id`, `PUT /:id` and `DELETE /:id` answer a non-UUID id with 400
      "Invalid user ID format", before the handler and before the body. */
  lemma UserIdRoutesCheckId(env: Env, verb: Verb, x: string, req: Req)
    requires Admitted(env, req)
    requires verb in {Get, Put, Delete}
    requires x != "" && !env.oracles.formats.isUuid(x)
    ensures Dispatch(UserLayers, env, verb, [x], req) == UserIdRefusal
  {
    ReachUserId(env, verb, x, req);
    var k := if verb == Get then 2 else if verb == Put then 3 else 4;
    UserIdRouteRefuses(k, env, verb, x, Claimed(env, req));
  }

  /** The stages of `PUT /:id` on a UUID: the body guard decides. */
  lemma UpdateUserStages(env: Env, x: string, req: Req)
    requires env.oracles.formats.isUuid(x)
    ensures var p := Parse(UpdateUserSchema, env.oracles.formats, req.body);
      RunStages(UpdateUserEndpoint.stages, env, req.(params := map["id" := x])) ==
        if p.Valid? then Reached(UpdateUser, req.(params := map["id" := x], body := p.value.value))
        else Responded(400, ValidationErrorBody("Validation failed", Details(p.issues)))
  {
    var params := map["id" := x];
    var r := req.(params := params);
    GetUserOutcome(env.oracles.formats, ParamsJson(params).fields);
    assert Step(UserIdGuard, env, r) == Continue(r);
    var bodyGuard := Validate(BodySurface, Declared(UpdateUserSchema));
    var stages := UpdateUserEndpoint.stages;
    assert RunStages(stages, env, r) == RunStages(stages[1..], env, r);
    assert RunStages(stages[1..], env, r) ==
      var b := Step(bodyGuard, env, r);
      if b.Continue? then Reached(UpdateUser, b.req) else StepFinal(b);
  }

  /** `PUT /:id` with a UUID reaches `updateUser` exactly when
      `updateUserSchema` accepts the body, with the parsed body. */
  lemma UpdateUserRoute(env: Env, x: string, req: Req)
    requires Admitted(env, req)
    requires x != "" && env.oracles.formats.isUuid(x)
    ensures var p := Parse(UpdateUserSchema, env.oracles.formats, req.body);
      Dispatch(UserLayers, env, Put, [x], req) ==
        if p.Valid? then Reached(UpdateUser, Claimed(env, req).(params := map["id" := x], body := p.value.value))
        else Responded(400, ValidationErrorBody("Validation failed", Details(p.issues)))
  {
    ReachUserId(env, Put, x, req);
    UpdateUserStages(env, x, Claimed(env, req));
    var r := Claimed(env, req).(params := map["id" := x]);
    EnterDecided(UserLayers, 3, env, Put, [x], Claimed(env, req), map["id" := x], RunStages(UpdateUserEndpoint.stages, env, r));
  }
}
