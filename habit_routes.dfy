/** The habit router, mounted at `/api/habits`: the bearer-token gate for
    every request, then eight routes, each guarded by the schemas of
    `HabitSchemas`. */
module HabitRoutes {
  import opened Wire
  import opened Text
  import opened Zod
  import opened Http
  import opened Validation
  import opened Auth
  import opened HabitSchemas
  import opened Pipeline

  const IdGuard: Stage := Validate(ParamsSurface, Declared(UuidSchema))

  const ListHabits: Layer := Endpoint(Get, [], [Handle(GetUserHabits)])
  const ShowHabit: Layer := Endpoint(Get, [Param("id")], [IdGuard, Handle(GetHabitById)])
  const CreateHabitRoute: Layer :=
    Endpoint(Post, [], [Validate(BodySurface, Declared(CreateHabitSchema)), Handle(CreateHabit)])
  const UpdateHabitRoute: Layer :=
    Endpoint(Put, [Param("id")], [IdGuard, Validate(BodySurface, Declared(UpdateHabitSchema)), Handle(UpdateHabits)])
  const DeleteHabitRoute: Layer := Endpoint(Delete, [Param("id")], [IdGuard, Handle(DeleteHabit)])
  const CompleteHabitRoute: Layer :=
    Endpoint(Post, [Param("id"), Lit("complete")],
             [IdGuard, Validate(BodySurface, Declared(CompleteHabitSchema)), Handle(CompleteHabit)])
  const HabitsByTagRoute: Layer :=
    Endpoint(Get, [Lit("tag"), Param("tagId")], [Validate(ParamsSurface, Declared(TagIdSchema)), Handle(GetHabitsByTag)])
  const AddTagsRoute: Layer :=
    Endpoint(Post, [Param("id"), Lit("tags")],
             [IdGuard, Validate(BodySurface, Declared(AddTagsToHabitSchema)), Handle(AddTagsToHabit)])

  /** The router's stack, in registration order. */
  const HabitLayers: seq<Layer> := [
    Middleware(Authenticate), ListHabits, ShowHabit, CreateHabitRoute, UpdateHabitRoute,
    DeleteHabitRoute, CompleteHabitRoute, HabitsByTagRoute, AddTagsRoute
  ]

  /** The registration calls of the habit router. */
  method BuildHabitRouter() returns (router: Router)
    ensures fresh(router)
    ensures router.stack == HabitLayers
  {
    router := new Router();
    router.Use(Authenticate);
    assert router.stack == HabitLayers[..1];
    router.Route(ListHabits.verb, ListHabits.pattern, ListHabits.stages);
    assert router.stack == HabitLayers[..2];
    router.Route(ShowHabit.verb, ShowHabit.pattern, ShowHabit.stages);
    assert router.stack == HabitLayers[..3];
    router.Route(CreateHabitRoute.verb, CreateHabitRoute.pattern, CreateHabitRoute.stages);
    assert router.stack == HabitLayers[..4];
    router.Route(UpdateHabitRoute.verb, UpdateHabitRoute.pattern, UpdateHabitRoute.stages);
    assert router.stack == HabitLayers[..5];
    router.Route(DeleteHabitRoute.verb, DeleteHabitRoute.pattern, DeleteHabitRoute.stages);
    assert router.stack == HabitLayers[..6];
    router.Route(CompleteHabitRoute.verb, CompleteHabitRoute.pattern, CompleteHabitRoute.stages);
    assert router.stack == HabitLayers[..7];
    router.Route(HabitsByTagRoute.verb, HabitsByTagRoute.pattern, HabitsByTagRoute.stages);
    assert router.stack == HabitLayers[..8];
    router.Route(AddTagsRoute.verb, AddTagsRoute.pattern, AddTagsRoute.stages);
  }

  /** Every habit request, matched or not, goes through the gate first: no
      token gives 401, a refused token 403, and a handler is reached only
      with the token's claim as `user`. */
  lemma HabitsGated(env: Env, verb: Verb, path: seq<string>, req: Req)
    ensures var token := BearerToken(AuthHeader(req));
      var f := Dispatch(HabitLayers, env, verb, path, req);
      && (token.None? ==> f == Responded(401, ErrorBody("bad Request")))
      && (token.Some? && env.verify(token.value).Rejected? ==> f == Responded(403, ErrorBody("Forbidden")))
      && (f.Reached? ==> Admitted(env, req) && f.req.user == Claimed(env, req).user)
  {
    assert NoGateFrom(HabitLayers, 1);
    GatedRouter(HabitLayers, env, verb, path, req);
  }

  /** The id guard on a path segment that is not a UUID: 400 "Invalid
      params", with one detail naming `id`. */
  lemma IdGuardRefuses(env: Env, x: string, req: Req)
    requires !env.oracles.formats.isUuid(x)
    ensures Step(IdGuard, env, req.(params := map["id" := x])) ==
      Respond(400, ValidationErrorBody("Invalid params", [Detail("id", Text("Invalid habit ID format"))]))
  {
    var target := ParamsJson(map["id" := x]);
    UuidSchemaRejects(env.oracles.formats, target.fields);
    assert Join(["id"], '.') == "id";
    assert Segments([Key("id")]) == ["id"];
  }

  /** `GET /` has no guard: an admitted request reaches `getUserHabits`. */
  lemma ListingUnguarded(env: Env, req: Req)
    requires Admitted(env, req)
    ensures Dispatch(HabitLayers, env, Get, [], req) == Reached(GetUserHabits, Claimed(env, req).(params := map[]))
  {
    PastTheGate(HabitLayers, env, Get, [], req);
    EnterRoute(HabitLayers, 1, env, Get, [], Claimed(env, req));
  }

  /** The answer to an id that is not a UUID. */
  const IdRefusal: Final := Responded(400, ValidationErrorBody("Invalid params", [Detail("id", Text("Invalid habit ID format"))]))

  /** A route whose first stage is the id guard, entered with an id that
      is not a UUID, answers `IdRefusal` whatever stages follow. */
  lemma IdRouteRefuses(stack: seq<Layer>, k: nat, env: Env, verb: Verb, path: seq<string>, x: string, req: Req)
    requires k < |stack| && stack[k].Endpoint? && stack[k].verb == verb
    requires Match(stack[k].pattern, path) == Some(map["id" := x])
    requires |stack[k].stages| >= 1 && stack[k].stages[0] == IdGuard
    requires !env.oracles.formats.isUuid(x)
    ensures Walk(stack, k, env, verb, path, req) == IdRefusal
  {
    IdGuardRefuses(env, x, req);
    EnterDecided(stack, k, env, verb, path, req, map["id" := x], IdRefusal);
  }

  /** `GET /:id` is the first route that fits `GET /<x>`. */
  lemma ReachShow(env: Env, x: string, req: Req)
    requires Admitted(env, req) && x != ""
    ensures Dispatch(HabitLayers, env, Get, [x], req) == Walk(HabitLayers, 2, env, Get, [x], Claimed(env, req))
    ensures Match(HabitLayers[2].pattern, [x]) == Some(map["id" := x])
  {
    forall i | 1 <= i < 2 ensures Skipped(HabitLayers[i], Get, [x]) { }
    GatedWalk(HabitLayers, 2, env, Get, [x], req);
  }

  /** `PUT /:id` is the first route that fits `PUT /<x>`. */
  lemma ReachUpdate(env: Env, x: string, req: Req)
    requires Admitted(env, req) && x != ""
    ensures Dispatch(HabitLayers, env, Put, [x], req) == Walk(HabitLayers, 4, env, Put, [x], Claimed(env, req))
    ensures Match(HabitLayers[4].pattern, [x]) == Some(map["id" := x])
  {
    forall i | 1 <= i < 4 ensures Skipped(HabitLayers[i], Put, [x]) { }
    GatedWalk(HabitLayers, 4, env, Put, [x], req);
  }

  /** `DELETE /:id` is the first route that fits `DELETE /<x>`. */
  lemma ReachDelete(env: Env, x: string, req: Req)
    requires Admitted(env, req) && x != ""
    ensures Dispatch(HabitLayers, env, Delete, [x], req) == Walk(HabitLayers, 5, env, Delete, [x], Claimed(env, req))
    ensures Match(HabitLayers[5].pattern, [x]) == Some(map["id" := x])
  {
    forall i | 1 <= i < 5 ensures Skipped(HabitLayers[i], Delete, [x]) { }
    GatedWalk(HabitLayers, 5, env, Delete, [x], req);
  }

  /** `POST /:id/complete` is the first route that fits `POST /<x>/complete`. */
  lemma ReachComplete(env: Env, x: string, req: Req)
    requires Admitted(env, req) && x != ""
    ensures Dispatch(HabitLayers, env, Post, [x, "complete"], req) ==
      Walk(HabitLayers, 6, env, Post, [x, "complete"], Claimed(env, req))
    ensures Match(HabitLayers[6].pattern, [x, "complete"]) == Some(map["id" := x])
  {
    assert Match([Lit("complete")], ["complete"]) == Some(map[]);
    forall i | 1 <= i < 6 ensures Skipped(HabitLayers[i], Post, [x, "complete"]) { }
    GatedWalk(HabitLayers, 6, env, Post, [x, "complete"], req);
  }

  /** `POST /:id/tags` is the first route that fits `POST /<x>/tags`. */
  lemma ReachAddTags(env: Env, x: string, req: Req)
    requires Admitted(env, req) && x != ""
    ensures Dispatch(HabitLayers, env, Post, [x, "tags"], req) ==
      Walk(HabitLayers, 8, env, Post, [x, "tags"], Claimed(env, req))
    ensures Match(HabitLayers[8].pattern, [x, "tags"]) == Some(map["id" := x])
  {
    assert Match([Lit("tags")], ["tags"]) == Some(map[]);
    assert Match([Lit("complete")], ["tags"]).None?;
    forall i | 1 <= i < 8 ensures Skipped(HabitLayers[i], Post, [x, "tags"]) { }
    GatedWalk(HabitLayers, 8, env, Post, [x, "tags"], req);
  }

  /** `GET /tag/:tagId` is the first route that fits `GET /tag/<y>`. */
  lemma ReachByTag(env: Env, y: string, req: Req)
    requires Admitted(env, req) && y != ""
    ensures Dispatch(HabitLayers, env, Get, ["tag", y], req) ==
      Walk(HabitLayers, 7, env, Get, ["tag", y], Claimed(env, req))
    ensures Match(HabitLayers[7].pattern, ["tag", y]) == Some(map["tagId" := y])
  {
    assert Match([Param("tagId")], [y]) == Some(map["tagId" := y]);
    assert Match([Param("id")], ["tag", y]).None?;
    forall i | 1 <= i < 7 ensures Skipped(HabitLayers[i], Get, ["tag", y]) { }
    GatedWalk(HabitLayers, 7, env, Get, ["tag", y], req);
  }

  /** `POST /` is the first route that fits `POST /`. */
  lemma ReachCreate(env: Env, req: Req)
    requires Admitted(env, req)
    ensures Dispatch(HabitLayers, env, Post, [], req) == Walk(HabitLayers, 3, env, Post, [], Claimed(env, req))
    ensures Match(HabitLayers[3].pattern, []) == Some(map[])
  {
    forall i | 1 <= i < 3 ensures Skipped(HabitLayers[i], Post, []) { }
    GatedWalk(HabitLayers, 3, env, Post, [], req);
  }

  /** `GET /:id` refuses a non-UUID id before `getHabitById`. */
  lemma ShowChecksId(env: Env, x: string, req: Req)
    requires Admitted(env, req)
    requires x != "" && !env.oracles.formats.isUuid(x)
    ensures Dispatch(HabitLayers, env, Get, [x], req) == IdRefusal
  {
    ReachShow(env, x, req);
    IdRouteRefuses(HabitLayers, 2, env, Get, [x], x, Claimed(env, req));
  }

  /** `PUT /:id` refuses a non-UUID id before the body is looked at. */
  lemma UpdateChecksId(env: Env, x: string, req: Req)
    requires Admitted(env, req)
    requires x != "" && !env.oracles.formats.isUuid(x)
    ensures Dispatch(HabitLayers, env, Put, [x], req) == IdRefusal
  {
    ReachUpdate(env, x, req);
    IdRouteRefuses(HabitLayers, 4, env, Put, [x], x, Claimed(env, req));
  }

  /** `DELETE /:id` refuses a non-UUID id before `deleteHabit`. */
  lemma DeleteChecksId(env: Env, x: string, req: Req)
    requires Admitted(env, req)
    requires x != "" && !env.oracles.formats.isUuid(x)
    ensures Dispatch(HabitLayers, env, Delete, [x], req) == IdRefusal
  {
    ReachDelete(env, x, req);
    IdRouteRefuses(HabitLayers, 5, env, Delete, [x], x, Claimed(env, req));
  }

  /** `POST /:id/complete` refuses a non-UUID id before the body. */
  lemma CompleteChecksId(env: Env, x: string, req: Req)
    requires Admitted(env, req)
    requires x != "" && !env.oracles.formats.isUuid(x)
    ensures Dispatch(HabitLayers, env, Post, [x, "complete"], req) == IdRefusal
  {
    ReachComplete(env, x, req);
    IdRouteRefuses(HabitLayers, 6, env, Post, [x, "complete"], x, Claimed(env, req));
  }

  /** `POST /:id/tags` refuses a non-UUID id before the body. */
  lemma AddTagsChecksId(env: Env, x: string, req: Req)
    requires Admitted(env, req)
    requires x != "" && !env.oracles.formats.isUuid(x)
    ensures Dispatch(HabitLayers, env, Post, [x, "tags"], req) == IdRefusal
  {
    ReachAddTags(env, x, req);
    IdRouteRefuses(HabitLayers, 8, env, Post, [x, "tags"], x, Claimed(env, req));
  }

  /** Every route on a habit id checks the id first: a segment that is not
      a UUID is answered with 400 "Invalid params" before the handler runs
      and before any body is looked at. */
  lemma IdRoutesCheckId(env: Env, verb: Verb, path: seq<string>, x: string, req: Req)
    requires Admitted(env, req)
    requires x != "" && !env.oracles.formats.isUuid(x)
    requires (verb in {Get, Put, Delete} && path == [x]) ||
             (verb == Post && (path == [x, "complete"] || path == [x, "tags"]))
    ensures Dispatch(HabitLayers, env, verb, path, req) == IdRefusal
  {
    if path == [x] {
      if verb == Get {
        ShowChecksId(env, x, req);
      } else if verb == Put {
        UpdateChecksId(env, x, req);
      } else {
        DeleteChecksId(env, x, req);
      }
    } else if path == [x, "complete"] {
      CompleteChecksId(env, x, req);
    } else {
      AddTagsChecksId(env, x, req);
    }
  }

  /** The stages of `GET /tag/:tagId` on a tag id that is not a UUID. */
  lemma TagStagesRefuse(env: Env, y: string, req: Req)
    requires !env.oracles.formats.isUuid(y)
    ensures RunStages(HabitsByTagRoute.stages, env, req.(params := map["tagId" := y])) ==
      Responded(400, ValidationErrorBody("Invalid params", [Detail("tagId", Text("Invalid tag ID format"))]))
  {
    var params := map["tagId" := y];
    TagIdSchemaRejects(env.oracles.formats, ParamsJson(params).fields);
    assert Segments([Key("tagId")]) == ["tagId"];
    var r := req.(params := params);
    assert RunStages(HabitsByTagRoute.stages, env, r) == StepFinal(Step(HabitsByTagRoute.stages[0], env, r));
  }

  /** `GET /tag/:tagId` refuses a tag id that is not a UUID. */
  lemma TagRouteChecksTagId(env: Env, y: string, req: Req)
    requires Admitted(env, req)
    requires y != "" && !env.oracles.formats.isUuid(y)
    ensures Dispatch(HabitLayers, env, Get, ["tag", y], req) ==
      Responded(400, ValidationErrorBody("Invalid params", [Detail("tagId", Text("Invalid tag ID format"))]))
  {
    ReachByTag(env, y, req);
    TagStagesRefuse(env, y, Claimed(env, req));
    EnterDecided(HabitLayers, 7, env, Get, ["tag", y], Claimed(env, req), map["tagId" := y],
      Responded(400, ValidationErrorBody("Invalid params", [Detail("tagId", Text("Invalid tag ID format"))])));
  }

  /** `POST /` reaches `createHabit` exactly when `createHabitSchema`
      accepts the body, with the parsed body (defaults filled in, unknown
      keys dropped) in place of the sent one; otherwise 400 "Validation
      failed" with one detail per issue. */
  lemma CreateRoute(env: Env, req: Req)
    requires Admitted(env, req)
    ensures var p := Parse(CreateHabitSchema, env.oracles.formats, req.body);
      Dispatch(HabitLayers, env, Post, [], req) ==
        if p.Valid? then Reached(CreateHabit, Claimed(env, req).(params := map[], body := p.value.value))
        else Responded(400, ValidationErrorBody("Validation failed", Details(p.issues)))
  {
    ReachCreate(env, req);
    var p := Parse(CreateHabitSchema, env.oracles.formats, req.body);
    var r := Claimed(env, req).(params := map[]);
    assert RunStages(HabitLayers[3].stages, env, r) ==
      if p.Valid? then Reached(CreateHabit, r.(body := p.value.value))
      else Responded(400, ValidationErrorBody("Validation failed", Details(p.issues)));
    EnterDecided(HabitLayers, 3, env, Post, [], Claimed(env, req), map[], RunStages(HabitLayers[3].stages, env, r));
  }

  /** The stages of `PUT /:id` on a UUID: the body guard decides. */
  lemma UpdateStages(env: Env, x: string, req: Req)
    requires env.oracles.formats.isUuid(x)
    ensures var p := Parse(UpdateHabitSchema, env.oracles.formats, req.body);
      RunStages(UpdateHabitRoute.stages, env, req.(params := map["id" := x])) ==
        if p.Valid? then Reached(UpdateHabits, req.(params := map["id" := x], body := p.value.value))
        else Responded(400, ValidationErrorBody("Validation failed", Details(p.issues)))
  {
    var params := map["id" := x];
    var r := req.(params := params);
    IdSchemaOutcome(UuidSchema, "id", "Invalid habit ID format", env.oracles.formats, ParamsJson(params).fields);
    assert Step(IdGuard, env, r) == Continue(r);
    var bodyGuard := Validate(BodySurface, Declared(UpdateHabitSchema));
    var stages := UpdateHabitRoute.stages;
    assert stages == [IdGuard, bodyGuard, Handle(UpdateHabits)];
    assert RunStages(stages, env, r) == RunStages(stages[1..], env, r);
    assert RunStages(stages[1..], env, r) ==
      var b := Step(bodyGuard, env, r);
      if b.Continue? then Reached(UpdateHabits, b.req) else StepFinal(b);
  }

  /** `PUT /:id` with a UUID reaches `updateHabits` exactly when
      `updateHabitSchema` accepts the body. */
  lemma UpdateRoute(env: Env, x: string, req: Req)
    requires Admitted(env, req)
    requires x != "" && env.oracles.formats.isUuid(x)
    ensures var p := Parse(UpdateHabitSchema, env.oracles.formats, req.body);
      Dispatch(HabitLayers, env, Put, [x], req) ==
        if p.Valid? then Reached(UpdateHabits, Claimed(env, req).(params := map["id" := x], body := p.value.value))
        else Responded(400, ValidationErrorBody("Validation failed", Details(p.issues)))
  {
    ReachUpdate(env, x, req);
    UpdateStages(env, x, Claimed(env, req));
    var r := Claimed(env, req).(params := map["id" := x]);
    EnterDecided(HabitLayers, 4, env, Put, [x], Claimed(env, req), map["id" := x], RunStages(HabitLayers[4].stages, env, r));
  }
}
