/** The tag router. It checks bodies with the database-derived
    `insertTagSchema`, run by an oracle, and ids with `tagIdSchema`; on
    `PUT /:tagId` the body is checked before the id. The application does
    not mount it (see `App`). */
module TagRoutes {
  import opened Wire
  import opened Text
  import opened Zod
  import opened Http
  import opened Validation
  import opened Auth
  import opened HabitSchemas
  import opened Pipeline

  const TagBodyGuard: Stage := Validate(BodySurface, External("insertTagSchema"))
  const TagIdGuard: Stage := Validate(ParamsSurface, Declared(TagIdSchema))

  const ListTags: Layer := Endpoint(Get, [], [Handle(GetTag)])
  const CreateTagRoute: Layer := Endpoint(Post, [], [TagBodyGuard, Handle(AddTag)])
  const DeleteTagRoute: Layer := Endpoint(Delete, [Param("tagId")], [TagIdGuard, Handle(DeleteTag)])
  const UpdateTagRoute: Layer := Endpoint(Put, [Param("tagId")], [TagBodyGuard, TagIdGuard, Handle(UpdateTag)])

  /** The router's stack, in registration order. */
  const TagLayers: seq<Layer> := [Middleware(Authenticate), ListTags, CreateTagRoute, DeleteTagRoute, UpdateTagRoute]

  /** The registration calls of the tag router. */
  method BuildTagRouter() returns (router: Router)
    ensures fresh(router)
    ensures router.stack == TagLayers
  {
    router := new Router();
    router.Use(Authenticate);
    router.Route(ListTags.verb, ListTags.pattern, ListTags.stages);
    router.Route(CreateTagRoute.verb, CreateTagRoute.pattern, CreateTagRoute.stages);
    router.Route(DeleteTagRoute.verb, DeleteTagRoute.pattern, DeleteTagRoute.stages);
    router.Route(UpdateTagRoute.verb, UpdateTagRoute.pattern, UpdateTagRoute.stages);
  }

  /** Every tag request goes through the gate first. */
  lemma TagsGated(env: Env, verb: Verb, path: seq<string>, req: Req)
    ensures var token := BearerToken(AuthHeader(req));
      var f := Dispatch(TagLayers, env, verb, path, req);
      && (token.None? ==> f == Responded(401, ErrorBody("bad Request")))
      && (token.Some? && env.verify(token.value).Rejected? ==> f == Responded(403, ErrorBody("Forbidden")))
      && (f.Reached? ==> Admitted(env, req) && f.req.user == Claimed(env, req).user)
  {
    assert NoGateFrom(TagLayers, 1);
    GatedRouter(TagLayers, env, verb, path, req);
  }

  /** `GET /` has no guard: an admitted request reaches `getTag`. */
  lemma TagListingUnguarded(env: Env, req: Req)
    requires Admitted(env, req)
    ensures Dispatch(TagLayers, env, Get, [], req) == Reached(GetTag, Claimed(env, req).(params := map[]))
  {
    PastTheGate(TagLayers, env, Get, [], req);
    EnterRoute(TagLayers, 1, env, Get, [], Claimed(env, req));
  }

  /** The id guard on a segment that is not a UUID. */
  lemma TagIdGuardRefuses(env: Env, y: string, req: Req)
    requires !env.oracles.formats.isUuid(y)
    ensures Step(TagIdGuard, env, req.(params := map["tagId" := y])) ==
      Respond(400, ValidationErrorBody("Invalid params", [Detail("tagId", Text("Invalid tag ID format"))]))
  {
    TagIdSchemaRejects(env.oracles.formats, ParamsJson(map["tagId" := y]).fields);
    assert Segments([Key("tagId")]) == ["tagId"];
  }

  /** The id guard lets a UUID segment through and leaves the request as it was. */
  lemma TagIdGuardAccepts(env: Env, y: string, req: Req)
    requires env.oracles.formats.isUuid(y)
    ensures Step(TagIdGuard, env, req.(params := map["tagId" := y])) ==
      Continue(req.(params := map["tagId" := y]))
  {
    var m := ParamsJson(map["tagId" := y]).fields;
    IdSchemaOutcome(TagIdSchema, "tagId", "Invalid tag ID format", env.oracles.formats, m);
  }

  /** The answer to a tag id that is not a UUID. */
  const TagIdRefusal: Final :=
    Responded(400, ValidationErrorBody("Invalid params", [Detail("tagId", Text("Invalid tag ID format"))]))

  /** `DELETE /:tagId` is the first route that fits `DELETE /<y>`. */
  lemma ReachDeleteTag(env: Env, y: string, req: Req)
    requires Admitted(env, req) && y != ""
    ensures Dispatch(TagLayers, env, Delete, [y], req) == Walk(TagLayers, 3, env, Delete, [y], Claimed(env, req))
    ensures Match(TagLayers[3].pattern, [y]) == Some(map["tagId" := y])
  {
    forall i | 1 <= i < 3 ensures Skipped(TagLayers[i], Delete, [y]) { }
    GatedWalk(TagLayers, 3, env, Delete, [y], req);
  }

  /** `PUT /:tagId` is the first route that fits `PUT /<y>`. */
  lemma ReachUpdateTag(env: Env, y: string, req: Req)
    requires Admitted(env, req) && y != ""
    ensures Dispatch(TagLayers, env, Put, [y], req) == Walk(TagLayers, 4, env, Put, [y], Claimed(env, req))
    ensures Match(TagLayers[4].pattern, [y]) == Some(map["tagId" := y])
  {
    forall i | 1 <= i < 4 ensures Skipped(TagLayers[i], Put, [y]) { }
    GatedWalk(TagLayers, 4, env, Put, [y], req);
  }

  /** `DELETE /:tagId` refuses a non-UUID id before the handler. */
  lemma DeleteTagChecksId(env: Env, y: string, req: Req)
    requires Admitted(env, req)
    requires y != "" && !env.oracles.formats.isUuid(y)
    ensures Dispatch(TagLayers, env, Delete, [y], req) == TagIdRefusal
  {
    ReachDeleteTag(env, y, req);
    var r := Claimed(env, req).(params := map["tagId" := y]);
    TagIdGuardRefuses(env, y, Claimed(env, req));
    assert RunStages(DeleteTagRoute.stages, env, r) == StepFinal(Step(TagIdGuard, env, r));
    EnterDecided(TagLayers, 3, env, Delete, [y], Claimed(env, req), map["tagId" := y], TagIdRefusal);
  }

  /** The stages of `PUT /:tagId`: the body guard first, then the id guard. */
  lemma UpdateTagStages(env: Env, y: string, req: Req)
    ensures var p := env.oracles.external("insertTagSchema", req.body);
      var f := RunStages(UpdateTagRoute.stages, env, req.(params := map["tagId" := y]));
      && (p.Rejected? ==> f == Responded(400, ValidationErrorBody("Validation failed", Details(p.issues))))
      && (p.Crashed? ==> f == Failed(p.fault))
      && (p.Accepted? && !env.oracles.formats.isUuid(y) ==> f == TagIdRefusal)
      && (p.Accepted? && env.oracles.formats.isUuid(y) ==>
            f == Reached(UpdateTag, req.(params := map["tagId" := y], body := p.value)))
      && !f.Unmatched?
  {
    var r := req.(params := map["tagId" := y]);
    var b := Step(TagBodyGuard, env, r);
    var stages := UpdateTagRoute.stages;
    if b.Continue? {
      assert b.req == r.(body := b.req.body);
      if !env.oracles.formats.isUuid(y) {
        TagIdGuardRefuses(env, y, req.(body := b.req.body));
      } else {
        TagIdGuardAccepts(env, y, req.(body := b.req.body));
      }
      assert RunStages(stages, env, r) == RunStages(stages[1..], env, b.req);
      assert RunStages(stages[1..], env, b.req) ==
        var c := Step(TagIdGuard, env, b.req);
        if c.Continue? then Reached(UpdateTag, c.req) else StepFinal(c);
    } else {
      assert RunStages(stages, env, r) == StepFinal(b);
    }
  }

  /** `PUT /:tagId` looks at the body before the id: a body the schema
      refuses is answered with 400 "Validation failed" whatever the id, and
      an error the schema throws is passed on; only an accepted body lets
      the id be checked, and with a UUID id `updateTag` gets the parsed body. */
  lemma UpdateTagChecksBodyFirst(env: Env, y: string, req: Req)
    requires Admitted(env, req)
    requires y != ""
    ensures var p := env.oracles.external("insertTagSchema", req.body);
      var f := Dispatch(TagLayers, env, Put, [y], req);
      && (p.Rejected? ==> f == Responded(400, ValidationErrorBody("Validation failed", Details(p.issues))))
      && (p.Crashed? ==> f == Failed(p.fault))
      && (p.Accepted? && !env.oracles.formats.isUuid(y) ==> f == TagIdRefusal)
      && (p.Accepted? && env.oracles.formats.isUuid(y) ==>
            f == Reached(UpdateTag, Claimed(env, req).(params := map["tagId" := y], body := p.value)))
  {
    ReachUpdateTag(env, y, req);
    UpdateTagStages(env, y, Claimed(env, req));
    var r := Claimed(env, req).(params := map["tagId" := y]);
    EnterDecided(TagLayers, 4, env, Put, [y], Claimed(env, req), map["tagId" := y], RunStages(UpdateTagRoute.stages, env, r));
  }
}
