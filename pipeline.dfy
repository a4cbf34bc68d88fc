/** Routes as ordered pipelines of stages. Each stage either continues
    with a (possibly transformed) request or ends the request; a route's
    handler runs only when every stage before it continued. A router is
    built by successive registration calls that append to its stack, and
    dispatching walks that stack in registration order, as Express does. */
module Pipeline {
  import opened Wire
  import opened Http
  import opened Validation
  import opened Auth

  /** The controllers, which are the opaque final stage of a pipeline. */
  datatype Handler =
    | GetUserHabits | GetHabitById | CreateHabit | UpdateHabits | DeleteHabit
    | CompleteHabit | GetHabitsByTag | AddTagsToHabit
    | GetUsers | GetUserById | UpdateUser | DeleteUser
    | GetTag | AddTag | DeleteTag | UpdateTag
    | Register | Login
    | Health

  datatype Stage =
    | Authenticate
    | Validate(surface: Surface, schema: SchemaRef)
    | Handle(handler: Handler)

  datatype Verb = Get | Post | Put | Delete

  /** One segment of a route pattern: `tag` or `:tagId`. */
  datatype Part = Lit(text: string) | Param(name: string)

  /** An entry of a router's stack: `router.use(stage)`, or a route
      `router.<verb>(pattern, ...stages)`. */
  datatype Layer =
    | Middleware(stage: Stage)
    | Endpoint(verb: Verb, pattern: seq<Part>, stages: seq<Stage>)

  /** What the stages consult but this model does not interpret. */
  datatype Env = Env(oracles: Oracles, verify: Verifier)

  /** How a request ends: answered by a stage, taken over by a handler,
      passed to Express's error handling, or matched by nothing here. */
  datatype Final =
    | Responded(status: int, body: Body)
    | Reached(handler: Handler, req: Req)
    | Failed(fault: Fault)
    | Unmatched(req: Req)

  /** The outcome of a middleware stage. */
  function Step(stage: Stage, env: Env, req: Req): StepResult
    requires !stage.Handle?
  {
    match stage
    case Authenticate => AuthStep(req, env.verify)
    case Validate(surface, schema) => ValidationStep(surface, schema, env.oracles, req)
  }

  /** A stage that continues has changed at most what it may change: the
      gate only `user`, a guard only `body`. */
  lemma StepChanges(stage: Stage, env: Env, req: Req)
    requires !stage.Handle? && Step(stage, env, req).Continue?
    ensures var r := Step(stage, env, req).req;
      r.headers == req.headers && r.params == req.params && r.query == req.query
      && (stage.Validate? ==> r.user == req.user)
      && (stage.Authenticate? ==> r.body == req.body)
  {
  }

  function StepFinal(r: StepResult): Final
    requires !r.Continue?
  {
    match r
    case Respond(status, body) => Responded(status, body)
    case Forward(fault) => Failed(fault)
  }

  /** Runs a route's stages in order. */
  function RunStages(stages: seq<Stage>, env: Env, req: Req): Final {
    if stages == [] then Unmatched(req)
    else if stages[0].Handle? then Reached(stages[0].handler, req)
    else
      var r := Step(stages[0], env, req);
      if r.Continue? then RunStages(stages[1..], env, r.req) else StepFinal(r)
  }

  predicate NoHandler(stages: seq<Stage>) {
    forall i :: 0 <= i < |stages| ==> !stages[i].Handle?
  }

  /** The middleware stages of a route composed: continue through all of
      them, or stop at the first that does not continue. */
  function Thread(stages: seq<Stage>, env: Env, req: Req): StepResult
    requires NoHandler(stages)
  {
    if stages == [] then Continue(req)
    else
      var r := Step(stages[0], env, req);
      if r.Continue? then Thread(stages[1..], env, r.req) else r
  }

  /** A handler placed after middleware stages runs exactly when all of them
      continued, and on the request as they left it; otherwise the first
      stage that did not continue decides the outcome, and nothing after
      the handler ever runs. */
  lemma {:induction false} HandlerRunsOnlyAfterAll(pre: seq<Stage>, h: Handler, post: seq<Stage>, env: Env, req: Req)
    requires NoHandler(pre)
    ensures RunStages(pre + [Handle(h)] + post, env, req) ==
      var t := Thread(pre, env, req);
      if t.Continue? then Reached(h, t.req) else StepFinal(t)
  {
    var stages := pre + [Handle(h)] + post;
    if pre != [] {
      assert stages[0] == pre[0];
      assert stages[1..] == pre[1..] + [Handle(h)] + post;
      var r := Step(pre[0], env, req);
      if r.Continue? {
        HandlerRunsOnlyAfterAll(pre[1..], h, post, env, r.req);
      }
    }
  }

  /** Whether a route pattern matches the segments of a path, and the
      parameters it binds. A parameter matches any non-empty segment, and
      `req.params` binds exactly the pattern's parameter names, each one
      that occurs once to the segment in its place. */
  function Match(pattern: seq<Part>, path: seq<string>): (r: Option<map<string, string>>)
    ensures r.Some? <==> (|pattern| == |path| &&
                          forall i :: 0 <= i < |pattern| ==>
                            (pattern[i].Lit? ==> path[i] == pattern[i].text) &&
                            (pattern[i].Param? ==> path[i] != ""))
    ensures r.Some? ==> forall i :: 0 <= i < |pattern| && pattern[i].Param? ==> pattern[i].name in r.value
    ensures r.Some? ==> forall k :: k in r.value ==>
      exists i :: 0 <= i < |pattern| && pattern[i] == Param(k)
    ensures r.Some? ==> forall i :: 0 <= i < |pattern| && pattern[i].Param? ==>
      (forall j :: 0 <= j < |pattern| && j != i ==> pattern[j] != pattern[i]) ==>
      r.value[pattern[i].name] == path[i]
  {
    if |pattern| != |path| then None
    else if pattern == [] then Some(map[])
    else
      var rest := Match(pattern[1..], path[1..]);
      if rest.None? then None
      else
        match pattern[0]
        case Lit(text) => if path[0] == text then rest else None
        case Param(name) => if path[0] != "" then Some(rest.value[name := path[0]]) else None
  }

  /** Walks a router's stack from layer `k` on, as Express's `next()` does,
      for a request with the given verb and path (relative to where the
      router is mounted). A route that fits runs its stages on the request
      with the parameters it bound; one that does not is passed over. */
  function Walk(stack: seq<Layer>, k: nat, env: Env, verb: Verb, path: seq<string>, req: Req): Final
    decreases |stack| - k
  {
    if k >= |stack| then Unmatched(req)
    else
      match stack[k]
      case Middleware(stage) =>
        if stage.Handle? then Reached(stage.handler, req)
        else
          var r := Step(stage, env, req);
          if r.Continue? then Walk(stack, k + 1, env, verb, path, r.req) else StepFinal(r)
      case Endpoint(v, pattern, stages) =>
        var m := Match(pattern, path);
        if v == verb && m.Some? then
          var f := RunStages(stages, env, req.(params := m.value));
          if f.Unmatched? then Walk(stack, k + 1, env, verb, path, f.req) else f
        else Walk(stack, k + 1, env, verb, path, req)
  }

  /** A router handling a request. */
  function Dispatch(stack: seq<Layer>, env: Env, verb: Verb, path: seq<string>, req: Req): Final {
    Walk(stack, 0, env, verb, path, req)
  }

  /** The layer can hand a request to `h`. */
  predicate HandsTo(layer: Layer, h: Handler) {
    (layer.Middleware? && layer.stage == Handle(h)) || (layer.Endpoint? && Handle(h) in layer.stages)
  }

  /** The handlers a stack can hand a request to. */
  predicate Declares(stack: seq<Layer>, h: Handler) {
    exists i :: 0 <= i < |stack| && HandsTo(stack[i], h)
  }

  lemma {:induction false} RunStagesReachesDeclared(stages: seq<Stage>, env: Env, req: Req)
    ensures RunStages(stages, env, req).Reached? ==> Handle(RunStages(stages, env, req).handler) in stages
  {
    if stages != [] && !stages[0].Handle? {
      var r := Step(stages[0], env, req);
      if r.Continue? {
        RunStagesReachesDeclared(stages[1..], env, r.req);
      }
    }
  }

  lemma {:induction false} OnlyDeclaredFrom(stack: seq<Layer>, k: nat, env: Env, verb: Verb, path: seq<string>, req: Req)
    ensures var f := Walk(stack, k, env, verb, path, req);
      f.Reached? ==> exists i :: k <= i < |stack| && HandsTo(stack[i], f.handler)
    decreases |stack| - k
  {
    if k < |stack| {
      var f := Walk(stack, k, env, verb, path, req);
      match stack[k]
      case Middleware(stage) =>
        if stage.Handle? {
          assert HandsTo(stack[k], f.handler);
        } else {
          var r := Step(stage, env, req);
          if r.Continue? {
            OnlyDeclaredFrom(stack, k + 1, env, verb, path, r.req);
          }
        }
      case Endpoint(v, pattern, stages) =>
        var m := Match(pattern, path);
        if v == verb && m.Some? {
          var g := RunStages(stages, env, req.(params := m.value));
          RunStagesReachesDeclared(stages, env, req.(params := m.value));
          if g.Unmatched? {
            OnlyDeclaredFrom(stack, k + 1, env, verb, path, g.req);
          } else if g.Reached? {
            assert HandsTo(stack[k], f.handler);
          }
        } else {
          OnlyDeclaredFrom(stack, k + 1, env, verb, path, req);
        }
    }
  }

  /** A request only ever reaches a handler registered in the stack. */
  lemma OnlyDeclaredHandlers(stack: seq<Layer>, env: Env, verb: Verb, path: seq<string>, req: Req)
    ensures Dispatch(stack, env, verb, path, req).Reached? ==>
      Declares(stack, Dispatch(stack, env, verb, path, req).handler)
  {
    OnlyDeclaredFrom(stack, 0, env, verb, path, req);
  }

  /** The layer never runs the bearer-token gate. */
  predicate Ungated(layer: Layer) {
    (layer.Middleware? ==> layer.stage != Authenticate) &&
    (layer.Endpoint? ==> Authenticate !in layer.stages)
  }

  /** No layer from `k` on runs the gate. */
  predicate NoGateFrom(stack: seq<Layer>, k: nat) {
    forall i :: k <= i < |stack| ==> Ungated(stack[i])
  }

  lemma {:induction false} RunStagesKeepsIdentity(stages: seq<Stage>, env: Env, req: Req)
    requires Authenticate !in stages
    ensures var f := RunStages(stages, env, req);
      (f.Reached? || f.Unmatched?) ==> f.req.user == req.user && f.req.headers == req.headers
  {
    if stages != [] && !stages[0].Handle? {
      var r := Step(stages[0], env, req);
      if r.Continue? {
        StepChanges(stages[0], env, req);
        assert stages[0] in stages;
        assert Authenticate !in stages[1..] by {
          forall k | 0 <= k < |stages[1..]| ensures stages[1..][k] != Authenticate {
            assert stages[1..][k] == stages[k + 1];
          }
        }
        RunStagesKeepsIdentity(stages[1..], env, r.req);
      }
    }
  }

  /** Without a gate from layer `k` on, a handler sees the headers and
      `user` the walk had at `k`. */
  lemma {:induction false} WalkKeepsIdentity(stack: seq<Layer>, k: nat, env: Env, verb: Verb, path: seq<string>, req: Req)
    requires NoGateFrom(stack, k)
    ensures var f := Walk(stack, k, env, verb, path, req);
      (f.Reached? || f.Unmatched?) ==> f.req.user == req.user && f.req.headers == req.headers
    decreases |stack| - k
  {
    if k < |stack| {
      assert Ungated(stack[k]);
      match stack[k]
      case Middleware(stage) =>
        if !stage.Handle? {
          var r := Step(stage, env, req);
          if r.Continue? {
            StepChanges(stage, env, req);
            WalkKeepsIdentity(stack, k + 1, env, verb, path, r.req);
          }
        }
      case Endpoint(v, pattern, stages) =>
        var m := Match(pattern, path);
        if v == verb && m.Some? {
          RunStagesKeepsIdentity(stages, env, req.(params := m.value));
          var g := RunStages(stages, env, req.(params := m.value));
          if g.Unmatched? {
            WalkKeepsIdentity(stack, k + 1, env, verb, path, g.req);
          }
        } else {
          WalkKeepsIdentity(stack, k + 1, env, verb, path, req);
        }
    }
  }

  /** Without a gate in the stack, a handler sees the caller's headers and
      `user` unchanged. */
  lemma DispatchKeepsIdentity(stack: seq<Layer>, env: Env, verb: Verb, path: seq<string>, req: Req)
    requires NoGateFrom(stack, 0)
    ensures var f := Dispatch(stack, env, verb, path, req);
      (f.Reached? || f.Unmatched?) ==> f.req.user == req.user && f.req.headers == req.headers
  {
    WalkKeepsIdentity(stack, 0, env, verb, path, req);
  }

  /** A router whose first layer is the bearer-token gate (and which has no
      other gate) answers 401 when there is no token and 403 when the
      verifier refuses it; a handler is reached only with a token the
      verifier accepted, and sees its claim as `user`. */
  lemma GatedRouter(stack: seq<Layer>, env: Env, verb: Verb, path: seq<string>, req: Req)
    requires |stack| >= 1 && stack[0] == Middleware(Authenticate) && NoGateFrom(stack, 1)
    ensures var token := BearerToken(AuthHeader(req));
      var f := Dispatch(stack, env, verb, path, req);
      && (token.None? ==> f == Responded(401, ErrorBody("bad Request")))
      && (token.Some? && env.verify(token.value).Rejected? ==> f == Responded(403, ErrorBody("Forbidden")))
      && (f.Reached? ==> token.Some? && env.verify(token.value).Verified?
                         && f.req.user == Some(env.verify(token.value).claim))
  {
    var r := AuthStep(req, env.verify);
    if r.Continue? {
      WalkKeepsIdentity(stack, 1, env, verb, path, r.req);
    }
  }

  /** The request carries a token the verifier accepts. */
  predicate Admitted(env: Env, req: Req) {
    BearerToken(AuthHeader(req)).Some? && env.verify(BearerToken(AuthHeader(req)).value).Verified?
  }

  /** The request as the gate passes it on. */
  function Claimed(env: Env, req: Req): Req
    requires Admitted(env, req)
  {
    req.(user := Some(env.verify(BearerToken(AuthHeader(req)).value).claim))
  }

  /** A route that does not fit the verb or the path. */
  predicate Skipped(layer: Layer, verb: Verb, path: seq<string>) {
    layer.Endpoint? && (layer.verb != verb || Match(layer.pattern, path).None?)
  }

  /** A route that does not fit is passed over. */
  lemma PassOver(stack: seq<Layer>, k: nat, env: Env, verb: Verb, path: seq<string>, req: Req)
    requires k < |stack| && Skipped(stack[k], verb, path)
    ensures Walk(stack, k, env, verb, path, req) == Walk(stack, k + 1, env, verb, path, req)
  {
  }

  /** Routes that do not fit are passed over one after the other. */
  lemma {:induction false} PassOverAll(stack: seq<Layer>, k: nat, j: nat, env: Env, verb: Verb, path: seq<string>, req: Req)
    requires k <= j <= |stack|
    requires forall i :: k <= i < j ==> Skipped(stack[i], verb, path)
    ensures Walk(stack, k, env, verb, path, req) == Walk(stack, j, env, verb, path, req)
    decreases j - k
  {
    if k < j {
      PassOver(stack, k, env, verb, path, req);
      PassOverAll(stack, k + 1, j, env, verb, path, req);
    }
  }

  /** A route that fits runs its stages on the request with the parameters
      it bound, and decides the outcome unless they fall through. */
  lemma EnterRoute(stack: seq<Layer>, k: nat, env: Env, verb: Verb, path: seq<string>, req: Req)
    requires k < |stack| && stack[k].Endpoint?
    requires stack[k].verb == verb && Match(stack[k].pattern, path).Some?
    requires !RunStages(stack[k].stages, env, req.(params := Match(stack[k].pattern, path).value)).Unmatched?
    ensures Walk(stack, k, env, verb, path, req) ==
      RunStages(stack[k].stages, env, req.(params := Match(stack[k].pattern, path).value))
  {
  }

  /** Past a gate that accepts the token, the rest of the stack sees the
      request with the token's claim as `user`. */
  lemma PastTheGate(stack: seq<Layer>, env: Env, verb: Verb, path: seq<string>, req: Req)
    requires |stack| >= 1 && stack[0] == Middleware(Authenticate) && Admitted(env, req)
    ensures Dispatch(stack, env, verb, path, req) == Walk(stack, 1, env, verb, path, Claimed(env, req))
  {
  }

  /** Behind a gate that accepts the token, a request that every route
      before `k` passes over arrives at layer `k` with the token's claim as
      `user`. */
  lemma GatedWalk(stack: seq<Layer>, k: nat, env: Env, verb: Verb, path: seq<string>, req: Req)
    requires 1 <= k <= |stack| && stack[0] == Middleware(Authenticate) && Admitted(env, req)
    requires forall i :: 1 <= i < k ==> Skipped(stack[i], verb, path)
    ensures Dispatch(stack, env, verb, path, req) == Walk(stack, k, env, verb, path, Claimed(env, req))
  {
    PastTheGate(stack, env, verb, path, req);
    PassOverAll(stack, 1, k, env, verb, path, Claimed(env, req));
  }

  /** A route that fits the request, binding `params`, and whose stages
      decide `f` (anything but falling through) gives `f`. */
  lemma EnterDecided(stack: seq<Layer>, k: nat, env: Env, verb: Verb, path: seq<string>, req: Req,
                     params: map<string, string>, f: Final)
    requires k < |stack| && stack[k].Endpoint? && stack[k].verb == verb
    requires Match(stack[k].pattern, path) == Some(params)
    requires RunStages(stack[k].stages, env, req.(params := params)) == f && !f.Unmatched?
    ensures Walk(stack, k, env, verb, path, req) == f
  {
  }

  /** A router being registered. */
  class Router {
    var stack: seq<Layer>

    constructor ()
      ensures stack == []
    {
      stack := [];
    }

    /** `router.use(stage)`. */
    method Use(stage: Stage)
      modifies this
      ensures stack == old(stack) + [Middleware(stage)]
    {
      stack := stack + [Middleware(stage)];
    }

    /** `router.get(pattern, ...stages)`, and likewise for the other verbs. */
    method Route(verb: Verb, pattern: seq<Part>, stages: seq<Stage>)
      modifies this
      ensures stack == old(stack) + [Endpoint(verb, pattern, stages)]
    {
      stack := stack + [Endpoint(verb, pattern, stages)];
    }
  }
}
