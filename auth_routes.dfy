/** The authentication router, mounted at `/api/auth`: registration and
    login, each guarded by a body schema and neither behind the gate. */
module AuthRoutes {
  import opened Wire
  import opened Text
  import opened Zod
  import opened Http
  import opened Validation
  import opened AuthSchemas
  import opened Pipeline

  /** The router's stack, in registration order. */
  const AuthLayers: seq<Layer> := [
    Endpoint(Post, [Lit("register")], [Validate(BodySurface, External("insertUserSchema")), Handle(Register)]),
    Endpoint(Post, [Lit("login")], [Validate(BodySurface, Declared(LoginSchema)), Handle(Login)])
  ]

  /** The registration calls of the authentication router. */
  method BuildAuthRouter() returns (router: Router)
    ensures fresh(router)
    ensures router.stack == AuthLayers
  {
    router := new Router();
    router.Route(Post, [Lit("register")], [Validate(BodySurface, External("insertUserSchema")), Handle(Register)]);
    router.Route(Post, [Lit("login")], [Validate(BodySurface, Declared(LoginSchema)), Handle(Login)]);
  }

  /** Nothing here asks for a token: a handler sees the caller's headers
      and `user` as they came. */
  lemma AuthRoutesOpen(env: Env, verb: Verb, path: seq<string>, req: Req)
    ensures var f := Dispatch(AuthLayers, env, verb, path, req);
      f.Reached? ==> f.req.user == req.user && f.req.headers == req.headers
  {
    assert NoGateFrom(AuthLayers, 0);
    DispatchKeepsIdentity(AuthLayers, env, verb, path, req);
  }

  /** `POST /login` reaches `login` exactly when `loginSchema` accepts the
      body, with the parsed body; otherwise 400 "Validation failed" with
      one detail per issue. */
  lemma LoginRoute(env: Env, req: Req)
    ensures var p := Parse(LoginSchema, env.oracles.formats, req.body);
      Dispatch(AuthLayers, env, Post, ["login"], req) ==
        if p.Valid? then Reached(Login, req.(params := map[], body := p.value.value))
        else Responded(400, ValidationErrorBody("Validation failed", Details(p.issues)))
  {
    assert Match([Lit("register")], ["login"]).None?;
    assert Match([Lit("login")], ["login"]) == Some(map[]);
    PassOver(AuthLayers, 0, env, Post, ["login"], req);
    EnterRoute(AuthLayers, 1, env, Post, ["login"], req);
  }

  /** A login body without a valid e-mail is answered with 400 whose first
      detail names the field `email` with "Invalid email". */
  lemma LoginNeedsEmail(env: Env, m: map<string, Json>, req: Req)
    requires req.body == JObj(m) && !EmailOk(env.oracles.formats, m)
    ensures var f := Dispatch(AuthLayers, env, Post, ["login"], req);
      && f.Responded? && f.status == 400
      && f.body.ValidationErrorBody? && f.body.error == "Validation failed"
      && |f.body.details| >= 1
      && f.body.details[0] == Detail("email", Text("Invalid email"))
  {
    LoginRoute(env, req);
    LoginRejectsEmail(env.oracles.formats, m);
    assert Segments([Key("email")]) == ["email"];
  }

  /** `POST /register` reaches `register` exactly when `insertUserSchema`
      accepts the body; a refusal is answered with 400 and an error it
      throws is passed on. */
  lemma RegisterRoute(env: Env, req: Req)
    ensures var p := env.oracles.external("insertUserSchema", req.body);
      Dispatch(AuthLayers, env, Post, ["register"], req) ==
        if p.Accepted? then Reached(Register, req.(params := map[], body := p.value))
        else if p.Rejected? then Responded(400, ValidationErrorBody("Validation failed", Details(p.issues)))
        else Failed(p.fault)
  {
    assert Match([Lit("register")], ["register"]) == Some(map[]);
    EnterRoute(AuthLayers, 0, env, Post, ["register"], req);
  }
}
