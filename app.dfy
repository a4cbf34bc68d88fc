/** The application: a health route, then the authentication, user and
    habit routers mounted under `/api`. The tag router is defined but not
    mounted, so its handlers cannot be reached. Paths are given as their
    '/'-separated segments. */
module App {
  import opened Wire
  import opened Http
  import opened Auth
  import opened Pipeline
  import opened AuthRoutes
  import opened UserRoutes
  import opened HabitRoutes

  /** Whether `path` starts with `/api/<name>`. */
  predicate Under(path: seq<string>, name: string) {
    |path| >= 2 && path[0] == "api" && path[1] == name
  }

  /** The app's handling of a request, after the body parsers. */
  function Serve(env: Env, verb: Verb, path: seq<string>, req: Req): Final {
    if verb == Get && path == ["health"] then Reached(Health, req)
    else if Under(path, "auth") then Dispatch(AuthLayers, env, verb, path[2..], req)
    else if Under(path, "users") then Dispatch(UserLayers, env, verb, path[2..], req)
    else if Under(path, "habits") then Dispatch(HabitLayers, env, verb, path[2..], req)
    else Unmatched(req)
  }

  predicate IsTagHandler(h: Handler) {
    h in {GetTag, AddTag, DeleteTag, UpdateTag}
  }

  /** A stack none of whose stages hands over to a tag handler declares none. */
  lemma NoTagHandlerIn(stack: seq<Layer>)
    requires forall i :: 0 <= i < |stack| ==>
      (stack[i].Middleware? ==> !stack[i].stage.Handle?) &&
      (stack[i].Endpoint? ==> forall g :: IsTagHandler(g) ==> Handle(g) !in stack[i].stages)
    ensures forall h :: IsTagHandler(h) ==> !Declares(stack, h)
  {
  }

  /** The mounted routers declare no tag handler. */
  lemma MountedDeclareNoTagHandler(h: Handler)
    requires IsTagHandler(h)
    ensures !Declares(AuthLayers, h) && !Declares(UserLayers, h) && !Declares(HabitLayers, h)
  {
    NoTagHandlerIn(AuthLayers);
    NoTagHandlerIn(UserLayers);
    NoTagHandlerIn(HabitLayers);
  }

  /** The tag routes are not mounted: no request reaches a tag handler. */
  lemma TagHandlersUnreachable(env: Env, verb: Verb, path: seq<string>, req: Req)
    ensures var f := Serve(env, verb, path, req);
      f.Reached? ==> !IsTagHandler(f.handler)
  {
    var f := Serve(env, verb, path, req);
    if Under(path, "auth") {
      OnlyDeclaredHandlers(AuthLayers, env, verb, path[2..], req);
    } else if Under(path, "users") {
      OnlyDeclaredHandlers(UserLayers, env, verb, path[2..], req);
    } else if Under(path, "habits") {
      OnlyDeclaredHandlers(HabitLayers, env, verb, path[2..], req);
    }
    if f.Reached? && IsTagHandler(f.handler) {
      MountedDeclareNoTagHandler(f.handler);
    }
  }

  /** Everything under `/api/users` and `/api/habits`, whether a route
      matches or not, is refused with 401 when the request has no bearer
      token and 403 when the verifier refuses it. */
  lemma ProtectedPrefixes(env: Env, verb: Verb, path: seq<string>, req: Req)
    requires Under(path, "users") || Under(path, "habits")
    ensures var token := BearerToken(AuthHeader(req));
      var f := Serve(env, verb, path, req);
      && (token.None? ==> f == Responded(401, ErrorBody("bad Request")))
      && (token.Some? && env.verify(token.value).Rejected? ==> f == Responded(403, ErrorBody("Forbidden")))
  {
    if Under(path, "users") {
      UsersGated(env, verb, path[2..], req);
    } else {
      HabitsGated(env, verb, path[2..], req);
    }
  }

  /** A handler is reached with a `user` only when its claim came from a
      verified token: under `/api/auth` the caller's `user` passes through
      untouched, and elsewhere it is the verified claim. */
  lemma ReachedUserIsVerified(env: Env, verb: Verb, path: seq<string>, req: Req)
    requires req.user.None?
    ensures var f := Serve(env, verb, path, req);
      f.Reached? && f.req.user.Some? ==> Admitted(env, req) && f.req.user == Claimed(env, req).user
  {
    if Under(path, "auth") {
      AuthRoutesOpen(env, verb, path[2..], req);
    } else if Under(path, "users") {
      UsersGated(env, verb, path[2..], req);
    } else if Under(path, "habits") {
      HabitsGated(env, verb, path[2..], req);
    }
  }
}
