/** The bearer-token gate `authenticatedToken`. The token is the second
    space-separated word of the `Authorization` header; the first word is
    not looked at. No token: 401. A token the verifier rejects: 403.
    Otherwise the claim is attached as `req.user` and the chain goes on.
    Token verification (HS256 signature per section 3.2 of RFC 7518,
    expiry per section 4.1.4 of RFC 7519) is an oracle. */
module Auth {
  import opened Wire
  import opened Text
  import opened Http

  /** The ways `jwtVerify` can fail. */
  datatype VerifyFailure = InvalidSignature | Expired | Malformed

  /** The answer of `verifyToken`: the claim, or the failure it throws. */
  datatype Verdict = Verified(claim: Claim) | Rejected(failure: VerifyFailure)

  type Verifier = string -> Verdict

  /** `req.headers['authorization']`. */
  function AuthHeader(req: Req): Option<string> {
    Lookup(req.headers, "authorization")
  }

  /** `authHeader && authHeader.split(' ')[1]`, with a falsy result (no
      header, no second word, an empty second word) as `None`. */
  function BearerToken(header: Option<string>): (token: Option<string>)
    ensures token.Some? ==> token.value != "" && ' ' !in token.value
    ensures header.None? ==> token.None?
  {
    if header.None? then None
    else
      var parts := Split(header.value, ' ');
      if |parts| >= 2 && parts[1] != "" then Some(parts[1]) else None
  }

  /** `header` is `scheme` (a word without a space), one space, `token`,
      then `tail`, which is empty or starts with a space. */
  predicate Words(header: string, scheme: string, token: string, tail: string) {
    ' ' !in scheme && (tail == "" || tail[0] == ' ') && header == scheme + " " + token + tail
  }

  /** `token` is the non-empty, space-free second word of `header`. */
  ghost predicate IsSecondWord(header: string, token: string) {
    token != "" && ' ' !in token &&
    exists scheme: string, tail: string :: Words(header, scheme, token, tail)
  }

  lemma TokenFromWords(scheme: string, token: string, tail: string)
    requires token != "" && ' ' !in token && Words(scheme + " " + token + tail, scheme, token, tail)
    ensures BearerToken(Some(scheme + " " + token + tail)) == Some(token)
  {
    var header := scheme + " " + token + tail;
    SplitAtFirst(scheme, ' ', token + tail);
    assert header == scheme + [' '] + (token + tail);
    if tail == "" {
      SplitWithoutSeparator(token, ' ');
      assert token + tail == token;
    } else {
      SplitAtFirst(token, ' ', tail[1..]);
      assert token + tail == token + [' '] + tail[1..];
    }
    assert Split(token + tail, ' ')[0] == token;
    assert Split(header, ' ')[1] == token;
  }

  /** A header with at least two words is its first word, a space, its
      second word, and the rest of the words each after a space. */
  lemma HeaderWords(header: string)
    requires |Split(header, ' ')| >= 2
    ensures var parts := Split(header, ' ');
      Words(header, parts[0], parts[1], if |parts| == 2 then "" else " " + Join(parts[2..], ' '))
  {
    var parts := Split(header, ' ');
    var tail := if |parts| == 2 then "" else " " + Join(parts[2..], ' ');
    JoinSplit(header, ' ');
    assert Join(parts, ' ') == parts[0] + " " + Join(parts[1..], ' ');
    if |parts| == 2 {
      assert Join(parts[1..], ' ') == parts[1];
    } else {
      assert parts[1..][1..] == parts[2..];
      assert Join(parts[1..], ' ') == parts[1] + " " + Join(parts[2..], ' ');
    }
    assert header == parts[0] + " " + parts[1] + tail;
    assert ' ' !in parts[0];
  }

  lemma WordsFromToken(header: string, token: string)
    requires BearerToken(Some(header)) == Some(token)
    ensures IsSecondWord(header, token)
  {
    var parts := Split(header, ' ');
    var tail := if |parts| == 2 then "" else " " + Join(parts[2..], ' ');
    HeaderWords(header);
    assert Words(header, parts[0], token, tail);
  }

  /** The token is exactly the non-empty word after the first space, up to
      the next space or the end; the word before it may be anything
      without a space, "Bearer" or not. */
  lemma TokenIsSecondWord(header: string, token: string)
    ensures BearerToken(Some(header)) == Some(token) <==> IsSecondWord(header, token)
  {
    if BearerToken(Some(header)) == Some(token) {
      WordsFromToken(header, token);
    }
    if IsSecondWord(header, token) {
      var scheme: string, tail: string :| Words(header, scheme, token, tail);
      TokenFromWords(scheme, token, tail);
    }
  }

  /** A header without a space yields no token: a bare token with no scheme
      word in front is refused. */
  lemma NoSpaceNoToken(header: string)
    requires ' ' !in header
    ensures BearerToken(Some(header)).None?
  {
    SplitWithoutSeparator(header, ' ');
  }

  /** The outcome of the gate on `req`. */
  function AuthStep(req: Req, verify: Verifier): (r: StepResult)
    ensures !r.Forward?
    ensures r.Respond? && r.status == 401 <==> BearerToken(AuthHeader(req)).None?
    ensures r.Respond? && r.status == 401 ==> r.body == ErrorBody("bad Request")
    ensures r.Respond? && r.status == 403 <==>
      BearerToken(AuthHeader(req)).Some? && verify(BearerToken(AuthHeader(req)).value).Rejected?
    ensures r.Respond? && r.status == 403 ==> r.body == ErrorBody("Forbidden")
    ensures r.Respond? ==> r.status == 401 || r.status == 403
    ensures r.Continue? <==>
      BearerToken(AuthHeader(req)).Some? && verify(BearerToken(AuthHeader(req)).value).Verified?
    ensures r.Continue? ==>
      r.req == req.(user := Some(verify(BearerToken(AuthHeader(req)).value).claim))
  {
    match BearerToken(AuthHeader(req))
    case None => Respond(401, ErrorBody("bad Request"))
    case Some(token) =>
      match verify(token)
      case Verified(claim) => Continue(req.(user := Some(claim)))
      case Rejected(_) => Respond(403, ErrorBody("Forbidden"))
  }

  /** `authenticatedToken(req, res, next)`. */
  method AuthenticatedToken(req: Request, res: Response, next: Next, verify: Verifier)
    modifies req, res, next
    ensures Effected(AuthStep(old(req.Value()), verify), old(req.Value()), req.Value(),
                     old(res.log), res.log, old(next.calls), next.calls)
  {
    var authHeader := Lookup(req.headers, "authorization");
    var token := BearerToken(authHeader);
    if token.None? {
      res.Status(401);
      res.SendJson(ErrorBody("bad Request"));
      return;
    }
    var verdict := verify(token.value);
    match verdict
    case Verified(payload) =>
      req.user := Some(payload);
      next.Call(None);
    case Rejected(_) =>
      res.Status(403);
      res.SendJson(ErrorBody("Forbidden"));
  }
}
