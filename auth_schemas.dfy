/** The login schema. */
module AuthSchemas {
  import opened Wire
  import opened Zod

  const LoginSchema: Schema := ZObject([
    Field("email", ZFormat(Email, Some("Invalid email"))),
    Field("password", ZString(Some(Bound(1, Some("Password is required"))), None, None))
  ])

  predicate EmailOk(f: Formats, m: map<string, Json>) {
    "email" in m && m["email"].JStr? && f.isEmail(m["email"].s)
  }

  predicate PasswordOk(m: map<string, Json>) {
    "password" in m && m["password"].JStr? && m["password"].s != ""
  }

  /** The issue of a refused `email`: `z.email(message)` gives the same
      message whether the value is missing, not a string or malformed. */
  function EmailIssues(f: Formats, m: map<string, Json>): seq<Issue> {
    [Issue([Key("email")],
           if "email" in m && m["email"].JStr? then InvalidFormat(Email) else InvalidType("string"),
           Text("Invalid email"))]
  }

  /** The issues of a refused `password`. A string can only be too short. A
      value that is not a string gets Zod's type issue, and an empty array
      also gets "Password is required", since the length check runs on any
      value that has a length. */
  function PasswordIssues(m: map<string, Json>): seq<Issue> {
    var tooShort := Issue([Key("password")], TooSmall(1, true), Text("Password is required"));
    if "password" in m && m["password"].JStr? then [tooShort]
    else
      [Issue([Key("password")], InvalidType("string"), ZodDefault(InvalidType("string")))]
      + (if "password" in m && m["password"] == JArr([]) then [tooShort] else [])
  }

  /** The issues of `email` on its own. */
  lemma EmailFieldIssues(f: Formats, m: map<string, Json>)
    ensures var e := FieldResult(LoginSchema, f, m, [], 0);
      (e.Valid? <==> EmailOk(f, m)) && (e.Invalid? ==> e.issues == EmailIssues(f, m))
  {
    assert [] + [Key("email")] == [Key("email")];
  }

  /** The issues of `password` on its own. */
  lemma PasswordFieldIssues(f: Formats, m: map<string, Json>)
    ensures var p := FieldResult(LoginSchema, f, m, [], 1);
      (p.Valid? <==> PasswordOk(m)) && (p.Invalid? ==> p.issues == PasswordIssues(m))
  {
    assert [] + [Key("password")] == [Key("password")];
    if "password" in m && m["password"].JArr? {
      assert m["password"] == JArr([]) <==> |m["password"].items| == 0;
    }
  }

  /** The issues of a login body: the e-mail's, then the password's. */
  lemma LoginIssues(f: Formats, m: map<string, Json>)
    ensures var r := Parse(LoginSchema, f, JObj(m));
      var emailIssues := if EmailOk(f, m) then [] else EmailIssues(f, m);
      var passwordIssues := if PasswordOk(m) then [] else PasswordIssues(m);
      (r.Valid? <==> emailIssues + passwordIssues == [])
      && (r.Invalid? ==> r.issues == emailIssues + passwordIssues)
  {
    var s := LoginSchema;
    EmailFieldIssues(f, m);
    PasswordFieldIssues(f, m);
    var e := FieldResult(s, f, m, [], 0);
    var p := FieldResult(s, f, m, [], 1);
    assert ParseFields(s, f, m, [], 2) == (map[], []);
    assert ParseFields(s, f, m, [], 1).1 == (if p.Valid? then [] else p.issues);
    assert ParseFields(s, f, m, [], 0).1 ==
      (if e.Valid? then [] else e.issues) + (if p.Valid? then [] else p.issues);
  }

  /** `loginSchema` accepts exactly an object with an e-mail address and a non-empty password. */
  lemma LoginAccepts(f: Formats, body: Json)
    ensures Parse(LoginSchema, f, body).Valid? <==> body.JObj? && EmailOk(f, body.fields) && PasswordOk(body.fields)
  {
    if body.JObj? {
      LoginIssues(f, body.fields);
    }
  }

  /** A missing or malformed e-mail is the first issue, at `email`, saying "Invalid email". */
  lemma LoginRejectsEmail(f: Formats, m: map<string, Json>)
    requires !EmailOk(f, m)
    ensures Parse(LoginSchema, f, JObj(m)).Invalid?
    ensures Parse(LoginSchema, f, JObj(m)).issues[0].path == [Key("email")]
    ensures Parse(LoginSchema, f, JObj(m)).issues[0].message == Text("Invalid email")
  {
    LoginIssues(f, m);
  }

  /** An empty password next to a good e-mail is the only issue, saying "Password is required". */
  lemma LoginRejectsEmptyPassword(f: Formats, m: map<string, Json>)
    requires EmailOk(f, m) && "password" in m && m["password"] == JStr("")
    ensures Parse(LoginSchema, f, JObj(m))
         == Invalid([Issue([Key("password")], TooSmall(1, true), Text("Password is required"))])
  {
    LoginIssues(f, m);
  }

  /** An empty array as the password next to a good e-mail: the type issue,
      then "Password is required" from the length check. */
  lemma LoginRejectsEmptyArrayPassword(f: Formats, m: map<string, Json>)
    requires EmailOk(f, m) && "password" in m && m["password"] == JArr([])
    ensures Parse(LoginSchema, f, JObj(m)) == Invalid([
      Issue([Key("password")], InvalidType("string"), ZodDefault(InvalidType("string"))),
      Issue([Key("password")], TooSmall(1, true), Text("Password is required"))])
  {
    LoginIssues(f, m);
  }

  /** Both fields wrong: the e-mail's issue, then the password's. That is
      two issues, or three when the password is an empty array. */
  lemma LoginTwoIssues(f: Formats, m: map<string, Json>)
    requires !EmailOk(f, m) && !PasswordOk(m)
    ensures Parse(LoginSchema, f, JObj(m)).Invalid?
    ensures |Parse(LoginSchema, f, JObj(m)).issues| ==
      if "password" in m && m["password"] == JArr([]) then 3 else 2
    ensures Parse(LoginSchema, f, JObj(m)).issues[0].path == [Key("email")]
    ensures forall k :: 1 <= k < |Parse(LoginSchema, f, JObj(m)).issues| ==>
      Parse(LoginSchema, f, JObj(m)).issues[k].path == [Key("password")]
  {
    LoginIssues(f, m);
  }
}
