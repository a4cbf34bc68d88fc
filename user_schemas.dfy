/** The user request schemas. */
module UserSchemas {
  import opened Wire
  import opened Zod

  const GetUserSchema: Schema := ZObject([Field("id", ZFormat(Uuid, Some("Invalid user ID format")))])

  const UsernameSchema: Schema :=
    ZString(Some(Bound(3, Some("Username must be at least 3 characters"))), Some(Bound(30, Some("Username too long"))), None)

  const UpdateUserSchema: Schema := ZObject([
    Field("username", ZOptional(UsernameSchema)),
    Field("email", ZOptional(ZFormat(Email, Some("Invalid email format")))),
    Field("firstName", ZOptional(ZString(None, Some(Bound(50, Some("First name too long"))), None))),
    Field("lastName", ZOptional(ZString(None, Some(Bound(50, Some("Last name too long"))), None)))
  ])

  predicate NameOk(v: Json) {
    v.JStr? && |v.s| <= 50
  }

  /** What `updateUserSchema` demands of a body object: each field optional. */
  predicate UpdateUserOk(f: Formats, m: map<string, Json>) {
    && ("username" in m ==> m["username"].JStr? && 3 <= |m["username"].s| <= 30)
    && ("email" in m ==> m["email"].JStr? && f.isEmail(m["email"].s))
    && ("firstName" in m ==> NameOk(m["firstName"]))
    && ("lastName" in m ==> NameOk(m["lastName"]))
  }

  /** `getUserSchema` accepts an object exactly when its `id` is a UUID
      string; any other `id`, absent or not a string included, gives the
      one issue "Invalid user ID format" at `id`. */
  lemma GetUserOutcome(f: Formats, m: map<string, Json>)
    ensures Parse(GetUserSchema, f, JObj(m)).Valid? <==> "id" in m && m["id"].JStr? && f.isUuid(m["id"].s)
    ensures !Parse(GetUserSchema, f, JObj(m)).Valid? ==>
      && |Parse(GetUserSchema, f, JObj(m)).issues| == 1
      && Parse(GetUserSchema, f, JObj(m)).issues[0].path == [Key("id")]
      && Parse(GetUserSchema, f, JObj(m)).issues[0].message == Text("Invalid user ID format")
  {
    var s := GetUserSchema;
    assert [] + [Key("id")] == [Key("id")];
    assert FieldResult(s, f, m, [], 0) == ParseAt(s.shape[0].schema, f, Lookup(m, "id"), [Key("id")]);
    assert ParseFields(s, f, m, [], 1) == (map[], []);
  }

  /** The `username` and `email` fields of `updateUserSchema`, one by one. */
  lemma UpdateUserFieldsFront(f: Formats, m: map<string, Json>)
    ensures FieldResult(UpdateUserSchema, f, m, [], 0).Valid? <==> ("username" in m ==> m["username"].JStr? && 3 <= |m["username"].s| <= 30)
    ensures FieldResult(UpdateUserSchema, f, m, [], 1).Valid? <==> ("email" in m ==> m["email"].JStr? && f.isEmail(m["email"].s))
  {
  }

  /** The name fields of `updateUserSchema`, one by one. */
  lemma UpdateUserFieldsBack(f: Formats, m: map<string, Json>)
    ensures FieldResult(UpdateUserSchema, f, m, [], 2).Valid? <==> ("firstName" in m ==> NameOk(m["firstName"]))
    ensures FieldResult(UpdateUserSchema, f, m, [], 3).Valid? <==> ("lastName" in m ==> NameOk(m["lastName"]))
  {
  }

  lemma UpdateUserFieldsValid(f: Formats, m: map<string, Json>)
    ensures (forall j :: 0 <= j < |UpdateUserSchema.shape| ==> FieldResult(UpdateUserSchema, f, m, [], j).Valid?)
         <==> UpdateUserOk(f, m)
  {
    UpdateUserFieldsFront(f, m);
    UpdateUserFieldsBack(f, m);
  }

  /** `updateUserSchema` accepts a body exactly when it is an object whose
      present fields are: a username of 3 to 30 characters, an e-mail
      address, names of at most 50 characters. */
  lemma UpdateUserAccepts(f: Formats, body: Json)
    ensures Parse(UpdateUserSchema, f, body).Valid? <==> body.JObj? && UpdateUserOk(f, body.fields)
  {
    if body.JObj? {
      ObjectValid(UpdateUserSchema, f, body.fields, []);
      UpdateUserFieldsValid(f, body.fields);
    }
  }

  /** Every field is optional: `{}` is accepted. */
  lemma UpdateUserAcceptsEmpty(f: Formats)
    ensures Parse(UpdateUserSchema, f, JObj(map[])).Valid?
  {
    UpdateUserAccepts(f, JObj(map[]));
  }

  /** The first issue of a rejected update is the username's when the
      username is wrong: "Username must be at least 3 characters" below 3
      characters, "Username too long" above 30. */
  lemma UsernameMessages(f: Formats, m: map<string, Json>)
    requires "username" in m && m["username"].JStr?
    requires |m["username"].s| < 3 || |m["username"].s| > 30
    ensures Parse(UpdateUserSchema, f, JObj(m)).Invalid?
    ensures Parse(UpdateUserSchema, f, JObj(m)).issues[0] ==
      if |m["username"].s| < 3
      then Issue([Key("username")], TooSmall(3, true), Text("Username must be at least 3 characters"))
      else Issue([Key("username")], TooBig(30), Text("Username too long"))
  {
    var s := UpdateUserSchema;
    var name := m["username"].s;
    assert [] + [Key("username")] == [Key("username")];
    assert FieldResult(s, f, m, [], 0) == ParseAt(UsernameSchema, f, Some(m["username"]), [Key("username")]);
    assert FieldResult(s, f, m, [], 0).issues[0] ==
      if |name| < 3
      then Issue([Key("username")], TooSmall(3, true), Text("Username must be at least 3 characters"))
      else Issue([Key("username")], TooBig(30), Text("Username too long"));
    assert ParseFields(s, f, m, [], 0).1 == FieldResult(s, f, m, [], 0).issues + ParseFields(s, f, m, [], 1).1;
  }

  /** The `email` field alone refuses a string that is not an address. */
  lemma EmailFieldRefuses(f: Formats, m: map<string, Json>)
    requires "email" in m && m["email"].JStr? && !f.isEmail(m["email"].s)
    ensures FieldResult(UpdateUserSchema, f, m, [], 1) ==
      Invalid([Issue([Key("email")], InvalidFormat(Email), Text("Invalid email format"))])
  {
    assert [] + [Key("email")] == [Key("email")];
  }

  /** A present e-mail that is not an address is refused with "Invalid email format" at `email`. */
  lemma EmailMessage(f: Formats, m: map<string, Json>)
    requires "email" in m && m["email"].JStr? && !f.isEmail(m["email"].s)
    ensures Parse(UpdateUserSchema, f, JObj(m)).Invalid?
    ensures Issue([Key("email")], InvalidFormat(Email), Text("Invalid email format")) in
      Parse(UpdateUserSchema, f, JObj(m)).issues
  {
    EmailFieldRefuses(f, m);
    ObjectKeepsFieldIssues(UpdateUserSchema, f, m, [], 1);
  }
}
