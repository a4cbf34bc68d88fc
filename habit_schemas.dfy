/** The habit request schemas, written as Zod schemas, with the constraints
    each accepts stated directly as predicates and proved equivalent. */
module HabitSchemas {
  import opened Wire
  import opened Zod

  const Frequencies: seq<string> := ["daily", "weekly", "monthly"]
  const FrequencyMessage: string := "Frequency must be daily, weekly, or monthly"

  /** `z.string().uuid()`. */
  const UuidString: Schema := ZString(None, None, Some(FormatCheck(Uuid, None)))

  const CreateHabitSchema: Schema := ZObject([
    Field("name", ZString(Some(Bound(1, Some("Habit name is required"))), Some(Bound(100, Some("Name too long"))), None)),
    Field("description", ZOptional(ZString(None, None, None))),
    Field("frequency", ZRefineIn(ZEnum(Frequencies), Frequencies, FrequencyMessage)),
    Field("targetCount", ZDefault(ZOptional(ZNumber(true, true)), JNum(1.0))),
    Field("tagIds", ZOptional(ZArray(UuidString, None)))
  ])

  const UpdateHabitSchema: Schema := ZObject([
    Field("name", ZOptional(ZString(Some(Bound(1, None)), Some(Bound(100, None)), None))),
    Field("description", ZOptional(ZString(None, None, None))),
    Field("frequency", ZOptional(ZEnum(Frequencies))),
    Field("targetCount", ZOptional(ZNumber(true, true))),
    Field("isActive", ZOptional(ZBoolean)),
    Field("tagIds", ZOptional(ZArray(UuidString, None)))
  ])

  const UuidSchema: Schema :=
    ZObject([Field("id", ZString(None, None, Some(FormatCheck(Uuid, Some("Invalid habit ID format")))))])

  const TagIdSchema: Schema :=
    ZObject([Field("tagId", ZString(None, None, Some(FormatCheck(Uuid, Some("Invalid tag ID format")))))])

  const CompleteHabitSchema: Schema :=
    ZObject([Field("note", ZOptional(ZString(None, Some(Bound(500, None)), None)))])

  const AddTagsToHabitSchema: Schema :=
    ZObject([Field("tagIds", ZArray(ZFormat(Uuid, None), Some(Bound(1, Some("At least one tag ID is required")))))])

  predicate IsFrequency(v: Json) {
    v.JStr? && v.s in Frequencies
  }

  predicate PositiveInteger(v: Json) {
    v.JNum? && IsInteger(v.n) && v.n > 0.0
  }

  predicate UuidList(f: Formats, v: Json) {
    v.JArr? && forall k :: 0 <= k < |v.items| ==> v.items[k].JStr? && f.isUuid(v.items[k].s)
  }

  predicate StringOfLength(v: Json, lo: nat, hi: nat) {
    v.JStr? && lo <= |v.s| <= hi
  }

  /** What `createHabitSchema` demands of a body object. */
  predicate CreateHabitOk(f: Formats, m: map<string, Json>) {
    && "name" in m && StringOfLength(m["name"], 1, 100)
    && ("description" in m ==> m["description"].JStr?)
    && "frequency" in m && IsFrequency(m["frequency"])
    && ("targetCount" in m ==> PositiveInteger(m["targetCount"]))
    && ("tagIds" in m ==> UuidList(f, m["tagIds"]))
  }

  /** What `updateHabitSchema` demands: the same constraints, every field optional. */
  predicate UpdateHabitOk(f: Formats, m: map<string, Json>) {
    && ("name" in m ==> StringOfLength(m["name"], 1, 100))
    && ("description" in m ==> m["description"].JStr?)
    && ("frequency" in m ==> IsFrequency(m["frequency"]))
    && ("targetCount" in m ==> PositiveInteger(m["targetCount"]))
    && ("isActive" in m ==> m["isActive"].JBool?)
    && ("tagIds" in m ==> UuidList(f, m["tagIds"]))
  }

  /** An array of `z.string().uuid()` is accepted exactly when every element is a UUID string. */
  lemma UuidArrayValid(f: Formats, v: Option<Json>, path: Path)
    ensures ParseAt(ZOptional(ZArray(UuidString, None)), f, v, path).Valid? <==>
      v.None? || UuidList(f, v.value)
  {
    if v.Some? && v.value.JArr? {
      ArrayValid(ZArray(UuidString, None), f, v.value.items, path);
    }
  }

  /** The `refine` on `frequency` repeats the enum's own test and runs only
      after the enum accepted, so it never adds an issue: its message
      cannot appear. */
  lemma FrequencyRefineIsRedundant(f: Formats, input: Option<Json>, path: Path)
    ensures ParseAt(ZRefineIn(ZEnum(Frequencies), Frequencies, FrequencyMessage), f, input, path)
         == ParseAt(ZEnum(Frequencies), f, input, path)
  {
  }

  /** The first three fields of `createHabitSchema`, one by one. */
  lemma CreateFieldsFront(f: Formats, m: map<string, Json>)
    ensures FieldResult(CreateHabitSchema, f, m, [], 0).Valid? <==> "name" in m && StringOfLength(m["name"], 1, 100)
    ensures FieldResult(CreateHabitSchema, f, m, [], 1).Valid? <==> ("description" in m ==> m["description"].JStr?)
    ensures FieldResult(CreateHabitSchema, f, m, [], 2).Valid? <==> "frequency" in m && IsFrequency(m["frequency"])
  {
  }

  /** The last two fields of `createHabitSchema`, one by one. */
  lemma CreateFieldsBack(f: Formats, m: map<string, Json>)
    ensures FieldResult(CreateHabitSchema, f, m, [], 3).Valid? <==> ("targetCount" in m ==> PositiveInteger(m["targetCount"]))
    ensures FieldResult(CreateHabitSchema, f, m, [], 4).Valid? <==> ("tagIds" in m ==> UuidList(f, m["tagIds"]))
  {
    var s := CreateHabitSchema;
    UuidArrayValid(f, Lookup(m, "tagIds"), [Key("tagIds")]);
    assert s.shape[4] == Field("tagIds", ZOptional(ZArray(UuidString, None)));
    assert [] + [Key("tagIds")] == [Key("tagIds")];
    assert FieldResult(s, f, m, [], 4) == ParseAt(ZOptional(ZArray(UuidString, None)), f, Lookup(m, "tagIds"), [Key("tagIds")]);
  }

  lemma CreateFieldsValid(f: Formats, m: map<string, Json>)
    ensures (forall j :: 0 <= j < |CreateHabitSchema.shape| ==> FieldResult(CreateHabitSchema, f, m, [], j).Valid?)
         <==> CreateHabitOk(f, m)
  {
    CreateFieldsFront(f, m);
    CreateFieldsBack(f, m);
  }

  lemma CreateHabitAccepts(f: Formats, body: Json)
    ensures Parse(CreateHabitSchema, f, body).Valid? <==> body.JObj? && CreateHabitOk(f, body.fields)
  {
    if body.JObj? {
      ObjectValid(CreateHabitSchema, f, body.fields, []);
      CreateFieldsValid(f, body.fields);
    }
  }

  /** The keys a create body keeps once parsed. */
  lemma CreateHabitKeys(f: Formats, m: map<string, Json>, k: string)
    requires Parse(CreateHabitSchema, f, JObj(m)).Valid?
    requires k in Parse(CreateHabitSchema, f, JObj(m)).value.value.fields
    ensures k in {"name", "description", "frequency", "targetCount", "tagIds"}
  {
    var j :| 0 <= j < |CreateHabitSchema.shape| && CreateHabitSchema.shape[j].key == k;
  }

  /** `targetCount` parses to the number sent, or to 1 when absent. */
  lemma TargetCountDefault(f: Formats, m: map<string, Json>)
    requires "targetCount" in m ==> PositiveInteger(m["targetCount"])
    ensures FieldResult(CreateHabitSchema, f, m, [], 3) ==
      Valid(Some(if "targetCount" in m then m["targetCount"] else JNum(1.0)))
  {
    assert CreateHabitSchema.shape[3] == Field("targetCount", ZDefault(ZOptional(ZNumber(true, true)), JNum(1.0)));
  }

  /** A create body without `targetCount` is stored with `targetCount` 1,
      one with it keeps it; keys outside the schema are dropped from the
      stored body. */
  lemma CreateHabitDefaults(f: Formats, m: map<string, Json>)
    requires CreateHabitOk(f, m)
    ensures Parse(CreateHabitSchema, f, JObj(m)).Valid?
    ensures var out := Parse(CreateHabitSchema, f, JObj(m)).value.value;
      && out.JObj?
      && (forall k :: k in out.fields ==> k in {"name", "description", "frequency", "targetCount", "tagIds"})
      && "targetCount" in out.fields
      && out.fields["targetCount"] == (if "targetCount" in m then m["targetCount"] else JNum(1.0))
  {
    var s := CreateHabitSchema;
    CreateHabitAccepts(f, JObj(m));
    ObjectOutput(s, f, m, [], 3);
    TargetCountDefault(f, m);
    var out := Parse(s, f, JObj(m)).value.value;
    forall k | k in out.fields
      ensures k in {"name", "description", "frequency", "targetCount", "tagIds"}
    {
      CreateHabitKeys(f, m, k);
    }
  }

  /** The first three fields of `updateHabitSchema`, one by one. */
  lemma UpdateFieldsFront(f: Formats, m: map<string, Json>)
    ensures FieldResult(UpdateHabitSchema, f, m, [], 0).Valid? <==> ("name" in m ==> StringOfLength(m["name"], 1, 100))
    ensures FieldResult(UpdateHabitSchema, f, m, [], 1).Valid? <==> ("description" in m ==> m["description"].JStr?)
    ensures FieldResult(UpdateHabitSchema, f, m, [], 2).Valid? <==> ("frequency" in m ==> IsFrequency(m["frequency"]))
  {
  }

  /** The last three fields of `updateHabitSchema`, one by one. */
  lemma UpdateFieldsBack(f: Formats, m: map<string, Json>)
    ensures FieldResult(UpdateHabitSchema, f, m, [], 3).Valid? <==> ("targetCount" in m ==> PositiveInteger(m["targetCount"]))
    ensures FieldResult(UpdateHabitSchema, f, m, [], 4).Valid? <==> ("isActive" in m ==> m["isActive"].JBool?)
    ensures FieldResult(UpdateHabitSchema, f, m, [], 5).Valid? <==> ("tagIds" in m ==> UuidList(f, m["tagIds"]))
  {
    var s := UpdateHabitSchema;
    UuidArrayValid(f, Lookup(m, "tagIds"), [Key("tagIds")]);
    assert s.shape[5] == Field("tagIds", ZOptional(ZArray(UuidString, None)));
    assert [] + [Key("tagIds")] == [Key("tagIds")];
    assert FieldResult(s, f, m, [], 5) == ParseAt(ZOptional(ZArray(UuidString, None)), f, Lookup(m, "tagIds"), [Key("tagIds")]);
  }

  lemma UpdateFieldsValid(f: Formats, m: map<string, Json>)
    ensures (forall j :: 0 <= j < |UpdateHabitSchema.shape| ==> FieldResult(UpdateHabitSchema, f, m, [], j).Valid?)
         <==> UpdateHabitOk(f, m)
  {
    UpdateFieldsFront(f, m);
    UpdateFieldsBack(f, m);
  }

  /** `updateHabitSchema` accepts a body exactly when it is an object whose
      present fields meet the create constraints (isActive a boolean). */
  lemma UpdateHabitAccepts(f: Formats, body: Json)
    ensures Parse(UpdateHabitSchema, f, body).Valid? <==> body.JObj? && UpdateHabitOk(f, body.fields)
  {
    if body.JObj? {
      ObjectValid(UpdateHabitSchema, f, body.fields, []);
      UpdateFieldsValid(f, body.fields);
    }
  }

  /** Every field of an update is optional: the empty object is accepted and parses to itself. */
  lemma UpdateHabitAcceptsEmpty(f: Formats)
    ensures Parse(UpdateHabitSchema, f, JObj(map[])) == Valid(Some(JObj(map[])))
  {
    var s := UpdateHabitSchema;
    forall j | 0 <= j < |s.shape| ensures s.shape[j].schema.ZOptional? { }
    OptionalFieldsOnEmpty(s, f, [], 0);
  }

  /** A single-field object schema `{key: z.string().uuid(message)}`: a
      string id is accepted exactly when it is a UUID, and otherwise the
      one issue is at `key` with the given message. */
  lemma IdSchemaOutcome(s: Schema, key: string, message: string, f: Formats, m: map<string, Json>)
    requires s == ZObject([Field(key, ZString(None, None, Some(FormatCheck(Uuid, Some(message)))))])
    requires key in m && m[key].JStr?
    ensures Parse(s, f, JObj(m)).Valid? <==> f.isUuid(m[key].s)
    ensures !f.isUuid(m[key].s) ==>
      Parse(s, f, JObj(m)) == Invalid([Issue([Key(key)], InvalidFormat(Uuid), Text(message))])
  {
    var id := m[key].s;
    var issue := Issue([Key(key)], InvalidFormat(Uuid), Text(message));
    assert [] + [Key(key)] == [Key(key)];
    assert StringIssues(id, None, None, Some(FormatCheck(Uuid, Some(message))), f, [Key(key)])
        == if f.isUuid(id) then [] else [issue];
    assert FieldResult(s, f, m, [], 0) == ParseAt(s.shape[0].schema, f, Some(m[key]), [Key(key)]);
    assert FieldResult(s, f, m, [], 0) == if f.isUuid(id) then Valid(Some(m[key])) else Invalid([issue]);
    assert ParseFields(s, f, m, [], 1) == (map[], []);
    assert ParseFields(s, f, m, [], 0).1 == if f.isUuid(id) then [] else [issue];
  }

  /** `uuidSchema` refuses a non-UUID `id` with "Invalid habit ID format". */
  lemma UuidSchemaRejects(f: Formats, m: map<string, Json>)
    requires "id" in m && m["id"].JStr? && !f.isUuid(m["id"].s)
    ensures Parse(UuidSchema, f, JObj(m))
         == Invalid([Issue([Key("id")], InvalidFormat(Uuid), Text("Invalid habit ID format"))])
  {
    IdSchemaOutcome(UuidSchema, "id", "Invalid habit ID format", f, m);
  }

  /** `tagIdSchema` refuses a non-UUID `tagId` with "Invalid tag ID format". */
  lemma TagIdSchemaRejects(f: Formats, m: map<string, Json>)
    requires "tagId" in m && m["tagId"].JStr? && !f.isUuid(m["tagId"].s)
    ensures Parse(TagIdSchema, f, JObj(m))
         == Invalid([Issue([Key("tagId")], InvalidFormat(Uuid), Text("Invalid tag ID format"))])
  {
    IdSchemaOutcome(TagIdSchema, "tagId", "Invalid tag ID format", f, m);
  }

  /** `completeHabitSchema` accepts an object exactly when `note` is absent
      or a string of at most 500 characters. */
  lemma CompleteHabitAccepts(f: Formats, m: map<string, Json>)
    ensures Parse(CompleteHabitSchema, f, JObj(m)).Valid? <==>
      ("note" in m ==> StringOfLength(m["note"], 0, 500))
  {
    ObjectValid(CompleteHabitSchema, f, m, []);
    assert FieldResult(CompleteHabitSchema, f, m, [], 0).Valid? <==> ("note" in m ==> StringOfLength(m["note"], 0, 500));
  }

  /** `addTagsToHabitSchema` refuses an empty `tagIds` with one issue, at
      `tagIds`, saying "At least one tag ID is required". */
  lemma AddTagsRejectsEmpty(f: Formats, m: map<string, Json>)
    requires "tagIds" in m && m["tagIds"] == JArr([])
    ensures Parse(AddTagsToHabitSchema, f, JObj(m))
         == Invalid([Issue([Key("tagIds")], TooSmall(1, true), Text("At least one tag ID is required"))])
  {
    var s := AddTagsToHabitSchema;
    assert [] + [Key("tagIds")] == [Key("tagIds")];
    assert FieldResult(s, f, m, [], 0) == ParseAt(s.shape[0].schema, f, Some(JArr([])), [Key("tagIds")]);
    assert ParseItems(s.shape[0].schema, f, [], [Key("tagIds")], 0) == ([], []);
    assert ParseFields(s, f, m, [], 1).1 == [];
  }

  /** An empty string as `tagIds` is not an array, and still short: the type
      issue, then "At least one tag ID is required" from the length check. */
  lemma AddTagsRejectsEmptyString(f: Formats, m: map<string, Json>)
    requires "tagIds" in m && m["tagIds"] == JStr("")
    ensures Parse(AddTagsToHabitSchema, f, JObj(m)) == Invalid([
      Issue([Key("tagIds")], InvalidType("array"), ZodDefault(InvalidType("array"))),
      Issue([Key("tagIds")], TooSmall(1, true), Text("At least one tag ID is required"))])
  {
    var s := AddTagsToHabitSchema;
    assert [] + [Key("tagIds")] == [Key("tagIds")];
    assert FieldResult(s, f, m, [], 0) == ParseAt(s.shape[0].schema, f, Some(JStr("")), [Key("tagIds")]);
    assert ParseFields(s, f, m, [], 1).1 == [];
  }

  /** `addTagsToHabitSchema` accepts an object exactly when `tagIds` is a
      non-empty array of UUID strings. */
  lemma AddTagsAccepts(f: Formats, m: map<string, Json>)
    ensures Parse(AddTagsToHabitSchema, f, JObj(m)).Valid? <==>
      "tagIds" in m && UuidList(f, m["tagIds"]) && |m["tagIds"].items| >= 1
  {
    var s := AddTagsToHabitSchema;
    ObjectValid(s, f, m, []);
    assert [] + [Key("tagIds")] == [Key("tagIds")];
    assert FieldResult(s, f, m, [], 0) == ParseAt(s.shape[0].schema, f, Lookup(m, "tagIds"), [Key("tagIds")]);
    if "tagIds" in m && m["tagIds"].JArr? {
      ArrayValid(s.shape[0].schema, f, m["tagIds"].items, [Key("tagIds")]);
    }
  }
}
