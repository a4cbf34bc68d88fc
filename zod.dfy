/** The part of Zod (version 4) that the request schemas use, as a small
    schema language and its parser. A schema is data; `ParseAt` is what
    `schema.parse` does with it: it either yields the parsed value (unknown
    object keys stripped, defaults filled in) or the list of issues, each
    with the path of the offending value. String formats (e-mail, UUID) are
    left as uninterpreted predicates supplied by the caller. */
module Zod {
  import opened Wire

  datatype Format = Email | Uuid

  /** Zod's built-in format checks, left uninterpreted. */
  datatype Formats = Formats(isEmail: string -> bool, isUuid: string -> bool) {
    predicate Accepts(format: Format, s: string) {
      match format
      case Email => isEmail(s)
      case Uuid => isUuid(s)
    }
  }

  /** One step of an issue path: an object key or an array index. */
  datatype PathKey = Key(name: string) | Index(index: nat)

  type Path = seq<PathKey>

  datatype IssueCode =
    | InvalidType(expected: string)
    | TooSmall(minimum: nat, inclusive: bool)
    | TooBig(maximum: nat)
    | InvalidFormat(format: Format)
    | InvalidValue(options: seq<string>)
    | Custom

  /** A custom message given in the schema, or Zod's built-in text for the
      issue code (whose wording is not modelled). */
  datatype Message = Text(text: string) | ZodDefault(code: IssueCode)

  datatype Issue = Issue(path: Path, code: IssueCode, message: Message)

  /** A `.min(limit, message?)` or `.max(limit, message?)` check. */
  datatype Bound = Bound(limit: nat, message: Option<string>)

  /** A `.uuid(message?)` / `.email(message?)` check chained on `z.string()`. */
  datatype FormatCheck = FormatCheck(format: Format, message: Option<string>)

  datatype Schema =
      /** `z.string()` with optional `.min`, `.max` and format checks, run in that order. */
    | ZString(min: Option<Bound>, max: Option<Bound>, check: Option<FormatCheck>)
      /** `z.email(message?)` / `z.uuid(message?)`: the message also covers a non-string. */
    | ZFormat(format: Format, message: Option<string>)
      /** `z.enum([...])`. */
    | ZEnum(options: seq<string>)
      /** `inner.refine(v => allowed.includes(v), message)`; runs only when `inner` succeeded. */
    | ZRefineIn(inner: Schema, allowed: seq<string>, refineMessage: string)
      /** `z.number()`, optionally `.int()` and `.positive()`. */
    | ZNumber(isInt: bool, positive: bool)
    | ZBoolean
      /** `z.array(element)`, optionally `.min(limit, message?)`. */
    | ZArray(element: Schema, minItems: Option<Bound>)
    | ZOptional(inner: Schema)
      /** `inner.default(fallback)`: an absent value becomes `fallback`. */
    | ZDefault(inner: Schema, fallback: Json)
      /** `z.object({...})`: keys checked in declaration order, unknown keys stripped. */
    | ZObject(shape: seq<Field>)

  datatype Field = Field(key: string, schema: Schema)

  /** The outcome of `safeParse`: the parsed value (`None` for `undefined`) or the issues. */
  datatype Parsed = Valid(value: Option<Json>) | Invalid(issues: seq<Issue>)

  function Say(custom: Option<string>, code: IssueCode): Message {
    if custom.Some? then Text(custom.value) else ZodDefault(code)
  }

  /** Every issue lies at or below `path`. */
  predicate Below(issues: seq<Issue>, path: Path) {
    forall k :: 0 <= k < |issues| ==> path <= issues[k].path
  }

  /** `value.length`, for the values that have one: strings and arrays. */
  function LengthOf(v: Option<Json>): (n: Option<nat>)
    ensures n.Some? <==> v.Some? && (v.value.JStr? || v.value.JArr?)
  {
    if v.Some? && v.value.JStr? then Some(|v.value.s|)
    else if v.Some? && v.value.JArr? then Some(|v.value.items|)
    else None
  }

  /** The `.min` and `.max` length checks on a value of length `n`. In Zod 4
      these checks are guarded by "the value has a length" rather than by the
      type check, so they also run on an array given to `z.string()` and on
      a string given to `z.array()`. */
  function LengthIssues(n: nat, min: Option<Bound>, max: Option<Bound>, path: Path): (issues: seq<Issue>)
    ensures Below(issues, path)
    ensures issues == [] <==> (min.None? || n >= min.value.limit) && (max.None? || n <= max.value.limit)
  {
    (if min.Some? && n < min.value.limit
     then [Issue(path, TooSmall(min.value.limit, true), Say(min.value.message, TooSmall(min.value.limit, true)))]
     else [])
    + (if max.Some? && n > max.value.limit
       then [Issue(path, TooBig(max.value.limit), Say(max.value.message, TooBig(max.value.limit)))]
       else [])
  }

  /** The length checks a value that failed the type check still gets. */
  function GuardedLengthIssues(input: Option<Json>, min: Option<Bound>, max: Option<Bound>, path: Path)
    : (issues: seq<Issue>)
    ensures Below(issues, path)
    ensures LengthOf(input).None? ==> issues == []
  {
    if LengthOf(input).Some? then LengthIssues(LengthOf(input).value, min, max, path) else []
  }

  /** The issues of the chained checks of a string that passed the type check:
      the length checks, then the format check. */
  function StringIssues(s: string, min: Option<Bound>, max: Option<Bound>,
                        format: Option<FormatCheck>, f: Formats, path: Path): (issues: seq<Issue>)
    ensures Below(issues, path)
    ensures issues == [] <==>
      (min.None? || |s| >= min.value.limit) && (max.None? || |s| <= max.value.limit)
      && (format.None? || f.Accepts(format.value.format, s))
  {
    LengthIssues(|s|, min, max, path)
    + (if format.Some? && !f.Accepts(format.value.format, s)
       then [Issue(path, InvalidFormat(format.value.format),
                   Say(format.value.message, InvalidFormat(format.value.format)))]
       else [])
  }

  /** `schema.safeParse` of `input` found at `path`. */
  function ParseAt(s: Schema, f: Formats, input: Option<Json>, path: Path): (r: Parsed)
    ensures r.Invalid? ==> |r.issues| > 0 && Below(r.issues, path)
    ensures r.Valid? && input.Some? ==> r.value.Some?
    decreases s, 1
  {
    match s
    case ZString(min, max, format) =>
      if input.Some? && input.value.JStr? then
        var issues := StringIssues(input.value.s, min, max, format, f, path);
        if issues == [] then Valid(input) else Invalid(issues)
      else Invalid([Issue(path, InvalidType("string"), ZodDefault(InvalidType("string")))]
                   + GuardedLengthIssues(input, min, max, path))
    case ZFormat(format, message) =>
      if input.Some? && input.value.JStr? then
        if f.Accepts(format, input.value.s) then Valid(input)
        else Invalid([Issue(path, InvalidFormat(format), Say(message, InvalidFormat(format)))])
      else Invalid([Issue(path, InvalidType("string"), Say(message, InvalidType("string")))])
    case ZEnum(options) =>
      if input.Some? && input.value.JStr? && input.value.s in options then Valid(input)
      else Invalid([Issue(path, InvalidValue(options), ZodDefault(InvalidValue(options)))])
    case ZRefineIn(inner, allowed, message) =>
      var r := ParseAt(inner, f, input, path);
      if r.Invalid? then r
      else if r.value.Some? && r.value.value.JStr? && r.value.value.s in allowed then r
      else Invalid([Issue(path, Custom, Text(message))])
    case ZNumber(isInt, positive) =>
      if input.Some? && input.value.JNum? then
        if isInt && !IsInteger(input.value.n) then
          Invalid([Issue(path, InvalidType("int"), ZodDefault(InvalidType("int")))])
        else if positive && input.value.n <= 0.0 then
          Invalid([Issue(path, TooSmall(0, false), ZodDefault(TooSmall(0, false)))])
        else Valid(input)
      else Invalid([Issue(path, InvalidType("number"), ZodDefault(InvalidType("number")))])
    case ZBoolean =>
      if input.Some? && input.value.JBool? then Valid(input)
      else Invalid([Issue(path, InvalidType("boolean"), ZodDefault(InvalidType("boolean")))])
    case ZArray(element, minItems) =>
      if input.Some? && input.value.JArr? then
        var items := input.value.items;
        var (out, issues) := ParseItems(s, f, items, path, 0);
        var countIssues := LengthIssues(|items|, minItems, None, path);
        if issues + countIssues == [] then Valid(Some(JArr(out)))
        else Invalid(issues + countIssues)
      else Invalid([Issue(path, InvalidType("array"), ZodDefault(InvalidType("array")))]
                   + GuardedLengthIssues(input, minItems, None, path))
    case ZOptional(inner) =>
      if input.None? then Valid(None) else ParseAt(inner, f, input, path)
    case ZDefault(inner, fallback) =>
      if input.None? then Valid(Some(fallback)) else ParseAt(inner, f, input, path)
    case ZObject(shape) =>
      if input.Some? && input.value.JObj? then
        var (out, issues) := ParseFields(s, f, input.value.fields, path, 0);
        if issues == [] then Valid(Some(JObj(out))) else Invalid(issues)
      else Invalid([Issue(path, InvalidType("object"), ZodDefault(InvalidType("object")))])
  }

  /** The elements `items[i..]` of an array checked against `s.element`, each
      at its own index; the parsed elements and the issues, in index order. */
  function ParseItems(s: Schema, f: Formats, items: seq<Json>, path: Path, i: nat)
    : (r: (seq<Json>, seq<Issue>))
    requires s.ZArray? && i <= |items|
    ensures Below(r.1, path)
    ensures r.1 == [] ==> |r.0| == |items| - i
    decreases s, 0, |items| - i
  {
    if i == |items| then ([], [])
    else
      var head := ParseAt(s.element, f, Some(items[i]), path + [Index(i)]);
      var (out, issues) := ParseItems(s, f, items, path, i + 1);
      if head.Valid? then ([head.value.value] + out, issues)
      else ([], head.issues + issues)
  }

  /** The fields `s.shape[i..]` of an object checked in declaration order,
      each at its own key: the parsed fields (absent optional ones left out,
      keys outside the shape dropped) and the issues, in field order. */
  function ParseFields(s: Schema, f: Formats, fields: map<string, Json>, path: Path, i: nat)
    : (r: (map<string, Json>, seq<Issue>))
    requires s.ZObject? && i <= |s.shape|
    ensures Below(r.1, path)
    ensures forall k :: k in r.0 ==> exists j :: i <= j < |s.shape| && s.shape[j].key == k
    decreases s, 0, |s.shape| - i
  {
    if i == |s.shape| then (map[], [])
    else
      var field := s.shape[i];
      var head := ParseAt(field.schema, f, Lookup(fields, field.key), path + [Key(field.key)]);
      var (out, issues) := ParseFields(s, f, fields, path, i + 1);
      if head.Valid? then
        (if head.value.Some? then out[field.key := head.value.value] else out, issues)
      else (out, head.issues + issues)
  }

  /** `schema.parse(input)` at the top level. */
  function Parse(s: Schema, f: Formats, input: Json): (r: Parsed)
    ensures r.Invalid? ==> |r.issues| > 0
    ensures r.Valid? ==> r.value.Some?
  {
    ParseAt(s, f, Some(input), [])
  }

  /** The result for field `j` of an object schema, checked where `ParseFields` checks it. */
  function FieldResult(s: Schema, f: Formats, fields: map<string, Json>, path: Path, j: nat): Parsed
    requires s.ZObject? && j < |s.shape|
  {
    ParseAt(s.shape[j].schema, f, Lookup(fields, s.shape[j].key), path + [Key(s.shape[j].key)])
  }

  /** No two fields of the shape share a key (a JavaScript object literal). */
  predicate UniqueKeys(shape: seq<Field>) {
    forall i, j :: 0 <= i < j < |shape| ==> shape[i].key != shape[j].key
  }

  lemma {:induction false} FieldsWithoutIssues(s: Schema, f: Formats, fields: map<string, Json>, path: Path, i: nat)
    requires s.ZObject? && i <= |s.shape|
    ensures ParseFields(s, f, fields, path, i).1 == [] <==>
      forall j :: i <= j < |s.shape| ==> FieldResult(s, f, fields, path, j).Valid?
    decreases |s.shape| - i
  {
    if i < |s.shape| {
      FieldsWithoutIssues(s, f, fields, path, i + 1);
      var head := FieldResult(s, f, fields, path, i);
      var tail := ParseFields(s, f, fields, path, i + 1).1;
      assert ParseFields(s, f, fields, path, i).1 == if head.Valid? then tail else head.issues + tail;
    }
  }

  /** An object is accepted exactly when every declared field is accepted;
      keys outside the shape are never looked at. */
  lemma ObjectValid(s: Schema, f: Formats, fields: map<string, Json>, path: Path)
    requires s.ZObject?
    ensures ParseAt(s, f, Some(JObj(fields)), path).Valid? <==>
      forall j :: 0 <= j < |s.shape| ==> FieldResult(s, f, fields, path, j).Valid?
  {
    FieldsWithoutIssues(s, f, fields, path, 0);
  }

  /** One field of `ParseFields`: the field's parsed value, if any, is
      added over the output of the fields after it. */
  lemma FieldsStep(s: Schema, f: Formats, fields: map<string, Json>, path: Path, i: nat)
    requires s.ZObject? && i < |s.shape|
    ensures var head := FieldResult(s, f, fields, path, i);
      var tail := ParseFields(s, f, fields, path, i + 1).0;
      ParseFields(s, f, fields, path, i).0 ==
        if head.Valid? && head.value.Some? then tail[s.shape[i].key := head.value.value] else tail
  {
  }

  /** Field `i` leaves every other key of the output as the fields after it set it. */
  lemma FieldsStepOther(s: Schema, f: Formats, fields: map<string, Json>, path: Path, i: nat, key: string)
    requires s.ZObject? && i < |s.shape| && key != s.shape[i].key
    ensures var out := ParseFields(s, f, fields, path, i).0;
      var tail := ParseFields(s, f, fields, path, i + 1).0;
      (key in out <==> key in tail) && (key in tail ==> out[key] == tail[key])
  {
    FieldsStep(s, f, fields, path, i);
  }

  /** The fields after `i` never output `i`'s key. */
  lemma KeyNotLater(s: Schema, f: Formats, fields: map<string, Json>, path: Path, i: nat)
    requires s.ZObject? && i < |s.shape| && UniqueKeys(s.shape)
    ensures s.shape[i].key !in ParseFields(s, f, fields, path, i + 1).0
  {
    forall j | i + 1 <= j < |s.shape| ensures s.shape[j].key != s.shape[i].key { }
  }

  lemma {:induction false} FieldOutput(s: Schema, f: Formats, fields: map<string, Json>, path: Path, i: nat, j: nat)
    requires s.ZObject? && i <= j < |s.shape| && UniqueKeys(s.shape)
    requires FieldResult(s, f, fields, path, j).Valid?
    ensures var v := FieldResult(s, f, fields, path, j).value;
      var out := ParseFields(s, f, fields, path, i).0;
      (v.Some? ==> s.shape[j].key in out && out[s.shape[j].key] == v.value)
      && (v.None? ==> s.shape[j].key !in out)
    decreases j - i
  {
    if i < j {
      FieldOutput(s, f, fields, path, i + 1, j);
      FieldsStepOther(s, f, fields, path, i, s.shape[j].key);
    } else {
      FieldsStep(s, f, fields, path, i);
      KeyNotLater(s, f, fields, path, i);
    }
  }

  /** The parsed object holds, under each declared key, the parsed value of
      that field, and no key for a field that parsed to `undefined`. */
  lemma ObjectOutput(s: Schema, f: Formats, fields: map<string, Json>, path: Path, j: nat)
    requires s.ZObject? && UniqueKeys(s.shape) && j < |s.shape|
    requires ParseAt(s, f, Some(JObj(fields)), path).Valid?
    ensures FieldResult(s, f, fields, path, j).Valid?
    ensures var out := ParseAt(s, f, Some(JObj(fields)), path).value.value;
      var v := FieldResult(s, f, fields, path, j).value;
      out.JObj?
      && (v.Some? ==> s.shape[j].key in out.fields && out.fields[s.shape[j].key] == v.value)
      && (v.None? ==> s.shape[j].key !in out.fields)
  {
    ObjectValid(s, f, fields, path);
    FieldOutput(s, f, fields, path, 0, j);
  }

  lemma {:induction false} ItemsWithoutIssues(s: Schema, f: Formats, items: seq<Json>, path: Path, i: nat)
    requires s.ZArray? && i <= |items|
    ensures ParseItems(s, f, items, path, i).1 == [] <==>
      forall k :: i <= k < |items| ==> ParseAt(s.element, f, Some(items[k]), path + [Index(k)]).Valid?
    decreases |items| - i
  {
    if i < |items| {
      ItemsWithoutIssues(s, f, items, path, i + 1);
      var head := ParseAt(s.element, f, Some(items[i]), path + [Index(i)]);
      var tail := ParseItems(s, f, items, path, i + 1).1;
      assert ParseItems(s, f, items, path, i).1 == if head.Valid? then tail else head.issues + tail;
    }
  }

  /** An array is accepted exactly when it has enough elements and every
      element is accepted at its index. */
  lemma ArrayValid(s: Schema, f: Formats, items: seq<Json>, path: Path)
    requires s.ZArray?
    ensures ParseAt(s, f, Some(JArr(items)), path).Valid? <==>
      (s.minItems.None? || |items| >= s.minItems.value.limit)
      && forall k :: 0 <= k < |items| ==> ParseAt(s.element, f, Some(items[k]), path + [Index(k)]).Valid?
  {
    ItemsWithoutIssues(s, f, items, path, 0);
  }

  /** Fields that are all optional accept an empty object and add nothing to the output. */
  lemma {:induction false} OptionalFieldsOnEmpty(s: Schema, f: Formats, path: Path, i: nat)
    requires s.ZObject? && i <= |s.shape|
    requires forall j :: i <= j < |s.shape| ==> s.shape[j].schema.ZOptional?
    ensures ParseFields(s, f, map[], path, i) == (map[], [])
    decreases |s.shape| - i
  {
    if i < |s.shape| {
      OptionalFieldsOnEmpty(s, f, path, i + 1);
    }
  }

  /** The issues of a field that is refused are among the object's issues. */
  lemma {:induction false} FieldIssuesKept(s: Schema, f: Formats, fields: map<string, Json>, path: Path, i: nat, j: nat)
    requires s.ZObject? && i <= j < |s.shape|
    requires FieldResult(s, f, fields, path, j).Invalid?
    ensures forall x :: x in FieldResult(s, f, fields, path, j).issues ==> x in ParseFields(s, f, fields, path, i).1
    decreases j - i
  {
    if i < j {
      FieldIssuesKept(s, f, fields, path, i + 1, j);
    }
  }

  /** An object with a refused field is refused, with that field's issues among its own. */
  lemma ObjectKeepsFieldIssues(s: Schema, f: Formats, fields: map<string, Json>, path: Path, j: nat)
    requires s.ZObject? && j < |s.shape|
    requires FieldResult(s, f, fields, path, j).Invalid?
    ensures ParseAt(s, f, Some(JObj(fields)), path).Invalid?
    ensures forall x :: x in FieldResult(s, f, fields, path, j).issues ==> x in ParseAt(s, f, Some(JObj(fields)), path).issues
  {
    FieldIssuesKept(s, f, fields, path, 0, j);
    var x := FieldResult(s, f, fields, path, j).issues[0];
    assert x in ParseFields(s, f, fields, path, 0).1;
  }
}
