/** The validation middleware: `validateBody`, `validateParams` and
    `validateQuery` turn a schema into a guard. A parsed body replaces
    `req.body`; parsed params and query are thrown away. A schema error is
    answered with 400 and one `{field, message}` per issue; anything else
    thrown by the parser is passed on with `next(e)`. */
module Validation {
  import opened Wire
  import opened Text
  import opened Zod
  import opened Http

  /** The part of the request a guard checks. */
  datatype Surface = BodySurface | ParamsSurface | QuerySurface

  /** What `schema.parse` does: return the parsed value, throw a `ZodError`
      with its issues, or throw something else. */
  datatype ParseOutcome = Accepted(value: Json) | Rejected(issues: seq<Issue>) | Crashed(fault: Fault)

  /** A schema written in this repository, or one defined elsewhere (the
      database-derived `insertUserSchema` and `insertTagSchema`), which is
      known only by name and run by an oracle. */
  datatype SchemaRef = Declared(schema: Schema) | External(name: string)

  /** The parts of parsing this model does not interpret. */
  datatype Oracles = Oracles(formats: Formats, external: (string, Json) -> ParseOutcome)

  /** `schema.parse(input)`. A declared schema never throws anything but a
      `ZodError`, and a `ZodError` always carries at least one issue. */
  function RunSchema(ref: SchemaRef, o: Oracles, input: Json): (r: ParseOutcome)
    ensures ref.Declared? ==> !r.Crashed?
    ensures ref.Declared? && r.Rejected? ==> |r.issues| > 0
    ensures ref.Declared? ==> (r.Accepted? <==> Parse(ref.schema, o.formats, input).Valid?)
    ensures ref.Declared? && r.Accepted? ==> r.value == Parse(ref.schema, o.formats, input).value.value
    ensures ref.Declared? && r.Rejected? ==> r.issues == Parse(ref.schema, o.formats, input).issues
    ensures ref.External? ==> r == o.external(ref.name, input)
  {
    match ref
    case Declared(schema) =>
      var p := Parse(schema, o.formats, input);
      if p.Valid? then Accepted(p.value.value) else Rejected(p.issues)
    case External(name) => o.external(name, input)
  }

  /** The `error` text of a guard's 400 answer. */
  function ErrorText(surface: Surface): (text: string)
    ensures surface == BodySurface ==> text == "Validation failed"
    ensures surface == ParamsSurface ==> text == "Invalid params"
    ensures surface == QuerySurface ==> text == "Invalid Query Params"
  {
    match surface
    case BodySurface => "Validation failed"
    case ParamsSurface => "Invalid params"
    case QuerySurface => "Invalid Query Params"
  }

  /** Which surface failed can be read back from the error text. */
  lemma ErrorTextIdentifiesSurface(a: Surface, b: Surface)
    ensures ErrorText(a) == ErrorText(b) <==> a == b
  {
  }

  /** How `path.join('.')` renders one step of a path. */
  function Segment(k: PathKey): (s: string)
    ensures k.Index? ==> '.' !in s
  {
    match k
    case Key(name) => name
    case Index(i) => Decimal(i)
  }

  function Segments(path: Path): (segs: seq<string>)
    ensures |segs| == |path|
    ensures forall i :: 0 <= i < |path| ==> segs[i] == Segment(path[i])
  {
    if path == [] then [] else [Segment(path[0])] + Segments(path[1..])
  }

  /** `err.path.join('.')`. */
  function FieldName(path: Path): string {
    Join(Segments(path), '.')
  }

  /** The field name keeps the whole path: splitting it on '.' gives back
      the rendered steps, provided no object key contains a '.'. */
  lemma FieldNameRoundTrip(path: Path)
    requires |path| >= 1
    requires forall i :: 0 <= i < |path| && path[i].Key? ==> '.' !in path[i].name
    ensures Split(FieldName(path), '.') == Segments(path)
  {
    SplitJoin(Segments(path), '.');
  }

  /** `e.issues.map(err => ({field: err.path.join('.'), message: err.message}))`. */
  function Details(issues: seq<Issue>): (d: seq<Detail>)
    ensures |d| == |issues|
    ensures forall k :: 0 <= k < |issues| ==>
      d[k].field == FieldName(issues[k].path) && d[k].message == issues[k].message
  {
    if issues == [] then []
    else [Detail(FieldName(issues[0].path), issues[0].message)] + Details(issues[1..])
  }

  /** Express hands route parameters over as strings. */
  function ParamsJson(params: map<string, string>): (j: Json)
    ensures j.JObj? && j.fields.Keys == params.Keys
    ensures forall k :: k in params ==> j.fields[k] == JStr(params[k])
  {
    JObj(map k | k in params :: JStr(params[k]))
  }

  /** The value a guard parses. */
  function Target(surface: Surface, req: Req): Json {
    match surface
    case BodySurface => req.body
    case ParamsSurface => ParamsJson(req.params)
    case QuerySurface => req.query
  }

  /** The outcome of a guard on `req`. */
  function ValidationStep(surface: Surface, ref: SchemaRef, o: Oracles, req: Req): (r: StepResult)
    ensures var p := RunSchema(ref, o, Target(surface, req));
      && (r.Continue? <==> p.Accepted?)
      && (r.Respond? <==> p.Rejected?)
      && (r.Forward? <==> p.Crashed?)
      && (r.Continue? && surface == BodySurface ==> r.req == req.(body := p.value))
      && (r.Continue? && surface != BodySurface ==> r.req == req)
      && (r.Respond? ==>
            r.status == 400 && r.body == ValidationErrorBody(ErrorText(surface), Details(p.issues)))
      && (r.Forward? ==> r.fault == p.fault)
    ensures ref.Declared? ==> !r.Forward?
    ensures ref.Declared? && r.Respond? ==> |r.body.details| > 0
  {
    match RunSchema(ref, o, Target(surface, req))
    case Accepted(v) => Continue(if surface == BodySurface then req.(body := v) else req)
    case Rejected(issues) => Respond(400, ValidationErrorBody(ErrorText(surface), Details(issues)))
    case Crashed(e) => Forward(e)
  }

  /** A guard on params or query never changes the request, whatever the
      schema would have produced (defaults, coercions). */
  lemma ParamsAndQueryUntouched(surface: Surface, ref: SchemaRef, o: Oracles, req: Req)
    requires surface != BodySurface
    ensures ValidationStep(surface, ref, o, req).Continue? ==>
      ValidationStep(surface, ref, o, req).req == req
  {
  }

  /** `validateBody(schema)` applied to one request. */
  method ValidateBody(ref: SchemaRef, o: Oracles, req: Request, res: Response, next: Next)
    modifies req, res, next
    ensures Effected(ValidationStep(BodySurface, ref, o, old(req.Value())), old(req.Value()), req.Value(),
                     old(res.log), res.log, old(next.calls), next.calls)
  {
    var outcome := RunSchema(ref, o, req.body);
    match outcome
    case Accepted(validatedData) =>
      req.body := validatedData;
      next.Call(None);
    case Rejected(issues) =>
      res.Status(400);
      res.SendJson(ValidationErrorBody("Validation failed", Details(issues)));
    case Crashed(e) =>
      next.Call(Some(e));
  }

  /** `validateParams(schema)` applied to one request. */
  method ValidateParams(ref: SchemaRef, o: Oracles, req: Request, res: Response, next: Next)
    modifies req, res, next
    ensures Effected(ValidationStep(ParamsSurface, ref, o, old(req.Value())), old(req.Value()), req.Value(),
                     old(res.log), res.log, old(next.calls), next.calls)
  {
    var outcome := RunSchema(ref, o, ParamsJson(req.params));
    match outcome
    case Accepted(_) =>
      next.Call(None);
    case Rejected(issues) =>
      res.Status(400);
      res.SendJson(ValidationErrorBody("Invalid params", Details(issues)));
    case Crashed(e) =>
      next.Call(Some(e));
  }

  /** `validateQuery(schema)` applied to one request. */
  method ValidateQuery(ref: SchemaRef, o: Oracles, req: Request, res: Response, next: Next)
    modifies req, res, next
    ensures Effected(ValidationStep(QuerySurface, ref, o, old(req.Value())), old(req.Value()), req.Value(),
                     old(res.log), res.log, old(next.calls), next.calls)
  {
    var outcome := RunSchema(ref, o, req.query);
    match outcome
    case Accepted(_) =>
      next.Call(None);
    case Rejected(issues) =>
      res.Status(400);
      res.SendJson(ValidationErrorBody("Invalid Query Params", Details(issues)));
    case Crashed(e) =>
      next.Call(Some(e));
  }
}
