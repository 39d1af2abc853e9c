/**
 * The two request schemas of backend/validators/tasks.validator.js
 * (`listTasksQuerySchema`, `createTaskBodySchema`) as one pure validator
 * from a raw key/value input to either the normalised record or every
 * violated rule.
 *
 * Raw values are taken as they stand after the schema library's type
 * conversion: a number field holds `Num` and a date field holds `Time`
 * (milliseconds) when conversion succeeded, and a value of any other kind
 * stands for one that did not convert. Each violation carries the
 * library's rule kind (`number.min`, `object.unknown`, ...) and its default
 * English message.
 */
module TasksValidator {
  import opened Wrappers
  import opened Text
  import opened TaskModel

  datatype RawValue = Num(x: real) | Str(s: string) | Time(t: int)

  /** The entries of the raw input object, in key order. */
  type RawInput = seq<(string, RawValue)>

  /** A violation's path as the schema library hands it over: normally an array of keys. */
  datatype PathValue = Segments(keys: seq<string>) | Absent | Scalar(text: string)

  datatype Violation = Violation(message: string, path: PathValue, kind: string)

  /** The value of `key` in the input, if the key is present. */
  function Lookup(raw: RawInput, key: string): (r: Option<RawValue>)
    ensures r.Some? <==> exists k :: 0 <= k < |raw| && raw[k].0 == key
    ensures r.Some? ==> (key, r.value) in raw
  {
    if raw == [] then None
    else if raw[0].0 == key then Some(raw[0].1)
    else Lookup(raw[1..], key)
  }

  function Label(key: string): string { "\"" + key + "\"" }

  /** A violation of one rule on the top-level field `key`. */
  function Report(key: string, kind: string, text: string): Violation
  {
    Violation(Label(key) + text, Segments([key]), kind)
  }

  /** Some violation in `r` sits at the top-level field `key`. */
  predicate ReportedAt(r: seq<Violation>, key: string)
  {
    exists e :: e in r && e.path == Segments([key])
  }

  predicate IsInteger(x: real) { x.Floor as real == x }

  /** `Number.MAX_SAFE_INTEGER`, 2^53 - 1. */
  const MaxSafeInteger: int := 0x1F_FFFF_FFFF_FFFF

  /** A number `number()` accepts without its `unsafe` flag: within plus or minus `Number.MAX_SAFE_INTEGER`. */
  predicate IsSafe(x: real) { -MaxSafeInteger as real <= x <= MaxSafeInteger as real }

  // ---------------------------------------------------------------------------
  // Per-field rules. Within one field every failing rule is reported, except
  // that a failed type check ends that field's checks.

  /**
   * `number().integer().min(min)[.max(max)]` on a present value. A number
   * outside the safe range fails the type check itself, and the rules are
   * then not run.
   */
  function NumberViolations(key: string, v: RawValue, min: nat, max: Option<nat>): (r: seq<Violation>)
    ensures r == [] <==> v.Num? && IsSafe(v.x) && IsInteger(v.x) && v.x >= min as real && (max.Some? ==> v.x <= max.value as real)
    ensures v.Num? && !IsSafe(v.x) ==> r == [Report(key, "number.unsafe", " must be a safe number")]
    ensures forall e :: e in r ==> e.path == Segments([key])
  {
    if !v.Num? then [Report(key, "number.base", " must be a number")]
    else if !IsSafe(v.x) then [Report(key, "number.unsafe", " must be a safe number")]
    else
      (if IsInteger(v.x) then [] else [Report(key, "number.integer", " must be an integer")])
      + (if v.x >= min as real then []
         else [Report(key, "number.min", " must be greater than or equal to " + DecimalString(min))])
      + (if max.None? || v.x <= max.value as real then []
         else [Report(key, "number.max", " must be less than or equal to " + DecimalString(max.value))])
  }

  /** `string().trim().min(min)` on a present value: the trimmed string must be non-empty and at least `min` long. */
  function TrimmedStringViolations(key: string, v: RawValue, min: nat): (r: seq<Violation>)
    ensures r == [] <==> v.Str? && Trim(v.s) != "" && |Trim(v.s)| >= min
    ensures forall e :: e in r ==> e.path == Segments([key])
  {
    if !v.Str? then [Report(key, "string.base", " must be a string")]
    else if Trim(v.s) == "" then [Report(key, "string.empty", " is not allowed to be empty")]
    else if |Trim(v.s)| < min then
      [Report(key, "string.min", " length must be at least " + DecimalString(min) + " characters long")]
    else []
  }

  /** `string()` on a present value: any non-empty string. */
  function StringViolations(key: string, v: RawValue): (r: seq<Violation>)
    ensures r == [] <==> v.Str? && v.s != ""
    ensures forall e :: e in r ==> e.path == Segments([key])
  {
    if !v.Str? then [Report(key, "string.base", " must be a string")]
    else if v.s == "" then [Report(key, "string.empty", " is not allowed to be empty")]
    else []
  }

  /**
   * `string().valid(...names)` on a present value: a listed name passes at
   * once; anything else fails the allow-list and, in addition, the string
   * type check when it is not a non-empty string.
   */
  function EnumViolations(key: string, v: RawValue, names: seq<string>): (r: seq<Violation>)
    ensures r == [] <==> v.Str? && v.s in names
    ensures r != [] ==> r[0].kind == "any.only"
    ensures forall e :: e in r ==> e.path == Segments([key])
  {
    if v.Str? && v.s in names then []
    else
      [Report(key, "any.only", " must be one of [" + Join(names, ", ") + "]")]
      + (if !v.Str? then [Report(key, "string.base", " must be a string")]
         else if v.s == "" then [Report(key, "string.empty", " is not allowed to be empty")]
         else [])
  }

  /** `date()` on a present value. */
  function DateViolations(key: string, v: RawValue): (r: seq<Violation>)
    ensures r == [] <==> v.Time?
    ensures forall e :: e in r ==> e.path == Segments([key])
  {
    if v.Time? then [] else [Report(key, "date.base", " must be a valid date")]
  }

  // An absent optional field passes its rules; a present one is checked.

  function OptionalNumber(key: string, v: Option<RawValue>, min: nat, max: Option<nat>): (r: seq<Violation>)
    ensures r == [] <==> v.None? || (v.value.Num? && IsSafe(v.value.x) && IsInteger(v.value.x) && v.value.x >= min as real
                                     && (max.Some? ==> v.value.x <= max.value as real))
    ensures forall e :: e in r ==> e.path == Segments([key])
  {
    if v.None? then [] else NumberViolations(key, v.value, min, max)
  }

  function OptionalSearch(key: string, v: Option<RawValue>): (r: seq<Violation>)
    ensures r == [] <==> SearchAccepted(v)
    ensures forall e :: e in r ==> e.path == Segments([key])
  {
    if v.None? then [] else TrimmedStringViolations(key, v.value, 1)
  }

  function OptionalString(key: string, v: Option<RawValue>): (r: seq<Violation>)
    ensures r == [] <==> DescriptionAccepted(v)
    ensures forall e :: e in r ==> e.path == Segments([key])
  {
    if v.None? then [] else StringViolations(key, v.value)
  }

  function OptionalEnum(key: string, v: Option<RawValue>, names: seq<string>): (r: seq<Violation>)
    ensures r == [] <==> NameAccepted(v, names)
    ensures forall e :: e in r ==> e.path == Segments([key])
  {
    if v.None? then [] else EnumViolations(key, v.value, names)
  }

  function OptionalDate(key: string, v: Option<RawValue>): (r: seq<Violation>)
    ensures r == [] <==> DateAccepted(v)
    ensures forall e :: e in r ==> e.path == Segments([key])
  {
    if v.None? then [] else DateViolations(key, v.value)
  }

  /** `to: date().min(ref('from'))`: a date, and not before `from` when `from` is a valid date too. */
  function ToViolations(to: Option<RawValue>, from: Option<RawValue>): (r: seq<Violation>)
    ensures r == [] <==> ToAccepted(to, from)
    ensures forall e :: e in r ==> e.path == Segments(["to"])
  {
    if to.None? then []
    else if !to.value.Time? then DateViolations("to", to.value)
    else if from.Some? && from.value.Time? && to.value.t < from.value.t then
      [Report("to", "date.min", " must be greater than or equal to \"ref:from\"")]
    else []
  }

  /**
   * Keys outside the schema are forbidden: one violation per unknown key, in
   * input order. The schema's own `unknown(false)` takes precedence over the
   * middleware's `allowUnknown` and `stripUnknown` options, so such keys are
   * neither allowed nor stripped.
   */
  function UnknownViolations(raw: RawInput, known: set<string>): (r: seq<Violation>)
    ensures r == [] <==> AllKnown(raw, known)
    ensures forall e :: e in r ==> e.kind == "object.unknown"
    ensures forall e :: e in r ==> e.path.Segments? && |e.path.keys| == 1 && e.path.keys[0] !in known
    ensures forall k :: 0 <= k < |raw| && raw[k].0 !in known ==>
              Report(raw[k].0, "object.unknown", " is not allowed") in r
  {
    if raw == [] then []
    else
      var rest := UnknownViolations(raw[1..], known);
      assert forall k :: 1 <= k < |raw| ==> raw[k] == raw[1..][k - 1];
      if raw[0].0 in known then rest
      else [Report(raw[0].0, "object.unknown", " is not allowed")] + rest
  }

  // ---------------------------------------------------------------------------
  // What each field accepts, stated directly on values.

  predicate AllKnown(raw: RawInput, known: set<string>)
  {
    forall k :: 0 <= k < |raw| ==> raw[k].0 in known
  }

  predicate PageAccepted(v: Option<RawValue>)
  {
    v.None? || (v.value.Num? && IsSafe(v.value.x) && IsInteger(v.value.x) && v.value.x >= 1.0)
  }

  predicate LimitAccepted(v: Option<RawValue>)
  {
    v.None? || (v.value.Num? && IsInteger(v.value.x) && 1.0 <= v.value.x <= 100.0)
  }

  predicate SearchAccepted(v: Option<RawValue>)
  {
    v.None? || (v.value.Str? && Trim(v.value.s) != "")
  }

  predicate NameAccepted(v: Option<RawValue>, names: seq<string>)
  {
    v.None? || (v.value.Str? && v.value.s in names)
  }

  predicate DateAccepted(v: Option<RawValue>)
  {
    v.None? || v.value.Time?
  }

  predicate ToAccepted(to: Option<RawValue>, from: Option<RawValue>)
  {
    DateAccepted(to) && (to.Some? && from.Some? && from.value.Time? ==> to.value.t >= from.value.t)
  }

  // ---------------------------------------------------------------------------
  // listTasksQuerySchema

  const ListQueryKeys: set<string> := {"page", "limit", "q", "status", "priority", "from", "to"}

  datatype ListQuery = ListQuery(
    page: int,
    limit: int,
    q: Option<string>,
    status: Option<Status>,
    priority: Option<Priority>,
    from: Option<int>,
    to: Option<int>)

  predicate ListQueryAccepted(raw: RawInput)
  {
    && PageAccepted(Lookup(raw, "page"))
    && LimitAccepted(Lookup(raw, "limit"))
    && SearchAccepted(Lookup(raw, "q"))
    && NameAccepted(Lookup(raw, "status"), StatusNames)
    && NameAccepted(Lookup(raw, "priority"), PriorityNames)
    && DateAccepted(Lookup(raw, "from"))
    && ToAccepted(Lookup(raw, "to"), Lookup(raw, "from"))
    && AllKnown(raw, ListQueryKeys)
  }

  /** Every violated rule of the list query, field by field in schema order, then the unknown keys. */
  function ListQueryViolations(raw: RawInput): (r: seq<Violation>)
    ensures r == [] <==> ListQueryAccepted(raw)
  {
    OptionalNumber("page", Lookup(raw, "page"), 1, None)
    + OptionalNumber("limit", Lookup(raw, "limit"), 1, Some(100))
    + OptionalSearch("q", Lookup(raw, "q"))
    + OptionalEnum("status", Lookup(raw, "status"), StatusNames)
    + OptionalEnum("priority", Lookup(raw, "priority"), PriorityNames)
    + OptionalDate("from", Lookup(raw, "from"))
    + ToViolations(Lookup(raw, "to"), Lookup(raw, "from"))
    + UnknownViolations(raw, ListQueryKeys)
  }

  function ListQueryValue(raw: RawInput): ListQuery
    requires ListQueryAccepted(raw)
  {
    var page := Lookup(raw, "page");
    var limit := Lookup(raw, "limit");
    var q := Lookup(raw, "q");
    var status := Lookup(raw, "status");
    var priority := Lookup(raw, "priority");
    var from := Lookup(raw, "from");
    var to := Lookup(raw, "to");
    ListQuery(
      if page.None? then 1 else page.value.x.Floor,
      if limit.None? then 20 else limit.value.x.Floor,
      if q.None? then None else Some(Trim(q.value.s)),
      if status.None? then None else ParseStatus(status.value.s),
      if priority.None? then None else ParsePriority(priority.value.s),
      if from.None? then None else Some(from.value.t),
      if to.None? then None else Some(to.value.t))
  }

  /** `listTasksQuerySchema.validate(raw)`. */
  function ValidateListQuery(raw: RawInput): (r: Result<ListQuery, seq<Violation>>)
    ensures r.Success? <==> ListQueryAccepted(raw)
    ensures r.Failure? ==> r.error != []
    ensures r.Success? ==> 1 <= r.value.page && 1 <= r.value.limit <= 100
    ensures r.Success? ==> (Lookup(raw, "page").None? ==> r.value.page == 1)
                           && (Lookup(raw, "page").Some? ==> r.value.page as real == Lookup(raw, "page").value.x)
    ensures r.Success? ==> (Lookup(raw, "limit").None? ==> r.value.limit == 20)
                           && (Lookup(raw, "limit").Some? ==> r.value.limit as real == Lookup(raw, "limit").value.x)
    ensures r.Success? ==> (r.value.q.Some? <==> Lookup(raw, "q").Some?)
                           && (r.value.q.Some? ==> r.value.q.value == Trim(Lookup(raw, "q").value.s) && r.value.q.value != "")
    ensures r.Success? ==> (r.value.status.Some? <==> Lookup(raw, "status").Some?)
                           && (r.value.status.Some? ==> StatusName(r.value.status.value) == Lookup(raw, "status").value.s)
    ensures r.Success? ==> (r.value.priority.Some? <==> Lookup(raw, "priority").Some?)
                           && (r.value.priority.Some? ==> PriorityName(r.value.priority.value) == Lookup(raw, "priority").value.s)
    ensures r.Success? ==> (r.value.from.Some? <==> Lookup(raw, "from").Some?)
                           && (r.value.from.Some? ==> r.value.from.value == Lookup(raw, "from").value.t)
    ensures r.Success? ==> (r.value.to.Some? <==> Lookup(raw, "to").Some?)
                           && (r.value.to.Some? ==> r.value.to.value == Lookup(raw, "to").value.t)
    ensures r.Success? && r.value.from.Some? && r.value.to.Some? ==> r.value.from.value <= r.value.to.value
  {
    var violations := ListQueryViolations(raw);
    if violations != [] then Failure(violations) else Success(ListQueryValue(raw))
  }

  // ---------------------------------------------------------------------------
  // createTaskBodySchema

  const CreateBodyKeys: set<string> := {"title", "description", "status", "priority", "dueDate"}

  datatype CreateBody = CreateBody(
    title: string,
    description: Option<string>,
    status: Status,
    priority: Priority,
    dueDate: Option<int>)

  predicate TitleAccepted(v: Option<RawValue>)
  {
    v.Some? && v.value.Str? && |Trim(v.value.s)| >= 3
  }

  predicate DescriptionAccepted(v: Option<RawValue>)
  {
    v.None? || (v.value.Str? && v.value.s != "")
  }

  predicate CreateBodyAccepted(raw: RawInput)
  {
    && TitleAccepted(Lookup(raw, "title"))
    && DescriptionAccepted(Lookup(raw, "description"))
    && NameAccepted(Lookup(raw, "status"), StatusNames)
    && NameAccepted(Lookup(raw, "priority"), PriorityNames)
    && DateAccepted(Lookup(raw, "dueDate"))
    && AllKnown(raw, CreateBodyKeys)
  }

  /** `title: string().trim().required().min(3)`. */
  function TitleViolations(v: Option<RawValue>): (r: seq<Violation>)
    ensures r == [] <==> TitleAccepted(v)
    ensures forall e :: e in r ==> e.path == Segments(["title"])
  {
    if v.None? then [Report("title", "any.required", " is required")]
    else TrimmedStringViolations("title", v.value, 3)
  }

  /** Every violated rule of the create body, field by field in schema order, then the unknown keys. */
  function CreateBodyViolations(raw: RawInput): (r: seq<Violation>)
    ensures r == [] <==> CreateBodyAccepted(raw)
  {
    TitleViolations(Lookup(raw, "title"))
    + OptionalString("description", Lookup(raw, "description"))
    + OptionalEnum("status", Lookup(raw, "status"), StatusNames)
    + OptionalEnum("priority", Lookup(raw, "priority"), PriorityNames)
    + OptionalDate("dueDate", Lookup(raw, "dueDate"))
    + UnknownViolations(raw, CreateBodyKeys)
  }

  function CreateBodyValue(raw: RawInput): CreateBody
    requires CreateBodyAccepted(raw)
  {
    var description := Lookup(raw, "description");
    var status := Lookup(raw, "status");
    var priority := Lookup(raw, "priority");
    var dueDate := Lookup(raw, "dueDate");
    CreateBody(
      Trim(Lookup(raw, "title").value.s),
      if description.None? then None else Some(description.value.s),
      if status.None? then Todo else ParseStatus(status.value.s).value,
      if priority.None? then Medium else ParsePriority(priority.value.s).value,
      if dueDate.None? then None else Some(dueDate.value.t))
  }

  /** `createTaskBodySchema.validate(raw)`. */
  function ValidateCreateBody(raw: RawInput): (r: Result<CreateBody, seq<Violation>>)
    ensures r.Success? <==> CreateBodyAccepted(raw)
    ensures r.Failure? ==> r.error != []
    ensures r.Success? ==> r.value.title == Trim(Lookup(raw, "title").value.s) && |r.value.title| >= 3
    ensures r.Success? ==> (Lookup(raw, "status").None? ==> r.value.status == Todo)
                           && (Lookup(raw, "status").Some? ==> StatusName(r.value.status) == Lookup(raw, "status").value.s)
    ensures r.Success? ==> (Lookup(raw, "priority").None? ==> r.value.priority == Medium)
                           && (Lookup(raw, "priority").Some? ==> PriorityName(r.value.priority) == Lookup(raw, "priority").value.s)
    ensures r.Success? ==> (r.value.description.Some? <==> Lookup(raw, "description").Some?)
                           && (r.value.description.Some? ==> r.value.description.value == Lookup(raw, "description").value.s)
    ensures r.Success? ==> (r.value.dueDate.Some? <==> Lookup(raw, "dueDate").Some?)
                           && (r.value.dueDate.Some? ==> r.value.dueDate.value == Lookup(raw, "dueDate").value.t)
  {
    var violations := CreateBodyViolations(raw);
    if violations != [] then Failure(violations) else Success(CreateBodyValue(raw))
  }

  // ---------------------------------------------------------------------------
  // The two schemas behind one entry point.

  datatype Schema = ListTasksQuery | CreateTaskBody

  datatype Normalised = ListValue(query: ListQuery) | CreateValue(body: CreateBody)

  predicate Accepted(schema: Schema, raw: RawInput)
  {
    match schema
    case ListTasksQuery => ListQueryAccepted(raw)
    case CreateTaskBody => CreateBodyAccepted(raw)
  }

  /** `schema.validate(raw)`: the normalised record, or every violation (never an empty list). */
  function Validate(schema: Schema, raw: RawInput): (r: Result<Normalised, seq<Violation>>)
    ensures r.Success? <==> Accepted(schema, raw)
    ensures r.Failure? ==> r.error != []
    ensures r.Success? ==> (schema.ListTasksQuery? <==> r.value.ListValue?)
    ensures schema.ListTasksQuery? && r.Success? ==> r.value.query == ValidateListQuery(raw).value
    ensures schema.ListTasksQuery? && r.Failure? ==> r.error == ListQueryViolations(raw)
    ensures schema.CreateTaskBody? && r.Success? ==> r.value.body == ValidateCreateBody(raw).value
    ensures schema.CreateTaskBody? && r.Failure? ==> r.error == CreateBodyViolations(raw)
  {
    match schema
    case ListTasksQuery =>
      (match ValidateListQuery(raw)
       case Success(q) => Success(ListValue(q))
       case Failure(vs) => Failure(vs))
    case CreateTaskBody =>
      (match ValidateCreateBody(raw)
       case Success(b) => Success(CreateValue(b))
       case Failure(vs) => Failure(vs))
  }

  // ---------------------------------------------------------------------------
  // Properties of the two schemas.

  /** A key outside the schema is reported as `object.unknown` at its own path, whatever the other fields hold. */
  lemma UnknownKeyReported(schema: Schema, raw: RawInput, k: nat)
    requires k < |raw| && raw[k].0 !in (if schema.ListTasksQuery? then ListQueryKeys else CreateBodyKeys)
    ensures Validate(schema, raw).Failure?
    ensures Report(raw[k].0, "object.unknown", " is not allowed") in Validate(schema, raw).error
  {
    if schema.ListTasksQuery? {
      var u := UnknownViolations(raw, ListQueryKeys);
      assert u <= ListQueryViolations(raw)[|ListQueryViolations(raw)| - |u|..];
      assert ListQueryViolations(raw)[|ListQueryViolations(raw)| - |u|..] == u;
    } else {
      var u := UnknownViolations(raw, CreateBodyKeys);
      assert CreateBodyViolations(raw)[|CreateBodyViolations(raw)| - |u|..] == u;
    }
  }

  /** A field is reported in a concatenation exactly when it is reported in one of the two halves. */
  lemma ReportedAtConcat(a: seq<Violation>, b: seq<Violation>, key: string)
    ensures ReportedAt(a + b, key) <==> ReportedAt(a, key) || ReportedAt(b, key)
  {
    if ReportedAt(a, key) {
      var e :| e in a && e.path == Segments([key]);
      assert e in a + b;
    }
    if ReportedAt(b, key) {
      var e :| e in b && e.path == Segments([key]);
      assert e in a + b;
    }
  }

  /** One field's violations report that field exactly when there are any, and no other field. */
  lemma ReportedAtField(p: seq<Violation>, key: string, other: string)
    requires AllAt(p, key)
    ensures ReportedAt(p, other) <==> p != [] && other == key
  {
    if p != [] && other == key {
      assert p[0] in p;
    }
    if ReportedAt(p, other) {
      var e :| e in p && e.path == Segments([other]);
      assert [key][0] == [other][0];
    }
  }

  /** The unknown-key violations never sit at a key of the schema. */
  lemma UnknownNotReportedAt(u: seq<Violation>, known: set<string>, key: string)
    requires OutsideKeys(u, known) && key in known
    ensures !ReportedAt(u, key)
  {
  }

  /** Every violation in `p` sits at the top-level field `key`. */
  predicate AllAt(p: seq<Violation>, key: string)
  {
    forall e :: e in p ==> e.path == Segments([key])
  }

  /** No violation in `u` sits at a key of `known`. */
  predicate OutsideKeys(u: seq<Violation>, known: set<string>)
  {
    forall e :: e in u ==> e.path.Segments? && |e.path.keys| == 1 && e.path.keys[0] !in known
  }

  /** The list query's violations, part by part: a field is reported exactly when its own part is non-empty. */
  lemma {:induction false} ListQueryParts(p1: seq<Violation>, p2: seq<Violation>, p3: seq<Violation>, p4: seq<Violation>,
                                          p5: seq<Violation>, p6: seq<Violation>, p7: seq<Violation>, u: seq<Violation>)
    requires AllAt(p1, "page") && AllAt(p2, "limit") && AllAt(p3, "q") && AllAt(p4, "status")
    requires AllAt(p5, "priority") && AllAt(p6, "from") && AllAt(p7, "to") && OutsideKeys(u, ListQueryKeys)
    ensures var r := p1 + p2 + p3 + p4 + p5 + p6 + p7 + u;
            && (ReportedAt(r, "page") <==> p1 != []) && (ReportedAt(r, "limit") <==> p2 != [])
            && (ReportedAt(r, "q") <==> p3 != []) && (ReportedAt(r, "status") <==> p4 != [])
            && (ReportedAt(r, "priority") <==> p5 != []) && (ReportedAt(r, "from") <==> p6 != [])
            && (ReportedAt(r, "to") <==> p7 != [])
  {
    forall key | key in ListQueryKeys
      ensures ReportedAt(p1 + p2 + p3 + p4 + p5 + p6 + p7 + u, key) <==>
                (p1 != [] && key == "page") || (p2 != [] && key == "limit")
                || (p3 != [] && key == "q") || (p4 != [] && key == "status")
                || (p5 != [] && key == "priority") || (p6 != [] && key == "from")
                || (p7 != [] && key == "to")
    {
      ReportedAtConcat(p1, p2, key);
      ReportedAtConcat(p1 + p2, p3, key);
      ReportedAtConcat(p1 + p2 + p3, p4, key);
      ReportedAtConcat(p1 + p2 + p3 + p4, p5, key);
      ReportedAtConcat(p1 + p2 + p3 + p4 + p5, p6, key);
      ReportedAtConcat(p1 + p2 + p3 + p4 + p5 + p6, p7, key);
      ReportedAtConcat(p1 + p2 + p3 + p4 + p5 + p6 + p7, u, key);
      ReportedAtField(p1, "page", key);
      ReportedAtField(p2, "limit", key);
      ReportedAtField(p3, "q", key);
      ReportedAtField(p4, "status", key);
      ReportedAtField(p5, "priority", key);
      ReportedAtField(p6, "from", key);
      ReportedAtField(p7, "to", key);
      UnknownNotReportedAt(u, ListQueryKeys, key);
    }
  }

  /** The create body's violations, part by part: a field is reported exactly when its own part is non-empty. */
  lemma {:induction false} CreateBodyParts(p1: seq<Violation>, p2: seq<Violation>, p3: seq<Violation>,
                                           p4: seq<Violation>, p5: seq<Violation>, u: seq<Violation>)
    requires AllAt(p1, "title") && AllAt(p2, "description") && AllAt(p3, "status")
    requires AllAt(p4, "priority") && AllAt(p5, "dueDate") && OutsideKeys(u, CreateBodyKeys)
    ensures var r := p1 + p2 + p3 + p4 + p5 + u;
            && (ReportedAt(r, "title") <==> p1 != []) && (ReportedAt(r, "description") <==> p2 != [])
            && (ReportedAt(r, "status") <==> p3 != []) && (ReportedAt(r, "priority") <==> p4 != [])
            && (ReportedAt(r, "dueDate") <==> p5 != [])
  {
    forall key | key in CreateBodyKeys
      ensures ReportedAt(p1 + p2 + p3 + p4 + p5 + u, key) <==>
                (p1 != [] && key == "title") || (p2 != [] && key == "description")
                || (p3 != [] && key == "status") || (p4 != [] && key == "priority")
                || (p5 != [] && key == "dueDate")
    {
      ReportedAtConcat(p1, p2, key);
      ReportedAtConcat(p1 + p2, p3, key);
      ReportedAtConcat(p1 + p2 + p3, p4, key);
      ReportedAtConcat(p1 + p2 + p3 + p4, p5, key);
      ReportedAtConcat(p1 + p2 + p3 + p4 + p5, u, key);
      ReportedAtField(p1, "title", key);
      ReportedAtField(p2, "description", key);
      ReportedAtField(p3, "status", key);
      ReportedAtField(p4, "priority", key);
      ReportedAtField(p5, "dueDate", key);
      UnknownNotReportedAt(u, CreateBodyKeys, key);
    }
  }

  /** The list query's violations are the concatenation of its parts, each at its own field. */
  lemma ListQueryPartsOf(raw: RawInput)
    ensures var p1 := OptionalNumber("page", Lookup(raw, "page"), 1, None);
            var p2 := OptionalNumber("limit", Lookup(raw, "limit"), 1, Some(100));
            var p3 := OptionalSearch("q", Lookup(raw, "q"));
            var p4 := OptionalEnum("status", Lookup(raw, "status"), StatusNames);
            var p5 := OptionalEnum("priority", Lookup(raw, "priority"), PriorityNames);
            var p6 := OptionalDate("from", Lookup(raw, "from"));
            var p7 := ToViolations(Lookup(raw, "to"), Lookup(raw, "from"));
            var u := UnknownViolations(raw, ListQueryKeys);
            var r := ListQueryViolations(raw);
            && r == p1 + p2 + p3 + p4 + p5 + p6 + p7 + u
            && AllAt(p1, "page") && AllAt(p2, "limit") && AllAt(p3, "q") && AllAt(p4, "status")
            && AllAt(p5, "priority") && AllAt(p6, "from") && AllAt(p7, "to") && OutsideKeys(u, ListQueryKeys)
  {
    var p1 := OptionalNumber("page", Lookup(raw, "page"), 1, None);
    var p2 := OptionalNumber("limit", Lookup(raw, "limit"), 1, Some(100));
    var p3 := OptionalSearch("q", Lookup(raw, "q"));
    var p4 := OptionalEnum("status", Lookup(raw, "status"), StatusNames);
    var p5 := OptionalEnum("priority", Lookup(raw, "priority"), PriorityNames);
    var p6 := OptionalDate("from", Lookup(raw, "from"));
    var p7 := ToViolations(Lookup(raw, "to"), Lookup(raw, "from"));
    var u := UnknownViolations(raw, ListQueryKeys);
    assert AllAt(p1, "page") && AllAt(p2, "limit") && AllAt(p3, "q") && AllAt(p4, "status");
    assert AllAt(p5, "priority") && AllAt(p6, "from") && AllAt(p7, "to") && OutsideKeys(u, ListQueryKeys);
  }

  /** `page`'s rules pass exactly when `PageAccepted` holds. */
  lemma PageRules(v: Option<RawValue>)
    ensures OptionalNumber("page", v, 1, None) == [] <==> PageAccepted(v)
  {
  }

  /** `limit`'s rules pass exactly when `LimitAccepted` holds. */
  lemma LimitRules(v: Option<RawValue>)
    ensures OptionalNumber("limit", v, 1, Some(100)) == [] <==> LimitAccepted(v)
  {
  }

  /** `page`, `limit` and `q` are each reported exactly when their rules fail. */
  lemma ListQueryReportsNumbers(raw: RawInput)
    ensures var r := ListQueryViolations(raw);
            && (ReportedAt(r, "page") <==> !PageAccepted(Lookup(raw, "page")))
            && (ReportedAt(r, "limit") <==> !LimitAccepted(Lookup(raw, "limit")))
            && (ReportedAt(r, "q") <==> !SearchAccepted(Lookup(raw, "q")))
  {
    PageRules(Lookup(raw, "page"));
    LimitRules(Lookup(raw, "limit"));
    var p1 := OptionalNumber("page", Lookup(raw, "page"), 1, None);
    var p2 := OptionalNumber("limit", Lookup(raw, "limit"), 1, Some(100));
    var p3 := OptionalSearch("q", Lookup(raw, "q"));
    var p4 := OptionalEnum("status", Lookup(raw, "status"), StatusNames);
    var p5 := OptionalEnum("priority", Lookup(raw, "priority"), PriorityNames);
    var p6 := OptionalDate("from", Lookup(raw, "from"));
    var p7 := ToViolations(Lookup(raw, "to"), Lookup(raw, "from"));
    var u := UnknownViolations(raw, ListQueryKeys);
    ListQueryPartsOf(raw);
    ListQueryParts(p1, p2, p3, p4, p5, p6, p7, u);
  }

  /** `status`, `priority`, `from` and `to` are each reported exactly when their rules fail. */
  lemma ListQueryReportsChoices(raw: RawInput)
    ensures var r := ListQueryViolations(raw);
            && (ReportedAt(r, "status") <==> !NameAccepted(Lookup(raw, "status"), StatusNames))
            && (ReportedAt(r, "priority") <==> !NameAccepted(Lookup(raw, "priority"), PriorityNames))
            && (ReportedAt(r, "from") <==> !DateAccepted(Lookup(raw, "from")))
            && (ReportedAt(r, "to") <==> !ToAccepted(Lookup(raw, "to"), Lookup(raw, "from")))
  {
    var p1 := OptionalNumber("page", Lookup(raw, "page"), 1, None);
    var p2 := OptionalNumber("limit", Lookup(raw, "limit"), 1, Some(100));
    var p3 := OptionalSearch("q", Lookup(raw, "q"));
    var p4 := OptionalEnum("status", Lookup(raw, "status"), StatusNames);
    var p5 := OptionalEnum("priority", Lookup(raw, "priority"), PriorityNames);
    var p6 := OptionalDate("from", Lookup(raw, "from"));
    var p7 := ToViolations(Lookup(raw, "to"), Lookup(raw, "from"));
    var u := UnknownViolations(raw, ListQueryKeys);
    ListQueryPartsOf(raw);
    ListQueryParts(p1, p2, p3, p4, p5, p6, p7, u);
  }

  /**
   * With `abortEarly: false` every field is checked: a field of the list
   * query is reported at its own path exactly when its rules fail, whatever
   * the other fields hold.
   */
  lemma ListQueryReportsEveryField(raw: RawInput)
    ensures var r := ListQueryViolations(raw);
            && (ReportedAt(r, "page") <==> !PageAccepted(Lookup(raw, "page")))
            && (ReportedAt(r, "limit") <==> !LimitAccepted(Lookup(raw, "limit")))
            && (ReportedAt(r, "q") <==> !SearchAccepted(Lookup(raw, "q")))
            && (ReportedAt(r, "status") <==> !NameAccepted(Lookup(raw, "status"), StatusNames))
            && (ReportedAt(r, "priority") <==> !NameAccepted(Lookup(raw, "priority"), PriorityNames))
            && (ReportedAt(r, "from") <==> !DateAccepted(Lookup(raw, "from")))
            && (ReportedAt(r, "to") <==> !ToAccepted(Lookup(raw, "to"), Lookup(raw, "from")))
  {
    ListQueryReportsNumbers(raw);
    ListQueryReportsChoices(raw);
  }

  /** The same for the create body: each field is reported at its own path exactly when its rules fail. */
  lemma CreateBodyReportsEveryField(raw: RawInput)
    ensures var r := CreateBodyViolations(raw);
            && (ReportedAt(r, "title") <==> !TitleAccepted(Lookup(raw, "title")))
            && (ReportedAt(r, "description") <==> !DescriptionAccepted(Lookup(raw, "description")))
            && (ReportedAt(r, "status") <==> !NameAccepted(Lookup(raw, "status"), StatusNames))
            && (ReportedAt(r, "priority") <==> !NameAccepted(Lookup(raw, "priority"), PriorityNames))
            && (ReportedAt(r, "dueDate") <==> !DateAccepted(Lookup(raw, "dueDate")))
  {
    CreateBodyParts(TitleViolations(Lookup(raw, "title")),
                    OptionalString("description", Lookup(raw, "description")),
                    OptionalEnum("status", Lookup(raw, "status"), StatusNames),
                    OptionalEnum("priority", Lookup(raw, "priority"), PriorityNames),
                    OptionalDate("dueDate", Lookup(raw, "dueDate")),
                    UnknownViolations(raw, CreateBodyKeys));
  }

  /** A `to` date before a valid `from` date is a `date.min` violation at path `to`. */
  lemma ToBeforeFromReported(raw: RawInput, from: int, to: int)
    requires Lookup(raw, "from") == Some(Time(from)) && Lookup(raw, "to") == Some(Time(to))
    requires to < from
    ensures ValidateListQuery(raw).Failure?
    ensures Report("to", "date.min", " must be greater than or equal to \"ref:from\"") in ValidateListQuery(raw).error
  {
    var vs := ListQueryViolations(raw);
    var tv := ToViolations(Lookup(raw, "to"), Lookup(raw, "from"));
    assert tv == [Report("to", "date.min", " must be greater than or equal to \"ref:from\"")];
    assert tv[0] in vs;
  }

  /** A body holding only a title: every other field is absent. */
  lemma TitleOnlyLookups(title: string)
    ensures var raw: RawInput := [("title", Str(title))];
            && Lookup(raw, "title") == Some(Str(title))
            && Lookup(raw, "description") == None && Lookup(raw, "status") == None
            && Lookup(raw, "priority") == None && Lookup(raw, "dueDate") == None
            && AllKnown(raw, CreateBodyKeys)
  {
  }

  /** The title boundary, below: a body whose title trims to one or two characters is rejected with `string.min` alone. */
  lemma TitleTooShort(title: string)
    requires 1 <= |Trim(title)| < 3
    ensures ValidateCreateBody([("title", Str(title))]).Failure?
    ensures var e := ValidateCreateBody([("title", Str(title))]).error;
            |e| == 1 && e[0].kind == "string.min" && e[0].path == Segments(["title"])
  {
    var raw: RawInput := [("title", Str(title))];
    TitleOnlyLookups(title);
    var t := TitleViolations(Lookup(raw, "title"));
    assert |t| == 1 && t[0].kind == "string.min" && t[0].path == Segments(["title"]);
    assert CreateBodyViolations(raw) == t by {
      assert OptionalString("description", Lookup(raw, "description")) == [];
      assert OptionalEnum("status", Lookup(raw, "status"), StatusNames) == [];
      assert OptionalEnum("priority", Lookup(raw, "priority"), PriorityNames) == [];
      assert OptionalDate("dueDate", Lookup(raw, "dueDate")) == [];
      assert UnknownViolations(raw, CreateBodyKeys) == [];
    }
  }

  /** A title-only body whose title has three or more characters after trimming passes every rule. */
  lemma TitleOnlyAccepted(title: string)
    requires |Trim(title)| >= 3
    ensures CreateBodyAccepted([("title", Str(title))])
    ensures CreateBodyValue([("title", Str(title))]) == CreateBody(Trim(title), None, Todo, Medium, None)
  {
    TitleOnlyLookups(title);
  }

  /** The title boundary, above: a title of three or more characters after trimming is accepted, stored trimmed, and status and priority take their defaults. */
  lemma TitleLongEnough(title: string)
    requires |Trim(title)| >= 3
    ensures ValidateCreateBody([("title", Str(title))]) == Success(CreateBody(Trim(title), None, Todo, Medium, None))
  {
    TitleOnlyAccepted(title);
  }

  /** An empty query is valid and yields the defaults: page 1, limit 20, no filters. */
  lemma EmptyQueryDefaults()
    ensures ValidateListQuery([]) == Success(ListQuery(1, 20, None, None, None, None, None))
  {
  }
}
