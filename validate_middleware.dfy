/**
 * `validate(schemas)` of backend/middlewares/validate.middleware.js: the
 * request parts are checked one after another, in the order the `schemas`
 * object lists them; the first part with violations ends the run with one
 * 400 `VALIDATION_ERROR` carrying every violation of that part, and when
 * every part passes `next()` is called with no error. The normalised value
 * the schema produces is discarded: nothing is written back to the
 * request, which the method below takes as a value and never changes.
 */
module ValidateMiddleware {
  import opened Wrappers
  import opened Text
  import opened TasksValidator
  import opened ApiErrors

  /** One entry of the `schemas` object: a request part and its schema, or a falsy placeholder. */
  datatype SchemaEntry = SchemaEntry(part: string, schema: Option<Schema>)

  /** The parts of a request (`query`, `body`, `params`, ...); a part that is not there is undefined. */
  type Request = map<string, RawInput>

  /** A detail's `path`: the array path joined with ".", or `String(path || "")` for anything else. */
  function DetailPath(p: PathValue): (r: string)
    ensures p.Segments? && |p.keys| == 1 ==> r == p.keys[0]
    ensures p.Absent? ==> r == ""
  {
    match p
    case Segments(keys) => Join(keys, ".")
    case Absent => ""
    case Scalar(text) => text
  }

  /** One detail per violation, in the same order, each with the violation's message, path and rule kind. */
  function DetailsOf(vs: seq<Violation>): (ds: seq<Detail>)
    ensures |ds| == |vs|
    ensures forall i :: 0 <= i < |vs| ==>
              ds[i].message == vs[i].message && ds[i].path == DetailPath(vs[i].path) && ds[i].kind == Some(vs[i].kind)
  {
    seq(|vs|, i requires 0 <= i < |vs| => Detail(DetailPath(vs[i].path), vs[i].message, Some(vs[i].kind)))
  }

  /** The violations one entry reports: none for a falsy schema or a part that is not there. */
  function PartViolations(entry: SchemaEntry, request: Request): seq<Violation>
  {
    if entry.schema.None? || entry.part !in request then []
    else
      match Validate(entry.schema.value, request[entry.part])
      case Success(_) => []
      case Failure(vs) => vs
  }

  predicate PartPasses(entry: SchemaEntry, request: Request)
  {
    PartViolations(entry, request) == []
  }

  /** Part `k` is the first part that fails. */
  predicate FailsFirstAt(schemas: seq<SchemaEntry>, request: Request, k: int)
  {
    && 0 <= k < |schemas|
    && !PartPasses(schemas[k], request)
    && forall j :: 0 <= j < k ==> PartPasses(schemas[j], request)
  }

  /** The error passed to `next` for a failing part. */
  function ValidationFailed(vs: seq<Violation>, trace: string): (e: ApiError)
    requires vs != []
    ensures e.statusCode == 400 && e.message == "Validation failed" && e.code == Some("VALIDATION_ERROR")
    ensures e.isOperational && e.cause == Some(SchemaCause(vs))
    ensures e.details.Some? && |e.details.value| == |vs| > 0
  {
    BadRequest(Some("Validation failed"),
               Options(None, Some(DetailsOf(vs)), Some("VALIDATION_ERROR"), Some(SchemaCause(vs))),
               trace)
  }

  /** The index of the first failing part, if any. */
  function FirstFailing(schemas: seq<SchemaEntry>, request: Request): (r: Option<nat>)
    ensures r.None? <==> forall k :: 0 <= k < |schemas| ==> PartPasses(schemas[k], request)
    ensures r.Some? ==> FailsFirstAt(schemas, request, r.value)
  {
    var passes := seq(|schemas|, j requires 0 <= j < |schemas| => PartPasses(schemas[j], request));
    var r := FirstFalse(passes, 0);
    assert forall k :: 0 <= k < |schemas| ==> passes[k] == PartPasses(schemas[k], request);
    r
  }

  /** The first index at or after `i` where `bs` is false, given that `bs` holds before `i`. */
  function FirstFalse(bs: seq<bool>, i: nat): (r: Option<nat>)
    requires i <= |bs|
    requires forall j :: 0 <= j < i ==> bs[j]
    ensures r.None? <==> forall k :: i <= k < |bs| ==> bs[k]
    ensures r.Some? ==> r.value < |bs| && !bs[r.value] && forall j :: 0 <= j < r.value ==> bs[j]
    decreases |bs| - i
  {
    if i == |bs| then None
    else if !bs[i] then Some(i)
    else FirstFalse(bs, i + 1)
  }

  /** What reaches `next`: the first failing part's error, or nothing when every part passes. */
  function Outcome(schemas: seq<SchemaEntry>, request: Request, trace: string): (r: Option<ApiError>)
    ensures r.None? <==> forall k :: 0 <= k < |schemas| ==> PartPasses(schemas[k], request)
  {
    match FirstFailing(schemas, request)
    case None => None
    case Some(k) => Some(ValidationFailed(PartViolations(schemas[k], request), trace))
  }

  /** The first failing part is unique: whichever part fails first is the one `FirstFailing` finds. */
  lemma {:induction false} FirstFailingFound(schemas: seq<SchemaEntry>, request: Request, k: int)
    requires FailsFirstAt(schemas, request, k)
    ensures FirstFailing(schemas, request) == Some(k)
  {
    // Part `k` fails, so some part fails first; two first failures coincide.
    assert FirstFailing(schemas, request).Some?;
    var j := FirstFailing(schemas, request).value;
    assert !(j < k) && !(k < j);
  }

  /** When part `k` fails first, its violations make up the outcome. */
  lemma FailingOutcome(schemas: seq<SchemaEntry>, request: Request, trace: string, k: int)
    requires FailsFirstAt(schemas, request, k)
    ensures Outcome(schemas, request, trace) == Some(ValidationFailed(PartViolations(schemas[k], request), trace))
  {
    FirstFailingFound(schemas, request, k);
  }

  lemma PassedPrefix(schemas: seq<SchemaEntry>, request: Request, i: int)
    requires 0 <= i < |schemas|
    requires forall j :: 0 <= j < i ==> PartPasses(schemas[j], request)
    requires PartPasses(schemas[i], request)
    ensures forall j :: 0 <= j < i + 1 ==> PartPasses(schemas[j], request)
  {
  }

  /** The middleware: check each part in turn and stop at the first failure. */
  method ValidateRequest(schemas: seq<SchemaEntry>, request: Request, trace: string) returns (failure: Option<ApiError>)
    ensures failure == Outcome(schemas, request, trace)
  {
    var i := 0;
    while i < |schemas|
      invariant 0 <= i <= |schemas|
      invariant forall j :: 0 <= j < i ==> PartPasses(schemas[j], request)
    {
      var entry := schemas[i];
      if entry.schema.None? {
        assert PartPasses(entry, request);
        PassedPrefix(schemas, request, i);
        i := i + 1;
        continue;
      }
      if entry.part in request {
        var result := Validate(entry.schema.value, request[entry.part]);
        if result.Failure? {
          assert PartViolations(entry, request) == result.error != [];
          FailingOutcome(schemas, request, trace, i);
          return Some(ValidationFailed(result.error, trace));
        }
        assert PartPasses(entry, request);
      }
      assert PartPasses(entry, request);
      PassedPrefix(schemas, request, i);
      i := i + 1;
    }
    return None;
  }

  /** Parts after the first failing one are never looked at: dropping or changing them does not change the outcome. */
  lemma LaterPartsIgnored(schemas: seq<SchemaEntry>, request: Request, trace: string, k: int)
    requires FailsFirstAt(schemas, request, k)
    ensures Outcome(schemas, request, trace) == Outcome(schemas[..k + 1], request, trace)
    ensures Outcome(schemas, request, trace) == Some(ValidationFailed(PartViolations(schemas[k], request), trace))
  {
    FailingOutcome(schemas, request, trace, k);
    assert FailsFirstAt(schemas[..k + 1], request, k);
    FailingOutcome(schemas[..k + 1], request, trace, k);
  }

  /** Every violation of the failing part becomes one detail, path and message intact. */
  lemma FailureReportsEveryViolation(vs: seq<Violation>, trace: string, i: int)
    requires vs != [] && 0 <= i < |vs|
    ensures var d := ValidationFailed(vs, trace).details.value[i];
            d.message == vs[i].message && d.path == DetailPath(vs[i].path) && d.kind == Some(vs[i].kind)
  {
  }
}
