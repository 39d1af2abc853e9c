/**
 * frontend/src/api/tasks.api.js: the parameter pruning done before the HTTP
 * call. `listTasks` drops only undefined parameters; `createTask` keeps a
 * field only when its value has a positive `length`. The HTTP calls
 * themselves are not part of this model.
 */
module TasksApi {
  import NewTaskDialog

  /** The JavaScript values a parameter can hold. */
  datatype JsValue = Undefined | Null | Bool(b: bool) | Number(x: real) | Text(s: string) | List(items: seq<JsValue>)

  /** The entries of an object, in `Object.entries` order. */
  type Entries = seq<(string, JsValue)>

  /** `Object.fromEntries(Object.entries(o).filter(([_, v]) => keep(v)))`. */
  function Prune(entries: Entries, keep: JsValue -> bool): (r: Entries)
    ensures forall e :: e in r <==> e in entries && keep(e.1)
    ensures |r| <= |entries|
  {
    if entries == [] then []
    else (if keep(entries[0].1) then [entries[0]] else []) + Prune(entries[1..], keep)
  }

  /** Pruning keeps the survivors in their order: it distributes over concatenation. */
  lemma {:induction false} PruneAppend(a: Entries, b: Entries, keep: JsValue -> bool)
    ensures Prune(a + b, keep) == Prune(a, keep) + Prune(b, keep)
  {
    if a == [] {
      assert a + b == b;
    } else {
      assert (a + b)[1..] == a[1..] + b;
      PruneAppend(a[1..], b, keep);
    }
  }

  lemma PruneCons(e: (string, JsValue), rest: Entries, keep: JsValue -> bool)
    ensures Prune([e] + rest, keep) == (if keep(e.1) then [e] else []) + Prune(rest, keep)
  {
    assert ([e] + rest)[1..] == rest;
  }

  /** Pruning never changes an entry that survives, and drops nothing that passes. */
  lemma {:induction false} PruneKeepsAll(entries: Entries, keep: JsValue -> bool)
    requires forall i :: 0 <= i < |entries| ==> keep(entries[i].1)
    ensures Prune(entries, keep) == entries
  {
    if entries != [] {
      PruneKeepsAll(entries[1..], keep);
    }
  }

  /** `value !== undefined`. */
  predicate IsDefined(v: JsValue)
  {
    !v.Undefined?
  }

  /** `value !== undefined && value?.length > 0`: only strings and arrays have a length. */
  predicate HasContent(v: JsValue)
  {
    (v.Text? && |v.s| > 0) || (v.List? && |v.items| > 0)
  }

  /** `{ page, limit, q, priority, status, to, from }`, in that key order. */
  function ListEntries(page: JsValue, limit: JsValue, q: JsValue, priority: JsValue, status: JsValue,
                       to: JsValue, from: JsValue): Entries
  {
    [("page", page)] + ([("limit", limit)] + ([("q", q)] + ([("priority", priority)] + ([("status", status)]
      + ([("to", to)] + [("from", from)])))))
  }

  /** The query parameters of `listTasks`. */
  function ListTasksParams(page: JsValue, limit: JsValue, q: JsValue, priority: JsValue, status: JsValue,
                           to: JsValue, from: JsValue): (r: Entries)
    ensures forall k, v :: (k, v) in r ==> v != Undefined
    ensures |r| <= 7
  {
    Prune(ListEntries(page, limit, q, priority, status, to, from), IsDefined)
  }

  /** One `listTasks` parameter after pruning: the entry, or nothing when the value is undefined. */
  function KeptIfDefined(key: string, v: JsValue): Entries
  {
    if IsDefined(v) then [(key, v)] else []
  }

  /** The query parameters of `listTasks`, field by field. */
  lemma {:induction false} ListTasksParamsSteps(page: JsValue, limit: JsValue, q: JsValue, priority: JsValue, status: JsValue,
                                                to: JsValue, from: JsValue)
    ensures ListTasksParams(page, limit, q, priority, status, to, from)
            == KeptIfDefined("page", page) + (KeptIfDefined("limit", limit) + (KeptIfDefined("q", q)
               + (KeptIfDefined("priority", priority) + (KeptIfDefined("status", status)
               + (KeptIfDefined("to", to) + KeptIfDefined("from", from))))))
  {
    var f := [("from", from)];
    PruneCons(("from", from), [], IsDefined);
    assert f == [("from", from)] + [];
    var t := [("to", to)] + f;
    PruneCons(("to", to), f, IsDefined);
    var s := [("status", status)] + t;
    PruneCons(("status", status), t, IsDefined);
    var p := [("priority", priority)] + s;
    PruneCons(("priority", priority), s, IsDefined);
    var qq := [("q", q)] + p;
    PruneCons(("q", q), p, IsDefined);
    var l := [("limit", limit)] + qq;
    PruneCons(("limit", limit), qq, IsDefined);
    PruneCons(("page", page), l, IsDefined);
  }

  /** The body of `createTask`. */
  function CreateTaskParams(params: Entries): (r: Entries)
    ensures forall e :: e in r <==> e in params && HasContent(e.1)
  {
    Prune(params, HasContent)
  }

  /**
   * `listTasks` drops exactly the undefined parameters: null and any number,
   * string or boolean (0, "" and false included) are kept in the params
   * object passed to `API.get`.
   */
  lemma ListKeepsFalsyValues(x: real, s: string, b: bool)
    ensures ListTasksParams(Number(x), Undefined, Text(s), Null, Undefined, Bool(b), Undefined)
            == [("page", Number(x))] + ([("q", Text(s))] + ([("priority", Null)] + [("to", Bool(b))]))
  {
    ListTasksParamsSteps(Number(x), Undefined, Text(s), Null, Undefined, Bool(b), Undefined);
    var tail := [("to", Bool(b))];
    assert KeptIfDefined("to", Bool(b)) + KeptIfDefined("from", Undefined) == tail;
    assert KeptIfDefined("status", Undefined) + tail == tail;
    var mid := [("priority", Null)] + tail;
    assert KeptIfDefined("priority", Null) + tail == mid;
    var front := [("q", Text(s))] + mid;
    assert KeptIfDefined("q", Text(s)) + mid == front;
    assert KeptIfDefined("limit", Undefined) + front == front;
  }

  /** With every parameter defined, `listTasks` sends all seven, unchanged and in order. */
  lemma ListAllDefined(page: JsValue, limit: JsValue, q: JsValue, priority: JsValue, status: JsValue,
                       to: JsValue, from: JsValue)
    requires IsDefined(page) && IsDefined(limit) && IsDefined(q) && IsDefined(priority)
    requires IsDefined(status) && IsDefined(to) && IsDefined(from)
    ensures ListTasksParams(page, limit, q, priority, status, to, from) == ListEntries(page, limit, q, priority, status, to, from)
  {
    ListTasksParamsSteps(page, limit, q, priority, status, to, from);
  }

  /** `createTask` drops empty strings and every value without a length, numbers and null included. */
  lemma CreateDropsEmptyAndLengthless()
    ensures CreateTaskParams([("title", Text("abc")), ("description", Text("")), ("dueDate", Number(5.0)),
                              ("status", Null), ("priority", Text("low"))])
            == [("title", Text("abc")), ("priority", Text("low"))]
  {
  }

  /** The entries of a payload from the new-task dialog, in its field order. */
  function PayloadEntries(p: NewTaskDialog.Payload): Entries
  {
    [("title", Text(p.title)), ("description", Text(p.description)), ("status", Text(p.status)),
     ("priority", Text(p.priority)), ("dueDate", Text(p.dueDate))]
  }

  /**
   * A payload the dialog submits (its title is never empty) reaches the
   * backend with its title, and with each other field exactly when that
   * field is not empty: an empty description or due date is not sent at all.
   */
  lemma PayloadSent(p: NewTaskDialog.Payload)
    requires p.title != ""
    ensures var sent := CreateTaskParams(PayloadEntries(p));
            && ("title", Text(p.title)) in sent
            && (("description", Text(p.description)) in sent <==> p.description != "")
            && (("dueDate", Text(p.dueDate)) in sent <==> p.dueDate != "")
            && forall e :: e in sent ==> e.1.Text? && e.1.s != ""
  {
    var entries := PayloadEntries(p);
    assert entries[0] == ("title", Text(p.title));
    assert entries[1] == ("description", Text(p.description));
    assert entries[4] == ("dueDate", Text(p.dueDate));
  }
}
