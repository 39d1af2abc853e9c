/**
 * `listTasks` of backend/services/tasks.service.js over an abstract store.
 * The store is a sequence of task documents; `find` selects the documents
 * a filter matches, `sort` orders them by due date then creation time, both
 * descending, `skip`/`limit` cut out one page, and `countDocuments` counts
 * every match. The filter is built as the source builds it, one optional
 * conjunct after another, and always holds the soft-delete conjunct
 * `deletedAt: null`. The regular-expression test of the store is a
 * parameter (`Matcher`): the search text is passed to it unescaped, as a
 * case-insensitive pattern.
 */
module TasksService {
  import opened Wrappers
  import opened TaskModel

  /** The store's case-insensitive regular-expression test: pattern, then subject. */
  type Matcher = (string, string) -> bool

  datatype DueRange = DueRange(gte: Option<int>, lte: Option<int>)

  /** `{ <path>: { $regex: pattern, $options: options } }`. */
  datatype PathPattern = PathPattern(path: string, regex: string, options: string)

  /** The query object handed to the store; an absent field is no condition. */
  datatype Filter = Filter(
    deletedAt: Option<int>,
    status: Option<string>,
    priority: Option<string>,
    dueDate: Option<DueRange>,
    search: Option<PathPattern>)

  /** The path the source's search conjunct names; a Task document has no such path. */
  const TextPath: string := "text"
  /** The path the search is evidently meant for. */
  const TitlePath: string := "title"

  /** The string a document holds at `path`, if any. */
  function StringAt(t: Task, path: string): Option<string>
  {
    if path == "title" then Some(t.title)
    else if path == "description" then t.description
    else None
  }

  function InRange(d: Option<int>, range: DueRange): bool
  {
    && (range.gte.Some? ==> d.Some? && d.value >= range.gte.value)
    && (range.lte.Some? ==> d.Some? && d.value <= range.lte.value)
  }

  /** The store's reading of a filter: every present field is a conjunct. */
  predicate Matches(f: Filter, t: Task, m: Matcher)
  {
    && t.deletedAt == f.deletedAt
    && (f.status.Some? ==> StatusName(t.status) == f.status.value)
    && (f.priority.Some? ==> PriorityName(t.priority) == f.priority.value)
    && (f.dueDate.Some? ==> InRange(t.dueDate, f.dueDate.value))
    && (f.search.Some? ==> StringAt(t, f.search.value.path).Some?
                           && m(f.search.value.regex, StringAt(t, f.search.value.path).value))
  }

  /** JavaScript truthiness of an optional string argument. */
  predicate Truthy(s: Option<string>)
  {
    s.Some? && s.value != ""
  }

  /** The filtering arguments of `listTasks`; a date argument is a Date object, hence truthy when present. */
  datatype Criteria = Criteria(
    q: Option<string>,
    status: Option<string>,
    priority: Option<string>,
    from: Option<int>,
    to: Option<int>)

  /**
   * The tasks a listing with these arguments is about: live ones, with the
   * given status and priority, a due date within the inclusive bounds, and
   * the search text found at `searchPath`.
   */
  predicate Listed(c: Criteria, searchPath: string, t: Task, m: Matcher)
  {
    && IsLive(t)
    && (Truthy(c.status) ==> StatusName(t.status) == c.status.value)
    && (Truthy(c.priority) ==> PriorityName(t.priority) == c.priority.value)
    && (c.from.Some? ==> t.dueDate.Some? && t.dueDate.value >= c.from.value)
    && (c.to.Some? ==> t.dueDate.Some? && t.dueDate.value <= c.to.value)
    && (Truthy(c.q) ==> StringAt(t, searchPath).Some? && m(c.q.value, StringAt(t, searchPath).value))
  }

  /** The filter of `listTasks`, built by successive assignments as in the source. */
  method BuildFilter(q: Option<string>, status: Option<string>, priority: Option<string>,
                     from: Option<int>, to: Option<int>) returns (filters: Filter)
    ensures filters.deletedAt.None?
    ensures forall t: Task, m: Matcher :: Matches(filters, t, m) <==> Listed(Criteria(q, status, priority, from, to), TextPath, t, m)
  {
    filters := Filter(None, None, None, None, None);
    if Truthy(status) {
      filters := filters.(status := status);
    }
    if Truthy(priority) {
      filters := filters.(priority := priority);
    }
    if from.Some? || to.Some? {
      filters := filters.(dueDate := Some(DueRange(None, None)));
      if from.Some? {
        filters := filters.(dueDate := Some(filters.dueDate.value.(gte := from)));
      }
      if to.Some? {
        filters := filters.(dueDate := Some(filters.dueDate.value.(lte := to)));
      }
    }
    if Truthy(q) {
      filters := filters.(search := Some(PathPattern(TextPath, q.value, "i")));
    }
  }

  // ---------------------------------------------------------------------------
  // The abstract store.

  /** `find(filters)` before sorting: the matching documents in store order. */
  function Select(store: seq<Task>, f: Filter, m: Matcher): (r: seq<Task>)
    ensures forall t :: t in r <==> t in store && Matches(f, t, m)
    ensures |r| <= |store|
  {
    if store == [] then []
    else (if Matches(f, store[0], m) then [store[0]] else []) + Select(store[1..], f, m)
  }

  /** The documents a listing is about, in store order. */
  function SelectListed(store: seq<Task>, c: Criteria, searchPath: string, m: Matcher): (r: seq<Task>)
    ensures forall t :: t in r <==> t in store && Listed(c, searchPath, t, m)
    ensures |r| <= |store|
  {
    if store == [] then []
    else (if Listed(c, searchPath, store[0], m) then [store[0]] else []) + SelectListed(store[1..], c, searchPath, m)
  }

  /** A filter that matches exactly the listed tasks selects exactly them, in the same order. */
  lemma {:induction false} SelectAgrees(store: seq<Task>, f: Filter, c: Criteria, searchPath: string, m: Matcher)
    requires forall t :: Matches(f, t, m) <==> Listed(c, searchPath, t, m)
    ensures Select(store, f, m) == SelectListed(store, c, searchPath, m)
  {
    if store != [] {
      SelectAgrees(store[1..], f, c, searchPath, m);
    }
  }

  /** When no document is listed the selection is empty. */
  lemma {:induction false} NothingListed(store: seq<Task>, c: Criteria, searchPath: string, m: Matcher)
    requires forall t :: t in store ==> !Listed(c, searchPath, t, m)
    ensures SelectListed(store, c, searchPath, m) == []
  {
    if store != [] {
      NothingListed(store[1..], c, searchPath, m);
    }
  }

  /** Selection distributes over concatenation. */
  lemma {:induction false} SelectListedAppend(a: seq<Task>, b: seq<Task>, c: Criteria, searchPath: string, m: Matcher)
    ensures SelectListed(a + b, c, searchPath, m) == SelectListed(a, c, searchPath, m) + SelectListed(b, c, searchPath, m)
  {
    if a == [] {
      assert a + b == b;
    } else {
      assert (a + b)[1..] == a[1..] + b;
      SelectListedAppend(a[1..], b, c, searchPath, m);
    }
  }

  /** A missing due date ranks below every date (so, descending, it comes last). */
  predicate DueLater(x: Option<int>, y: Option<int>)
  {
    (x.Some? && y.None?) || (x.Some? && y.Some? && x.value > y.value)
  }

  /** `a` may be listed before `b` under `sort({dueDate: -1, createdAt: -1})`. */
  predicate Precedes(a: Task, b: Task)
  {
    if a.dueDate == b.dueDate then a.createdAt >= b.createdAt else DueLater(a.dueDate, b.dueDate)
  }

  predicate SortedForListing(s: seq<Task>)
  {
    forall i, j :: 0 <= i < j < |s| ==> Precedes(s[i], s[j])
  }

  lemma PrecedesTotal(a: Task, b: Task)
    ensures Precedes(a, b) || Precedes(b, a)
  {
  }

  lemma PrecedesTransitive(a: Task, b: Task, c: Task)
    requires Precedes(a, b) && Precedes(b, c)
    ensures Precedes(a, c)
  {
  }

  /** A head that precedes every element of a sorted tail gives a sorted sequence. */
  lemma ConsSorted(x: Task, s: seq<Task>)
    requires SortedForListing(s)
    requires forall y :: y in s ==> Precedes(x, y)
    ensures SortedForListing([x] + s)
  {
    var r := [x] + s;
    forall i, j | 0 <= i < j < |r| ensures Precedes(r[i], r[j]) {
      if i == 0 {
        assert r[j] == s[j - 1];
      } else {
        assert r[i] == s[i - 1] && r[j] == s[j - 1];
      }
    }
  }

  /** Puts `x` into a sorted sequence, after every element that is not strictly later in the order. */
  function Insert(x: Task, s: seq<Task>): (r: seq<Task>)
    requires SortedForListing(s)
    ensures SortedForListing(r)
    ensures multiset(r) == multiset(s) + multiset{x}
  {
    if s == [] then [x]
    else if Precedes(x, s[0]) then
      InsertAtHead(x, s);
      [x] + s
    else
      var rest := Insert(x, s[1..]);
      InsertBehindHead(x, s, rest);
      assert s == [s[0]] + s[1..];
      [s[0]] + rest
  }

  lemma InsertAtHead(x: Task, s: seq<Task>)
    requires SortedForListing(s) && s != [] && Precedes(x, s[0])
    ensures SortedForListing([x] + s)
  {
    forall y | y in s ensures Precedes(x, y) {
      var j :| 0 <= j < |s| && s[j] == y;
      if j > 0 {
        PrecedesTransitive(x, s[0], y);
      }
    }
    ConsSorted(x, s);
  }

  lemma InsertBehindHead(x: Task, s: seq<Task>, rest: seq<Task>)
    requires SortedForListing(s) && s != [] && !Precedes(x, s[0])
    requires SortedForListing(rest) && multiset(rest) == multiset(s[1..]) + multiset{x}
    ensures SortedForListing([s[0]] + rest)
  {
    forall y | y in rest ensures Precedes(s[0], y) {
      assert y in multiset(rest);
      if y == x {
        PrecedesTotal(x, s[0]);
      } else {
        assert y in multiset(s[1..]);
        var j :| 0 <= j < |s[1..]| && s[1..][j] == y;
        assert s[j + 1] == y;
      }
    }
    ConsSorted(s[0], rest);
  }

  /** `sort({dueDate: -1, createdAt: -1})`: a sorted permutation; equal keys keep store order. */
  function SortForListing(s: seq<Task>): (r: seq<Task>)
    ensures SortedForListing(r)
    ensures multiset(r) == multiset(s)
    ensures |r| == |s|
  {
    if s == [] then []
    else
      assert s == [s[0]] + s[1..];
      Insert(s[0], SortForListing(s[1..]))
  }

  lemma SortKeepsMembers(s: seq<Task>)
    ensures forall t :: t in SortForListing(s) <==> t in s
  {
    forall t ensures t in SortForListing(s) <==> t in s {
      assert t in SortForListing(s) <==> t in multiset(SortForListing(s));
    }
  }

  /** The number of documents skipped before page `page`. */
  function Offset(page: int, limit: int): (r: nat)
    requires page >= 1 && limit >= 1
    ensures r == (page - 1) * limit
  {
    (page - 1) * limit
  }

  /** `.skip(skip).limit(limit)`. */
  function Window(s: seq<Task>, skip: nat, limit: nat): (r: seq<Task>)
    ensures |r| <= limit
    ensures forall t :: t in r ==> t in s
    ensures skip >= |s| ==> r == []
    ensures skip < |s| ==> |r| == (if limit < |s| - skip then limit else |s| - skip) && r == s[skip..skip + |r|]
  {
    if skip >= |s| then []
    else if limit < |s| - skip then s[skip..skip + limit]
    else s[skip..]
  }

  /** `Math.ceil(n / d)` for a positive divisor. */
  function CeilDiv(n: nat, d: nat): (r: nat)
    requires d >= 1
    ensures r * d >= n
    ensures r == 0 || (r - 1) * d < n
    ensures n == 0 <==> r == 0
  {
    var q := (n + d - 1) / d;
    assert n + d - 1 == q * d + (n + d - 1) % d;
    q
  }

  // ---------------------------------------------------------------------------
  // listTasks

  datatype ListPage = ListPage(items: seq<Task>, totalCount: nat, totalPages: nat)

  /** What `listTasks` returns, with the search conjunct placed on `searchPath`. */
  function Listing(store: seq<Task>, page: int, limit: int, c: Criteria, searchPath: string, m: Matcher): (r: ListPage)
    requires page >= 1 && limit >= 1
    ensures |r.items| <= limit
    ensures forall t :: t in r.items ==> t in store && IsLive(t) && Listed(c, searchPath, t, m)
    ensures SortedForListing(r.items)
    ensures r.totalCount == |SelectListed(store, c, searchPath, m)|
    ensures r.totalPages * limit >= r.totalCount && (r.totalPages == 0 || (r.totalPages - 1) * limit < r.totalCount)
    ensures (page - 1) * limit >= r.totalCount ==> r.items == []
    ensures r.items == Window(SortForListing(SelectListed(store, c, searchPath, m)), Offset(page, limit), limit)
  {
    var matches := SelectListed(store, c, searchPath, m);
    var sorted := SortForListing(matches);
    var items := Window(sorted, Offset(page, limit), limit);
    SortKeepsMembers(matches);
    WindowSorted(sorted, Offset(page, limit), limit);
    ListPage(items, |matches|, CeilDiv(|matches|, limit))
  }

  /** A page cut from a sorted sequence is sorted. */
  lemma WindowSorted(s: seq<Task>, skip: nat, limit: nat)
    requires SortedForListing(s)
    ensures SortedForListing(Window(s, skip, limit))
  {
    var w := Window(s, skip, limit);
    forall i, j | 0 <= i < j < |w| ensures Precedes(w[i], w[j]) {
      assert w[i] == s[skip + i] && w[j] == s[skip + j];
    }
  }

  /** `listTasks(page, limit, q, status, priority, from, to)` as written: the search conjunct names the path `text`. */
  method ListTasks(store: seq<Task>, page: int, limit: int, q: Option<string>, status: Option<string>,
                   priority: Option<string>, from: Option<int>, to: Option<int>, m: Matcher)
    returns (items: seq<Task>, totalCount: nat, totalPages: nat)
    requires page >= 1 && limit >= 1
    ensures ListPage(items, totalCount, totalPages) == Listing(store, page, limit, Criteria(q, status, priority, from, to), TextPath, m)
  {
    var skip: nat := (page - 1) * limit;
    var filters := BuildFilter(q, status, priority, from, to);
    SelectAgrees(store, filters, Criteria(q, status, priority, from, to), TextPath, m);
    items := Window(SortForListing(Select(store, filters, m)), skip, limit);
    totalCount := |Select(store, filters, m)|;
    totalPages := CeilDiv(totalCount, limit);
  }

  // ---------------------------------------------------------------------------
  // Properties of listing.

  /** A soft-deleted document changes nothing: it is neither listed nor counted. */
  lemma SoftDeletedInvisible(store: seq<Task>, t: Task, page: int, limit: int, c: Criteria, searchPath: string, m: Matcher)
    requires page >= 1 && limit >= 1 && !IsLive(t)
    ensures Listing(store + [t], page, limit, c, searchPath, m) == Listing(store, page, limit, c, searchPath, m)
  {
    SelectListedAppend(store, [t], c, searchPath, m);
    assert SelectListed([t], c, searchPath, m) == [];
    assert SelectListed(store, c, searchPath, m) + [] == SelectListed(store, c, searchPath, m);
  }

  lemma MulMonotone(a: int, b: int, k: int)
    requires a <= b && k >= 0
    ensures a * k <= b * k
  {
    assert b * k - a * k == (b - a) * k;
  }

  /** With `pages` the ceiling of `n / limit`, page `page` starts before the end exactly when it is one of those pages. */
  lemma PageStartsBeforeEnd(n: nat, pages: nat, page: int, limit: int)
    requires page >= 1 && limit >= 1
    requires pages * limit >= n && (pages == 0 || (pages - 1) * limit < n)
    ensures page <= pages <==> (page - 1) * limit < n
  {
    if page <= pages {
      MulMonotone(page - 1, pages - 1, limit);
    } else {
      MulMonotone(pages, page - 1, limit);
    }
  }

  /** Pages tile the matches: a page holds `limit` items except the last non-empty one, and every page from `totalPages + 1` on is empty. */
  lemma PageSize(store: seq<Task>, page: int, limit: int, c: Criteria, searchPath: string, m: Matcher)
    requires page >= 1 && limit >= 1
    ensures var r := Listing(store, page, limit, c, searchPath, m);
            var skip := Offset(page, limit);
            |r.items| == (if skip >= r.totalCount then 0
                          else if r.totalCount - skip < limit then r.totalCount - skip
                          else limit)
    ensures var r := Listing(store, page, limit, c, searchPath, m);
            page <= r.totalPages <==> |r.items| > 0
  {
    var r := Listing(store, page, limit, c, searchPath, m);
    var sorted := SortForListing(SelectListed(store, c, searchPath, m));
    assert r.items == Window(sorted, Offset(page, limit), limit);
    WindowSize(sorted, page, limit, r.totalPages);
  }

  /** The size of one page cut from `s`, when `pages` is the ceiling of `|s| / limit`. */
  lemma WindowSize(s: seq<Task>, page: int, limit: int, pages: nat)
    requires page >= 1 && limit >= 1
    requires pages * limit >= |s| && (pages == 0 || (pages - 1) * limit < |s|)
    ensures var w := Window(s, Offset(page, limit), limit);
            && |w| == (if Offset(page, limit) >= |s| then 0
                       else if |s| - Offset(page, limit) < limit then |s| - Offset(page, limit)
                       else limit)
            && (page <= pages <==> |w| > 0)
  {
    PageStartsBeforeEnd(|s|, pages, page, limit);
  }

  /** Five matching tasks with ten per page: page 2 is empty, the total is 5 and there is one page. */
  lemma PastLastPage(store: seq<Task>, c: Criteria, searchPath: string, m: Matcher)
    requires |SelectListed(store, c, searchPath, m)| == 5
    ensures Listing(store, 2, 10, c, searchPath, m) == ListPage([], 5, 1)
  {
  }

  /** As written, any non-empty search text empties the listing: no Task document has a `text` path to match. */
  lemma SearchOnTextFindsNothing(store: seq<Task>, page: int, limit: int, c: Criteria, m: Matcher)
    requires page >= 1 && limit >= 1 && Truthy(c.q)
    ensures Listing(store, page, limit, c, TextPath, m) == ListPage([], 0, 0)
  {
    NothingListed(store, c, TextPath, m);
  }

  /** The listing with the search placed on the title, as the search is evidently meant. */
  function ListingIntended(store: seq<Task>, page: int, limit: int, c: Criteria, m: Matcher): (r: ListPage)
    requires page >= 1 && limit >= 1
    ensures r.totalCount == |SelectListed(store, c, TitlePath, m)|
    ensures forall t :: t in r.items ==> IsLive(t) && (Truthy(c.q) ==> m(c.q.value, t.title))
  {
    Listing(store, page, limit, c, TitlePath, m)
  }

  /** With the search on the title, a live task whose title matches is selected and counted, and the first page is not empty. */
  lemma IntendedSearchFindsTitles(store: seq<Task>, t: Task, limit: int, c: Criteria, m: Matcher)
    requires limit >= 1 && t in store && IsLive(t)
    requires c == Criteria(c.q, None, None, None, None) && Truthy(c.q) && m(c.q.value, t.title)
    ensures t in SelectListed(store, c, TitlePath, m)
    ensures ListingIntended(store, 1, limit, c, m).totalCount >= 1
    ensures ListingIntended(store, 1, limit, c, m).items != []
  {
    var matches := SelectListed(store, c, TitlePath, m);
    assert t in matches;
    PageSize(store, 1, limit, c, TitlePath, m);
  }
}
