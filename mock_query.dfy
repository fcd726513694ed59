/**
 * `GET /todos` of the mock backend (src/mocks/handlers.ts): read the query parameters, keep
 * the todos that match the status and search filters, sort them by the requested key and
 * direction, and cut out the requested page. The handler works on a copy of the store, so
 * it is a function of the store.
 */
module MockQuery {
  import opened Options
  import opened JsText
  import opened TodosApi

  /**
   * The JSON body of the response. A number that JSON writes as `null` (NaN, Infinity) is
   * `None`.
   */
  datatype TodoPage = TodoPage(todos: seq<Todo>, total: nat, page: Option<int>, limit: Option<int>,
                               totalPages: Option<int>)

  /** `url.searchParams.get(key) || fallback`. */
  function ParamOr(params: seq<Param>, key: string, fallback: string): (v: string)
    ensures TruthyStr(ParamValue(params, key)) ==> v == ParamValue(params, key).value
    ensures !TruthyStr(ParamValue(params, key)) ==> v == fallback
  {
    var got := ParamValue(params, key);
    if TruthyStr(got) then got.value else fallback
  }

  // ---------------------------------------------------------------- filtering

  /** The status filter: applies only when the parameter is present and non-empty. */
  predicate MatchesStatus(t: Todo, status: Option<string>)
    ensures !TruthyStr(status) ==> MatchesStatus(t, status)
    ensures TruthyStr(status) ==> (MatchesStatus(t, status) <==> t.status == status.value)
  {
    !TruthyStr(status) || t.status == status.value
  }

  /** The search filter: lower-cased title, or else lower-cased description, contains the term. */
  predicate MatchesSearch(t: Todo, search: Option<string>)
    ensures !TruthyStr(search) ==> MatchesSearch(t, search)
    ensures TruthyStr(search) && t.description.None? ==>
              (MatchesSearch(t, search) <==> Includes(Lower(t.title), Lower(search.value)))
  {
    !TruthyStr(search)
    || Includes(Lower(t.title), Lower(search.value))
    || (t.description.Some? && Includes(Lower(t.description.value), Lower(search.value)))
  }

  /** Both filters; with neither parameter set, every todo passes. */
  predicate Matches(t: Todo, status: Option<string>, search: Option<string>)
    ensures !TruthyStr(status) && !TruthyStr(search) ==> Matches(t, status, search)
    ensures Matches(t, status, search) ==> MatchesStatus(t, status) && MatchesSearch(t, search)
  {
    MatchesStatus(t, status) && MatchesSearch(t, search)
  }

  /**
   * The search ignores case: a todo whose title or description contains the term verbatim
   * is found, and so is every todo found for a differently cased spelling of the term.
   */
  lemma SearchIgnoresCase(t: Todo, q: string, q': string)
    requires q != "" && Lower(q) == Lower(q')
    ensures Includes(t.title, q) ==> MatchesSearch(t, Some(q))
    ensures t.description.Some? && Includes(t.description.value, q) ==> MatchesSearch(t, Some(q))
    ensures MatchesSearch(t, Some(q)) <==> MatchesSearch(t, Some(q'))
  {
    assert |q'| == |q|;
    if Includes(t.title, q) {
      IncludesLower(t.title, q);
    }
    if t.description.Some? && Includes(t.description.value, q) {
      IncludesLower(t.description.value, q);
    }
  }

  /** The two `filter` calls: exactly the matching todos, each as often as in the store. */
  function Filtered(s: seq<Todo>, status: Option<string>, search: Option<string>): (r: seq<Todo>)
    ensures forall t :: multiset(r)[t] == if Matches(t, status, search) then multiset(s)[t] else 0
  {
    if s == [] then []
    else
      assert s == [s[0]] + s[1..];
      (if Matches(s[0], status, search) then [s[0]] else []) + Filtered(s[1..], status, search)
  }

  // ---------------------------------------------------------------- sorting

  /** `priorityOrder[priority] || 0`. */
  function PriorityRank(priority: Option<string>): (r: int)
    ensures 0 <= r <= 3
    ensures r == 3 <==> priority == Some("high")
    ensures r == 2 <==> priority == Some("medium")
    ensures r == 1 <==> priority == Some("low")
  {
    if priority == Some("high") then 3
    else if priority == Some("medium") then 2
    else if priority == Some("low") then 1
    else 0
  }

  /**
   * The value the comparator compares for `sortBy`: a timestamp for createdAt and dueDate
   * (a missing or empty due date counts as 0), the priority rank, or else the order.
   * `timeOf` stands for `new Date(text).getTime()`.
   */
  function SortKey(t: Todo, sortBy: string, timeOf: string -> int): (k: int)
    ensures sortBy == "createdAt" ==> k == timeOf(t.createdAt)
    ensures sortBy == "dueDate" && TruthyStr(t.dueDate) ==> k == timeOf(t.dueDate.value)
    ensures sortBy == "dueDate" && !TruthyStr(t.dueDate) ==> k == 0
    ensures sortBy == "priority" ==> k == PriorityRank(t.priority)
    ensures sortBy != "createdAt" && sortBy != "dueDate" && sortBy != "priority" ==> k == t.order
  {
    if sortBy == "createdAt" then timeOf(t.createdAt)
    else if sortBy == "dueDate" then (if TruthyStr(t.dueDate) then timeOf(t.dueDate.value) else 0)
    else if sortBy == "priority" then PriorityRank(t.priority)
    else t.order
  }

  /**
   * The position of a todo in the requested direction: its sort key for "asc", the key
   * negated for anything else (descending is the default).
   */
  function Rank(t: Todo, sortBy: string, sortOrder: string, timeOf: string -> int): (r: int)
    ensures sortOrder == "asc" ==> r == SortKey(t, sortBy, timeOf)
    ensures sortOrder != "asc" ==> r == -SortKey(t, sortBy, timeOf)
  {
    if sortOrder == "asc" then SortKey(t, sortBy, timeOf) else -SortKey(t, sortBy, timeOf)
  }

  /**
   * The comparator passed to `sort`: `a - b` for "asc", `b - a` otherwise. It puts `a`
   * first or keeps the two in place exactly when `a` ranks no higher than `b`.
   */
  function Comparator(a: Todo, b: Todo, sortBy: string, sortOrder: string, timeOf: string -> int): (c: int)
    ensures c == Rank(a, sortBy, sortOrder, timeOf) - Rank(b, sortBy, sortOrder, timeOf)
    ensures c <= 0 <==> Rank(a, sortBy, sortOrder, timeOf) <= Rank(b, sortBy, sortOrder, timeOf)
  {
    var ka := SortKey(a, sortBy, timeOf);
    var kb := SortKey(b, sortBy, timeOf);
    if sortOrder == "asc" then ka - kb else kb - ka
  }

  predicate SortedBy(s: seq<Todo>, rank: Todo -> int) {
    forall i, j :: 0 <= i < j < |s| ==> rank(s[i]) <= rank(s[j])
  }

  /** Put `t` before the first element of a sorted list whose rank is not below its own. */
  function Insert(t: Todo, s: seq<Todo>, rank: Todo -> int): (r: seq<Todo>)
    requires SortedBy(s, rank)
    ensures multiset(r) == multiset(s) + multiset{t}
    ensures SortedBy(r, rank)
  {
    if s == [] then [t]
    else if rank(t) <= rank(s[0]) then [t] + s
    else
      var rest := Insert(t, s[1..], rank);
      assert s == [s[0]] + s[1..];
      RanksAboveHead(s, t, rest, rank);
      [s[0]] + rest
  }

  /** What is inserted after the head of a sorted list ranks no lower than that head. */
  lemma RanksAboveHead(s: seq<Todo>, t: Todo, rest: seq<Todo>, rank: Todo -> int)
    requires SortedBy(s, rank) && s != [] && rank(s[0]) <= rank(t)
    requires multiset(rest) == multiset(s[1..]) + multiset{t}
    ensures forall i :: 0 <= i < |rest| ==> rank(s[0]) <= rank(rest[i])
  {
    forall i | 0 <= i < |rest|
      ensures rank(s[0]) <= rank(rest[i])
    {
      assert rest[i] in multiset(rest);
      if rest[i] != t {
        assert rest[i] in multiset(s[1..]);
        var k :| 0 <= k < |s[1..]| && s[1..][k] == rest[i];
        assert s[k + 1] == rest[i];
      }
    }
  }

  /** The stable sort `Array.prototype.sort` performs: a sorted permutation. */
  function SortByRank(s: seq<Todo>, rank: Todo -> int): (r: seq<Todo>)
    ensures multiset(r) == multiset(s)
    ensures SortedBy(r, rank)
  {
    if s == [] then []
    else
      assert s == [s[0]] + s[1..];
      Insert(s[0], SortByRank(s[1..], rank), rank)
  }

  /** The filtered and sorted todos, before pagination. */
  function Listing(store: seq<Todo>, status: Option<string>, search: Option<string>, sortBy: string,
                   sortOrder: string, timeOf: string -> int): (r: seq<Todo>)
    ensures forall t :: multiset(r)[t] == if Matches(t, status, search) then multiset(store)[t] else 0
    ensures forall i, j :: 0 <= i < j < |r| ==>
              Rank(r[i], sortBy, sortOrder, timeOf) <= Rank(r[j], sortBy, sortOrder, timeOf)
    ensures forall i, j :: 0 <= i < j < |r| ==> Comparator(r[i], r[j], sortBy, sortOrder, timeOf) <= 0
  {
    var rank := (t: Todo) => Rank(t, sortBy, sortOrder, timeOf);
    var r := SortByRank(Filtered(store, status, search), rank);
    assert forall i :: 0 <= i < |r| ==> rank(r[i]) == Rank(r[i], sortBy, sortOrder, timeOf);
    r
  }

  /**
   * Sorting by priority, descending as the filter bar offers it: the weights never rise
   * along the list, so every "high" todo comes before every todo that is not "high".
   */
  lemma HighPriorityFirst(store: seq<Todo>, status: Option<string>, search: Option<string>,
                          timeOf: string -> int)
    ensures var r := Listing(store, status, search, "priority", "desc", timeOf);
            forall i, j :: 0 <= i < j < |r| ==> PriorityRank(r[i].priority) >= PriorityRank(r[j].priority)
    ensures var r := Listing(store, status, search, "priority", "desc", timeOf);
            forall i, j ::
              (0 <= i < |r| && 0 <= j < |r| && r[i].priority == Some("high") && r[j].priority != Some("high"))
              ==> i < j
  {
    var r := Listing(store, status, search, "priority", "desc", timeOf);
    forall i, j | 0 <= i < j < |r|
      ensures PriorityRank(r[i].priority) >= PriorityRank(r[j].priority)
    {
      assert Rank(r[i], "priority", "desc", timeOf) <= Rank(r[j], "priority", "desc", timeOf);
    }
  }

  // ---------------------------------------------------------------- pagination

  /**
   * How `Array.prototype.slice` reads an index into a list of length `n`: NaN is 0, a
   * negative index counts from the end, and the result is clamped to `0..n`.
   */
  function SliceIndex(x: Option<int>, n: nat): (i: nat)
    ensures i <= n
    ensures x.None? ==> i == 0
    ensures x.Some? && 0 <= x.value ==> i == if x.value <= n then x.value else n
    ensures x.Some? && x.value < 0 ==> i == if n + x.value < 0 then 0 else n + x.value
  {
    if x.None? then 0
    else if x.value < 0 then (if n + x.value < 0 then 0 else n + x.value)
    else if x.value <= n then x.value
    else n
  }

  /** `s.slice(start, end)`. */
  function JsSlice(s: seq<Todo>, start: Option<int>, end: Option<int>): (r: seq<Todo>)
    ensures |r| <= |s| && forall t :: t in r ==> t in s
    ensures SliceIndex(start, |s|) <= SliceIndex(end, |s|) ==>
              r == s[SliceIndex(start, |s|)..SliceIndex(end, |s|)]
  {
    var from := SliceIndex(start, |s|);
    var to := SliceIndex(end, |s|);
    if from < to then s[from..to] else []
  }

  /**
   * When the start index lies past the end index, `slice` returns nothing: page 0 and a
   * negative limit both reach this case.
   */
  lemma SliceEmptyWhenStartPastEnd(s: seq<Todo>, start: Option<int>, end: Option<int>)
    requires SliceIndex(start, |s|) > SliceIndex(end, |s|)
    ensures JsSlice(s, start, end) == []
  {
  }

  /**
   * `Math.ceil(total / limit)`; NaN and Infinity (limit 0 or unparsable) become `None`, and
   * the `-0` of an empty list over a negative limit is written as 0. Otherwise the result
   * is the ceiling `c` of `total / limit`: `c - 1 < total / limit <= c`, which reads as
   * below once multiplied by a positive limit (see `NegativeLimitPages` for a negative one).
   */
  function TotalPages(total: nat, limit: Option<int>): (r: Option<int>)
    ensures r.None? <==> limit.None? || limit.value == 0
    ensures limit.Some? && limit.value != 0 && total == 0 ==> r == Some(0)
    ensures limit.Some? && limit.value > 0 ==>
              (r.value - 1) * limit.value < total <= r.value * limit.value
    ensures limit.Some? && limit.value < 0 ==> r.value <= 0
  {
    if limit.None? || limit.value == 0 then None
    else if limit.value > 0 then Some((total + limit.value - 1) / limit.value)
    else Some(-(total / -limit.value))
  }

  /**
   * With a negative limit the page count is still the ceiling `c` of `total / limit`;
   * multiplying `c - 1 < total / limit <= c` by the negative limit turns the inequalities.
   * On 25 todos with a limit of -10 it is -2.
   */
  lemma NegativeLimitPages(total: nat, l: int)
    requires l < 0
    ensures var c := TotalPages(total, Some(l)).value;
            c * l <= total < (c - 1) * l
  {
    var m := -l;
    var q := total / m;
    assert total == q * m + total % m;
    assert TotalPages(total, Some(l)).value == -q;
    assert (-q) * l == q * m;
    assert (-q - 1) * l == q * m + m;
  }

  /** The pagination step: slice out page `page` of `limit` items and report the counts. */
  function Paginate(listed: seq<Todo>, page: Option<int>, limit: Option<int>): (r: TodoPage)
    ensures r.total == |listed| && r.page == page && r.limit == limit
    ensures r.totalPages == TotalPages(|listed|, limit)
  {
    var start := if page.Some? && limit.Some? then Some((page.value - 1) * limit.value) else None;
    var end := if start.Some? then Some(start.value + limit.value) else None;
    TodoPage(JsSlice(listed, start, end), |listed|, page, limit, TotalPages(|listed|, limit))
  }

  /**
   * `GET /todos?...`: the response for the query parameters `params` on the store `store`.
   * It is the requested page of the filtered and sorted listing; `total` counts every todo
   * that passes the filters, `page` and `limit` are the parsed parameters (1 and 10 when
   * absent), and every todo returned is a todo of the store that passes the filters.
   */
  function Respond(store: seq<Todo>, params: seq<Param>, timeOf: string -> int): (r: TodoPage)
    ensures r == Paginate(Listing(store, ParamValue(params, "status"), ParamValue(params, "search"),
                                  ParamOr(params, "sortBy", "createdAt"), ParamOr(params, "sortOrder", "desc"),
                                  timeOf),
                          ParseInt(ParamOr(params, "page", "1")), ParseInt(ParamOr(params, "limit", "10")))
    ensures r.total == |Filtered(store, ParamValue(params, "status"), ParamValue(params, "search"))|
    ensures r.page == ParseInt(ParamOr(params, "page", "1"))
    ensures r.limit == ParseInt(ParamOr(params, "limit", "10"))
    ensures r.totalPages == TotalPages(r.total, r.limit)
    ensures forall t :: t in r.todos ==>
              t in store && Matches(t, ParamValue(params, "status"), ParamValue(params, "search"))
  {
    var status := ParamValue(params, "status");
    var search := ParamValue(params, "search");
    var sortBy := ParamOr(params, "sortBy", "createdAt");
    var sortOrder := ParamOr(params, "sortOrder", "desc");
    var page := ParseInt(ParamOr(params, "page", "1"));
    var limit := ParseInt(ParamOr(params, "limit", "10"));
    ListingCount(store, status, search, sortBy, sortOrder, timeOf);
    PageMatches(store, status, search, sortBy, sortOrder, timeOf, page, limit);
    Paginate(Listing(store, status, search, sortBy, sortOrder, timeOf), page, limit)
  }

  /** The listing holds as many todos as pass the filters. */
  lemma ListingCount(store: seq<Todo>, status: Option<string>, search: Option<string>, sortBy: string,
                     sortOrder: string, timeOf: string -> int)
    ensures |Listing(store, status, search, sortBy, sortOrder, timeOf)| == |Filtered(store, status, search)|
  {
    var listed := Listing(store, status, search, sortBy, sortOrder, timeOf);
    var filtered := Filtered(store, status, search);
    assert multiset(listed) == multiset(filtered) by {
      forall t ensures multiset(listed)[t] == multiset(filtered)[t] {
      }
    }
    assert |multiset(listed)| == |multiset(filtered)|;
  }

  /** Every todo on any page of the listing is a todo of the store that passes the filters. */
  lemma PageMatches(store: seq<Todo>, status: Option<string>, search: Option<string>, sortBy: string,
                    sortOrder: string, timeOf: string -> int, page: Option<int>, limit: Option<int>)
    ensures var listed := Listing(store, status, search, sortBy, sortOrder, timeOf);
            forall t :: t in Paginate(listed, page, limit).todos ==> t in store && Matches(t, status, search)
  {
    var listed := Listing(store, status, search, sortBy, sortOrder, timeOf);
    forall t | t in Paginate(listed, page, limit).todos
      ensures t in store && Matches(t, status, search)
    {
      PageMember(listed, page, limit, t);
      ListedTodoMatches(store, status, search, sortBy, sortOrder, timeOf, t);
    }
  }

  function Min(a: int, b: int): int {
    if a <= b then a else b
  }

  /**
   * Page `p` of `l` items: the items from position `(p-1)*l` on, as many as remain but at
   * most `l`.
   */
  lemma PaginatePage(listed: seq<Todo>, p: int, l: int)
    requires p >= 1 && l >= 1
    ensures var r := Paginate(listed, Some(p), Some(l)).todos;
            |r| == (if (p - 1) * l >= |listed| then 0 else Min(l, |listed| - (p - 1) * l))
            && forall i :: 0 <= i < |r| ==> r[i] == listed[(p - 1) * l + i]
  {
    var start := (p - 1) * l;
    assert start >= 0;
  }

  /** Page 0 is empty: it ends where the list begins. */
  lemma PageZeroIsEmpty(listed: seq<Todo>, l: int)
    requires l >= 1
    ensures Paginate(listed, Some(0), Some(l)).todos == []
  {
  }

  /**
   * A page below 0 counts from the end of the list, as `slice` does with negative indices:
   * on 25 todos with a limit of 10, page -1 holds the todos at positions 5 to 14.
   */
  lemma NegativePageCountsFromEnd(listed: seq<Todo>, p: int, l: int)
    requires p <= -1 && l >= 1 && |listed| + p * l >= 0
    ensures var from := if |listed| + (p - 1) * l < 0 then 0 else |listed| + (p - 1) * l;
            Paginate(listed, Some(p), Some(l)).todos == listed[from..|listed| + p * l]
  {
    assert (p - 1) * l + l == p * l;
    assert p * l <= -l < 0;
  }

  /** A todo on a page is a todo of the listing. */
  lemma PageMember(listed: seq<Todo>, page: Option<int>, limit: Option<int>, t: Todo)
    requires t in Paginate(listed, page, limit).todos
    ensures t in listed
  {
  }

  /** A listed todo is a todo of the store that passes both filters. */
  lemma ListedTodoMatches(store: seq<Todo>, status: Option<string>, search: Option<string>, sortBy: string,
                          sortOrder: string, timeOf: string -> int, t: Todo)
    requires t in Listing(store, status, search, sortBy, sortOrder, timeOf)
    ensures t in store && Matches(t, status, search)
  {
    assert t in multiset(Listing(store, status, search, sortBy, sortOrder, timeOf));
  }

  /**
   * With a page `p >= 1` and a limit `l >= 1`, the response is page `p` of the filtered and
   * sorted listing (see `PaginatePage`), and every todo in it is a todo of the store that
   * passes both filters.
   */
  lemma RespondPage(store: seq<Todo>, params: seq<Param>, timeOf: string -> int, p: int, l: int)
    requires ParseInt(ParamOr(params, "page", "1")) == Some(p) && p >= 1
    requires ParseInt(ParamOr(params, "limit", "10")) == Some(l) && l >= 1
    ensures var status := ParamValue(params, "status");
            var search := ParamValue(params, "search");
            var listed := Listing(store, status, search, ParamOr(params, "sortBy", "createdAt"),
                                  ParamOr(params, "sortOrder", "desc"), timeOf);
            var r := Respond(store, params, timeOf);
            r == Paginate(listed, Some(p), Some(l))
            && forall t :: t in r.todos ==> t in store && Matches(t, status, search)
  {
    var status := ParamValue(params, "status");
    var search := ParamValue(params, "search");
    var sortBy := ParamOr(params, "sortBy", "createdAt");
    var sortOrder := ParamOr(params, "sortOrder", "desc");
    var listed := Listing(store, status, search, sortBy, sortOrder, timeOf);
    var r := Respond(store, params, timeOf);
    assert r == Paginate(listed, Some(p), Some(l));
    forall t | t in r.todos
      ensures t in store && Matches(t, status, search)
    {
      PageMember(listed, Some(p), Some(l), t);
      ListedTodoMatches(store, status, search, sortBy, sortOrder, timeOf, t);
    }
  }

  /**
   * Every position `k` of a list of `n` todos lies on page `k / l + 1`, which is between 1
   * and `totalPages`.
   */
  lemma PageOfPosition(n: nat, l: int, k: nat)
    requires l >= 1 && k < n
    ensures var page := k / l + 1;
            1 <= page <= TotalPages(n, Some(l)).value
            && (page - 1) * l <= k < Min(page * l, n)
  {
    var page := k / l + 1;
    assert (page - 1) * l <= k < page * l;
  }

  /** The handler parses back the number the client wrote, or the fallback when none was sent. */
  lemma ReadBackNumber(sent: Option<int>, got: Option<string>, fallback: int)
    requires got == if TruthyNum(sent) then Some(IntToString(sent.value)) else None
    ensures ParseInt(if TruthyStr(got) then got.value else IntToString(fallback))
            == Some(if TruthyNum(sent) then sent.value else fallback)
  {
    ParseIntOfIntToString(fallback);
    if TruthyNum(sent) {
      ParseIntOfIntToString(sent.value);
    }
  }

  /**
   * What the handler reads back from the query string `getTodos` builds: the client's page
   * and limit when truthy, else the defaults 1 and 10; the client's sort key and direction
   * when non-empty, else "createdAt" and "desc".
   */
  lemma ReadBackOfClientQuery(p: QueryParams)
    ensures ParseInt(ParamOr(QueryPairs(p), "page", "1")) == Some(if TruthyNum(p.page) then p.page.value else 1)
    ensures ParseInt(ParamOr(QueryPairs(p), "limit", "10")) == Some(if TruthyNum(p.limit) then p.limit.value else 10)
    ensures ParamOr(QueryPairs(p), "sortBy", "createdAt") == if TruthyStr(p.sortBy) then p.sortBy.value else "createdAt"
    ensures ParamOr(QueryPairs(p), "sortOrder", "desc") == if TruthyStr(p.sortOrder) then p.sortOrder.value else "desc"
  {
    QueryPairsValues(p);
    assert IntToString(1) == "1";
    assert IntToString(10) == "10";
    ReadBackNumber(p.page, ParamValue(QueryPairs(p), "page"), 1);
    ReadBackNumber(p.limit, ParamValue(QueryPairs(p), "limit"), 10);
  }
}
