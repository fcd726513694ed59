/**
 * The client's todo endpoints (src/store/api/todosApi.ts): the shapes exchanged with the
 * backend, the query-string builder of `getTodos`, and the request each mutation sends
 * together with the cache tags it invalidates.
 */
module TodosApi {
  import opened Options
  import opened JsText

  /** A todo as the backend returns it; timestamps are ISO-8601 strings. */
  datatype Todo = Todo(
    id: string,
    title: string,
    description: Option<string>,
    status: string,
    priority: Option<string>,
    tags: Option<seq<string>>,
    dueDate: Option<string>,
    order: int,
    createdAt: string,
    updatedAt: string)

  /** What the todo form submits to `createTodo` (the form also sends a status). */
  datatype CreateTodoRequest = CreateTodoRequest(
    title: string,
    description: Option<string>,
    status: Option<string>,
    priority: Option<string>,
    tags: Option<seq<string>>,
    dueDate: Option<string>)

  /** The argument of `updateTodo`: the id of the todo and the fields to change. */
  datatype UpdateTodoRequest = UpdateTodoRequest(
    id: string,
    title: Option<string>,
    description: Option<string>,
    status: Option<string>,
    priority: Option<string>,
    tags: Option<seq<string>>,
    dueDate: Option<string>,
    order: Option<int>)

  /** The JSON body of a PATCH: an update request without its id. */
  datatype TodoPatch = TodoPatch(
    title: Option<string>,
    description: Option<string>,
    status: Option<string>,
    priority: Option<string>,
    tags: Option<seq<string>>,
    dueDate: Option<string>,
    order: Option<int>)

  /** The arguments of `getTodos`; every field may be left out. */
  datatype QueryParams = QueryParams(
    page: Option<int>,
    limit: Option<int>,
    status: Option<string>,
    search: Option<string>,
    sortBy: Option<string>,
    sortOrder: Option<string>)

  datatype Body = NoBody | CreateBody(draft: CreateTodoRequest) | PatchBody(patch: TodoPatch)

  /** A request relative to the API base URL. */
  datatype HttpRequest = HttpRequest(verb: string, url: string, body: Body)

  /** A cache tag: the whole list (`"Todo"`) or one item (`{ type: "Todo", id }`). */
  datatype Tag = TodoList | TodoItem(id: string)

  /** A mutation's request together with the tags whose cached queries it invalidates. */
  datatype Mutation = Mutation(request: HttpRequest, invalidates: seq<Tag>)

  /** One query-string parameter, as `URLSearchParams` holds it. */
  type Param = (string, string)

  /** The order in which `getTodos` appends its parameters. */
  const ParamKeys: seq<string> := ["page", "limit", "status", "search", "sortBy", "sortOrder"]

  /** Position of `key` in `keys`, or `|keys|` when it does not occur. */
  function IndexOf(keys: seq<string>, key: string): (r: nat)
    ensures r <= |keys|
    ensures r < |keys| ==> keys[r] == key
    ensures r == |keys| ==> key !in keys
  {
    if keys == [] then 0
    else if keys[0] == key then 0
    else 1 + IndexOf(keys[1..], key)
  }

  /** Position of a key in `ParamKeys`, 6 for any other key. */
  function KeyRank(key: string): (r: nat)
    ensures r <= 6
  {
    IndexOf(ParamKeys, key)
  }

  /** JavaScript truthiness of an optional number: present and not 0. */
  predicate TruthyNum(n: Option<int>) {
    n.Some? && n.value != 0
  }

  /** JavaScript truthiness of an optional string: present and not empty. */
  predicate TruthyStr(s: Option<string>) {
    s.Some? && s.value != ""
  }

  /** `URLSearchParams.get(key)`: the value of the first parameter named `key`. */
  function ParamValue(params: seq<Param>, key: string): (v: Option<string>)
    ensures v.None? <==> forall i :: 0 <= i < |params| ==> params[i].0 != key
  {
    if params == [] then None
    else if params[0].0 == key then Some(params[0].1)
    else ParamValue(params[1..], key)
  }

  /** The keys of `params` strictly increase along `ParamKeys`. */
  predicate KeysOrdered(params: seq<Param>) {
    forall i, j :: 0 <= i < j < |params| ==> KeyRank(params[i].0) < KeyRank(params[j].0)
  }

  /** Every key of `params` has its rank in `[lo, hi)`. */
  predicate RanksWithin(params: seq<Param>, lo: nat, hi: nat) {
    forall i :: 0 <= i < |params| ==> lo <= KeyRank(params[i].0) < hi
  }

  /** The parameter `if (value) searchParams.append(key, ...)` contributes: one pair or none. */
  function Emitted(truthy: bool, key: string, text: string): (r: seq<Param>)
    ensures |r| <= 1 && (r != [] <==> truthy)
    ensures r != [] ==> r[0] == (key, text)
  {
    if truthy then [(key, text)] else []
  }

  function PageText(p: QueryParams): string {
    if p.page.Some? then IntToString(p.page.value) else ""
  }

  function LimitText(p: QueryParams): string {
    if p.limit.Some? then IntToString(p.limit.value) else ""
  }

  /** The parameters `getTodos` emits for `p`, one `if (p.field) append` after another. */
  function QueryPairs(p: QueryParams): seq<Param> {
    Emitted(TruthyNum(p.page), "page", PageText(p))
    + Emitted(TruthyNum(p.limit), "limit", LimitText(p))
    + Emitted(TruthyStr(p.status), "status", p.status.GetOr(""))
    + Emitted(TruthyStr(p.search), "search", p.search.GetOr(""))
    + Emitted(TruthyStr(p.sortBy), "sortBy", p.sortBy.GetOr(""))
    + Emitted(TruthyStr(p.sortOrder), "sortOrder", p.sortOrder.GetOr(""))
  }

  /** `URLSearchParams.toString()` without percent-encoding: `k=v` joined by `&`. */
  function QueryString(params: seq<Param>): (s: string)
    ensures s == "" <==> params == []
    ensures params != [] ==> params[0].0 + "=" + params[0].1 <= s
  {
    if params == [] then ""
    else if |params| == 1 then params[0].0 + "=" + params[0].1
    else params[0].0 + "=" + params[0].1 + "&" + QueryString(params[1..])
  }

  /**
   * The `query` callback of `getTodos`: append each truthy parameter in the fixed order,
   * then issue a GET of `/todos?` followed by the serialised parameters.
   */
  method GetTodos(p: QueryParams) returns (params: seq<Param>, request: HttpRequest)
    ensures params == QueryPairs(p)
    ensures request == HttpRequest("GET", "/todos?" + QueryString(params), NoBody)
  {
    params := [];
    if TruthyNum(p.page) {
      params := params + [("page", IntToString(p.page.value))];
    }
    assert params == Emitted(TruthyNum(p.page), "page", PageText(p));
    if TruthyNum(p.limit) {
      params := params + [("limit", IntToString(p.limit.value))];
    }
    assert params == Emitted(TruthyNum(p.page), "page", PageText(p))
                     + Emitted(TruthyNum(p.limit), "limit", LimitText(p));
    ghost var upToLimit := params;
    if TruthyStr(p.status) {
      params := params + [("status", p.status.value)];
    }
    assert params == upToLimit + Emitted(TruthyStr(p.status), "status", p.status.GetOr(""));
    ghost var upToStatus := params;
    if TruthyStr(p.search) {
      params := params + [("search", p.search.value)];
    }
    assert params == upToStatus + Emitted(TruthyStr(p.search), "search", p.search.GetOr(""));
    ghost var upToSearch := params;
    if TruthyStr(p.sortBy) {
      params := params + [("sortBy", p.sortBy.value)];
    }
    assert params == upToSearch + Emitted(TruthyStr(p.sortBy), "sortBy", p.sortBy.GetOr(""));
    ghost var upToSortBy := params;
    if TruthyStr(p.sortOrder) {
      params := params + [("sortOrder", p.sortOrder.value)];
    }
    assert params == upToSortBy + Emitted(TruthyStr(p.sortOrder), "sortOrder", p.sortOrder.GetOr(""));
    request := HttpRequest("GET", "/todos?" + QueryString(params), NoBody);
  }

  lemma OrderedAppend(a: seq<Param>, b: seq<Param>, lo: nat, mid: nat, hi: nat)
    requires KeysOrdered(a) && RanksWithin(a, lo, mid)
    requires KeysOrdered(b) && RanksWithin(b, mid, hi)
    requires lo <= mid <= hi
    ensures KeysOrdered(a + b) && RanksWithin(a + b, lo, hi)
  {
    forall i | |a| <= i < |a + b|
      ensures (a + b)[i] == b[i - |a|]
    {
    }
    forall i, j | 0 <= i < j < |a + b|
      ensures KeyRank((a + b)[i].0) < KeyRank((a + b)[j].0)
    {
      if j < |a| {
      } else if i < |a| {
        assert KeyRank((a + b)[i].0) < mid <= KeyRank(b[j - |a|].0);
      } else {
        assert (a + b)[i] == b[i - |a|] && (a + b)[j] == b[j - |a|];
      }
    }
  }

  /** Each `if (...) append` contributes at most the one key it names. */
  lemma EmittedRanks(truthy: bool, key: string, text: string, rank: nat)
    requires KeyRank(key) == rank
    ensures KeysOrdered(Emitted(truthy, key, text))
    ensures RanksWithin(Emitted(truthy, key, text), rank, rank + 1)
  {
  }

  /** Six pieces, each holding only its own rank, concatenate to an ordered sequence. */
  lemma OrderedChain(e0: seq<Param>, e1: seq<Param>, e2: seq<Param>, e3: seq<Param>, e4: seq<Param>, e5: seq<Param>)
    requires KeysOrdered(e0) && RanksWithin(e0, 0, 1)
    requires KeysOrdered(e1) && RanksWithin(e1, 1, 2)
    requires KeysOrdered(e2) && RanksWithin(e2, 2, 3)
    requires KeysOrdered(e3) && RanksWithin(e3, 3, 4)
    requires KeysOrdered(e4) && RanksWithin(e4, 4, 5)
    requires KeysOrdered(e5) && RanksWithin(e5, 5, 6)
    ensures KeysOrdered(e0 + e1 + e2 + e3 + e4 + e5) && RanksWithin(e0 + e1 + e2 + e3 + e4 + e5, 0, 6)
  {
    OrderedAppend(e0, e1, 0, 1, 2);
    OrderedAppend(e0 + e1, e2, 0, 2, 3);
    OrderedAppend(e0 + e1 + e2, e3, 0, 3, 4);
    OrderedAppend(e0 + e1 + e2 + e3, e4, 0, 4, 5);
    OrderedAppend(e0 + e1 + e2 + e3 + e4, e5, 0, 5, 6);
  }

  lemma KeyRanks()
    ensures KeyRank("page") == 0 && KeyRank("limit") == 1 && KeyRank("status") == 2
    ensures KeyRank("search") == 3 && KeyRank("sortBy") == 4 && KeyRank("sortOrder") == 5
  {
  }

  /** Six `if (...) append` steps for keys of ranks 0 to 5, whatever their conditions, emit keys in order. */
  lemma EmittedInOrder(k0: string, k1: string, k2: string, k3: string, k4: string, k5: string,
                       t0: bool, v0: string, t1: bool, v1: string, t2: bool, v2: string,
                       t3: bool, v3: string, t4: bool, v4: string, t5: bool, v5: string)
    requires KeyRank(k0) == 0 && KeyRank(k1) == 1 && KeyRank(k2) == 2
    requires KeyRank(k3) == 3 && KeyRank(k4) == 4 && KeyRank(k5) == 5
    ensures var q := Emitted(t0, k0, v0) + Emitted(t1, k1, v1) + Emitted(t2, k2, v2)
                     + Emitted(t3, k3, v3) + Emitted(t4, k4, v4) + Emitted(t5, k5, v5);
            KeysOrdered(q) && RanksWithin(q, 0, 6)
  {
    var e0, e1, e2 := Emitted(t0, k0, v0), Emitted(t1, k1, v1), Emitted(t2, k2, v2);
    var e3, e4, e5 := Emitted(t3, k3, v3), Emitted(t4, k4, v4), Emitted(t5, k5, v5);
    EmittedRanks(t0, k0, v0, 0);
    EmittedRanks(t1, k1, v1, 1);
    EmittedRanks(t2, k2, v2, 2);
    EmittedRanks(t3, k3, v3, 3);
    EmittedRanks(t4, k4, v4, 4);
    EmittedRanks(t5, k5, v5, 5);
    OrderedChain(e0, e1, e2, e3, e4, e5);
  }

  /**
   * The emitted parameters follow the fixed key order, so each key appears at most once
   * and no other key appears.
   */
  lemma QueryPairsOrdered(p: QueryParams)
    ensures |QueryPairs(p)| <= 6
    ensures KeysOrdered(QueryPairs(p)) && RanksWithin(QueryPairs(p), 0, 6)
  {
    KeyRanks();
    EmittedInOrder("page", "limit", "status", "search", "sortBy", "sortOrder",
                   TruthyNum(p.page), PageText(p), TruthyNum(p.limit), LimitText(p),
                   TruthyStr(p.status), p.status.GetOr(""), TruthyStr(p.search), p.search.GetOr(""),
                   TruthyStr(p.sortBy), p.sortBy.GetOr(""), TruthyStr(p.sortOrder), p.sortOrder.GetOr(""));
  }

  /** Every value in the list is non-empty text. */
  predicate ValuesNonEmpty(q: seq<Param>) {
    forall i :: 0 <= i < |q| ==> q[i].1 != ""
  }

  lemma ValuesNonEmptyAppend(a: seq<Param>, b: seq<Param>)
    requires ValuesNonEmpty(a) && ValuesNonEmpty(b)
    ensures ValuesNonEmpty(a + b)
  {
    forall i | 0 <= i < |a + b|
      ensures (a + b)[i].1 != ""
    {
      if i >= |a| {
        assert (a + b)[i] == b[i - |a|];
      }
    }
  }

  /** No parameter is sent with an empty value: every appended value is truthy text. */
  lemma QueryPairsNonEmptyValues(p: QueryParams)
    ensures ValuesNonEmpty(QueryPairs(p))
  {
    var e0 := Emitted(TruthyNum(p.page), "page", PageText(p));
    var e1 := Emitted(TruthyNum(p.limit), "limit", LimitText(p));
    var e2 := Emitted(TruthyStr(p.status), "status", p.status.GetOr(""));
    var e3 := Emitted(TruthyStr(p.search), "search", p.search.GetOr(""));
    var e4 := Emitted(TruthyStr(p.sortBy), "sortBy", p.sortBy.GetOr(""));
    var e5 := Emitted(TruthyStr(p.sortOrder), "sortOrder", p.sortOrder.GetOr(""));
    ValuesNonEmptyAppend(e0, e1);
    ValuesNonEmptyAppend(e0 + e1, e2);
    ValuesNonEmptyAppend(e0 + e1 + e2, e3);
    ValuesNonEmptyAppend(e0 + e1 + e2 + e3, e4);
    ValuesNonEmptyAppend(e0 + e1 + e2 + e3 + e4, e5);
  }

  /** `get` on a concatenation looks in the second part only when the first lacks the key. */
  lemma {:induction false} ParamValueAppend(a: seq<Param>, b: seq<Param>, key: string)
    ensures ParamValue(a + b, key) == if ParamValue(a, key).Some? then ParamValue(a, key) else ParamValue(b, key)
    decreases |a|
  {
    if a == [] {
      assert a + b == b;
    } else {
      assert (a + b)[0] == a[0];
      assert (a + b)[1..] == a[1..] + b;
      if a[0].0 != key {
        ParamValueAppend(a[1..], b, key);
      }
    }
  }

  /** `get` on one `if (...) append` step. */
  lemma ParamValueOfEmitted(truthy: bool, k: string, text: string, key: string)
    ensures ParamValue(Emitted(truthy, k, text), key) == if truthy && k == key then Some(text) else None
  {
  }

  /** `get` on six concatenated pieces: the answer of the first piece that holds the key. */
  lemma ParamValueOfSix(e0: seq<Param>, e1: seq<Param>, e2: seq<Param>, e3: seq<Param>, e4: seq<Param>,
                        e5: seq<Param>, key: string)
    ensures ParamValue(e0 + e1 + e2 + e3 + e4 + e5, key) ==
      if ParamValue(e0, key).Some? then ParamValue(e0, key)
      else if ParamValue(e1, key).Some? then ParamValue(e1, key)
      else if ParamValue(e2, key).Some? then ParamValue(e2, key)
      else if ParamValue(e3, key).Some? then ParamValue(e3, key)
      else if ParamValue(e4, key).Some? then ParamValue(e4, key)
      else ParamValue(e5, key)
  {
    ParamValueAppend(e0 + e1 + e2 + e3 + e4, e5, key);
    ParamValueAppend(e0 + e1 + e2 + e3, e4, key);
    ParamValueAppend(e0 + e1 + e2, e3, key);
    ParamValueAppend(e0 + e1, e2, key);
    ParamValueAppend(e0, e1, key);
  }

  /** `get(key)` on the emitted parameters, for a key with rank `rank`: the text of that key's step, if it emitted. */
  lemma ParamValueOfQueryPairs(p: QueryParams, key: string, rank: nat)
    requires rank < 6 && key == ParamKeys[rank]
    ensures ParamValue(QueryPairs(p), key) ==
      if rank == 0 then (if TruthyNum(p.page) then Some(PageText(p)) else None)
      else if rank == 1 then (if TruthyNum(p.limit) then Some(LimitText(p)) else None)
      else if rank == 2 then (if TruthyStr(p.status) then p.status else None)
      else if rank == 3 then (if TruthyStr(p.search) then p.search else None)
      else if rank == 4 then (if TruthyStr(p.sortBy) then p.sortBy else None)
      else (if TruthyStr(p.sortOrder) then p.sortOrder else None)
  {
    ParamValueOfEmitted(TruthyNum(p.page), "page", PageText(p), key);
    ParamValueOfEmitted(TruthyNum(p.limit), "limit", LimitText(p), key);
    ParamValueOfEmitted(TruthyStr(p.status), "status", p.status.GetOr(""), key);
    ParamValueOfEmitted(TruthyStr(p.search), "search", p.search.GetOr(""), key);
    ParamValueOfEmitted(TruthyStr(p.sortBy), "sortBy", p.sortBy.GetOr(""), key);
    ParamValueOfEmitted(TruthyStr(p.sortOrder), "sortOrder", p.sortOrder.GetOr(""), key);
    ParamValueOfSix(Emitted(TruthyNum(p.page), "page", PageText(p)), Emitted(TruthyNum(p.limit), "limit", LimitText(p)), Emitted(TruthyStr(p.status), "status", p.status.GetOr("")), Emitted(TruthyStr(p.search), "search", p.search.GetOr("")), Emitted(TruthyStr(p.sortBy), "sortBy", p.sortBy.GetOr("")), Emitted(TruthyStr(p.sortOrder), "sortOrder", p.sortOrder.GetOr("")), key);
  }

  /** A parameter is emitted exactly when its field is truthy, and it carries that field's text. */
  lemma QueryPairsValues(p: QueryParams)
    ensures ParamValue(QueryPairs(p), "page") ==
      if TruthyNum(p.page) then Some(IntToString(p.page.value)) else None
    ensures ParamValue(QueryPairs(p), "limit") ==
      if TruthyNum(p.limit) then Some(IntToString(p.limit.value)) else None
    ensures ParamValue(QueryPairs(p), "status") == if TruthyStr(p.status) then p.status else None
    ensures ParamValue(QueryPairs(p), "search") == if TruthyStr(p.search) then p.search else None
    ensures ParamValue(QueryPairs(p), "sortBy") == if TruthyStr(p.sortBy) then p.sortBy else None
    ensures ParamValue(QueryPairs(p), "sortOrder") ==
      if TruthyStr(p.sortOrder) then p.sortOrder else None
  {
    ParamValueOfQueryPairs(p, "page", 0);
    ParamValueOfQueryPairs(p, "limit", 1);
    ParamValueOfQueryPairs(p, "status", 2);
    ParamValueOfQueryPairs(p, "search", 3);
    ParamValueOfQueryPairs(p, "sortBy", 4);
    ParamValueOfQueryPairs(p, "sortOrder", 5);
  }

  /** With nothing truthy to send, `getTodos` requests exactly `/todos?`. */
  lemma EmptyQueryUrl(p: QueryParams)
    requires !TruthyNum(p.page) && !TruthyNum(p.limit)
    requires !TruthyStr(p.status) && !TruthyStr(p.search)
    requires !TruthyStr(p.sortBy) && !TruthyStr(p.sortOrder)
    ensures "/todos?" + QueryString(QueryPairs(p)) == "/todos?"
  {
  }

  /** `createTodo`: POST the request unchanged to `/todos`; invalidates the list tag. */
  function CreateTodo(r: CreateTodoRequest): (m: Mutation)
    ensures m.request.verb == "POST" && m.request.url == "/todos"
    ensures m.request.body == CreateBody(r)
    ensures m.invalidates == [TodoList]
  {
    Mutation(HttpRequest("POST", "/todos", CreateBody(r)), [TodoList])
  }

  /** The body `updateTodo` sends: `({ id, ...updates }) => updates`. */
  function WithoutId(r: UpdateTodoRequest): TodoPatch {
    TodoPatch(r.title, r.description, r.status, r.priority, r.tags, r.dueDate, r.order)
  }

  /** Re-attaching an id to a PATCH body. */
  function WithId(id: string, p: TodoPatch): UpdateTodoRequest {
    UpdateTodoRequest(id, p.title, p.description, p.status, p.priority, p.tags, p.dueDate, p.order)
  }

  /**
   * `updateTodo`: PATCH `/todos/{id}` whose body is the request minus its id (the id in the
   * path and the body together give back the request); invalidates the item and the list.
   */
  function UpdateTodo(r: UpdateTodoRequest): (m: Mutation)
    ensures m.request.verb == "PATCH" && m.request.url == "/todos/" + r.id
    ensures m.request.body.PatchBody? && WithId(r.id, m.request.body.patch) == r
    ensures TodoItem(r.id) in m.invalidates && TodoList in m.invalidates && |m.invalidates| == 2
  {
    Mutation(HttpRequest("PATCH", "/todos/" + r.id, PatchBody(WithoutId(r))), [TodoItem(r.id), TodoList])
  }

  /** `deleteTodo`: DELETE `/todos/{id}` with no body; invalidates the list tag. */
  function DeleteTodo(id: string): (m: Mutation)
    ensures m.request.verb == "DELETE" && m.request.url == "/todos/" + id
    ensures m.request.body == NoBody
    ensures m.invalidates == [TodoList]
  {
    Mutation(HttpRequest("DELETE", "/todos/" + id, NoBody), [TodoList])
  }

  /** The `:id` segment the backend's `/todos/:id` route extracts from a path. */
  function RouteId(url: string): (id: Option<string>)
    ensures id.Some? ==> "/todos/" + id.value == url && '/' !in id.value
  {
    var prefix := "/todos/";
    if |url| > |prefix| && url[..|prefix|] == prefix && '/' !in url[|prefix|..] then
      assert url == prefix + url[|prefix|..];
      Some(url[|prefix|..])
    else None
  }

  /** The id a mutation puts in its path is the one the backend route reads back. */
  lemma RouteIdOfMutationPath(id: string)
    requires id != "" && '/' !in id
    ensures RouteId(UpdateTodo(UpdateTodoRequest(id, None, None, None, None, None, None, None)).request.url) == Some(id)
    ensures RouteId(DeleteTodo(id).request.url) == Some(id)
  {
    var url := "/todos/" + id;
    assert url[..7] == "/todos/" && url[7..] == id;
  }
}
