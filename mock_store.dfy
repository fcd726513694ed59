/**
 * The mock backend's store (src/mocks/handlers.ts) as values: the seed data, and the new
 * state and response each todo and auth handler computes from the old state. The class in
 * module MockServer performs these updates in place; the lemmas here say what they promise.
 */
module MockStore {
  import opened Options
  import opened JsText
  import opened TodosApi

  /** An error response: HTTP status and the `message` of its JSON body. */
  datatype ApiError = ApiError(status: int, message: string)

  datatype Result<T> = Ok(value: T) | Err(error: ApiError)

  const NotFound: ApiError := ApiError(404, "Todo not found")
  const EmailTaken: ApiError := ApiError(400, "User with this email already exists")
  const InvalidCredentials: ApiError := ApiError(401, "Invalid email or password")
  const DeletedMessage: string := "Todo deleted successfully"

  /** The twelve todos the store starts with. */
  const SeedTodos: seq<Todo> := [
      Todo("1", "Learn React", Some("Master React fundamentals"), "in_progress", Some("high"),
           Some(["learning", "react"]), Some("2024-01-15"), 0, "2024-01-01T00:00:00Z", "2024-01-01T00:00:00Z"),
      Todo("2", "Build Todo App", Some("Create a full-stack todo application"), "todo", Some("medium"),
           Some(["project", "todo"]), Some("2024-02-01"), 1, "2024-01-02T00:00:00Z", "2024-01-02T00:00:00Z"),
      Todo("3", "Write Tests", Some("Add comprehensive test coverage"), "done", Some("low"),
           Some(["testing", "quality"]), Some("2024-01-10"), 2, "2024-01-03T00:00:00Z", "2024-01-10T00:00:00Z"),
      Todo("4", "Deploy Application", Some("Deploy the application to production"), "todo", Some("high"),
           Some(["deployment", "production"]), Some("2024-01-20"), 3, "2024-01-05T00:00:00Z", "2024-01-05T00:00:00Z"),
      Todo("5", "Code Review", Some("Review team member's code"), "in_progress", Some("medium"),
           Some(["review", "team"]), Some("2024-01-12"), 4, "2024-01-04T00:00:00Z", "2024-01-04T00:00:00Z"),
      Todo("6", "Update Documentation", Some("Update project documentation"), "done", Some("low"),
           Some(["documentation", "maintenance"]), Some("2024-01-08"), 5, "2024-01-06T00:00:00Z", "2024-01-08T00:00:00Z"),
      Todo("7", "Setup CI/CD Pipeline", Some("Configure continuous integration and deployment"), "todo", Some("high"),
           Some(["devops", "ci-cd"]), Some("2024-01-25"), 6, "2024-01-07T00:00:00Z", "2024-01-07T00:00:00Z"),
      Todo("8", "Performance Optimization", Some("Optimize application performance"), "in_progress", Some("medium"),
           Some(["performance", "optimization"]), Some("2024-01-18"), 7, "2024-01-08T00:00:00Z", "2024-01-08T00:00:00Z"),
      Todo("9", "Security Audit", Some("Conduct security audit of the application"), "todo", Some("high"),
           Some(["security", "audit"]), Some("2024-01-30"), 8, "2024-01-09T00:00:00Z", "2024-01-09T00:00:00Z"),
      Todo("10", "User Feedback Analysis", Some("Analyze user feedback and implement improvements"), "done", Some("low"),
           Some(["feedback", "analysis"]), Some("2024-01-14"), 9, "2024-01-10T00:00:00Z", "2024-01-14T00:00:00Z"),
      Todo("11", "Database Migration", Some("Migrate database to new version"), "todo", Some("medium"),
           Some(["database", "migration"]), Some("2024-02-05"), 10, "2024-01-11T00:00:00Z", "2024-01-11T00:00:00Z"),
      Todo("12", "API Documentation", Some("Create comprehensive API documentation"), "in_progress", Some("low"),
           Some(["api", "documentation"]), Some("2024-01-22"), 11, "2024-01-12T00:00:00Z", "2024-01-12T00:00:00Z")
  ]

  /** The seed store is dense: its orders are exactly its positions. */
  lemma SeedDense()
    ensures Dense(SeedTodos)
  {
    assert forall j :: 0 <= j < |SeedTodos| ==> SeedTodos[j].order == j;
  }

  // ---------------------------------------------------------------- lookups

  /** `todos.findIndex(todo => todo.id === id)`, with `None` for `-1`. */
  function FindIndex(s: seq<Todo>, id: string): (r: Option<nat>)
    ensures r.Some? ==> r.value < |s| && s[r.value].id == id
    ensures r.Some? ==> forall j :: 0 <= j < r.value ==> s[j].id != id
    ensures r.None? <==> forall j :: 0 <= j < |s| ==> s[j].id != id
  {
    if s == [] then None
    else if s[0].id == id then Some(0)
    else match FindIndex(s[1..], id)
      case None => None
      case Some(i) => Some(i + 1)
  }

  /** Every order is a position `0..n-1` and no two todos share one. */
  predicate Dense(s: seq<Todo>) {
    (forall j :: 0 <= j < |s| ==> 0 <= s[j].order < |s|)
    && (forall j, k :: 0 <= j < k < |s| ==> s[j].order != s[k].order)
  }

  predicate UniqueIds(s: seq<Todo>) {
    forall j, k :: 0 <= j < k < |s| ==> s[j].id != s[k].id
  }

  // ---------------------------------------------------------------- PATCH

  /**
   * The body of the PATCH `forEach` for one todo, when the todo `id` moves from `oldOrder`
   * to `newOrder`: the moved todo takes the new order, the ones in between shift by one.
   */
  function Renumbered(t: Todo, id: string, oldOrder: int, newOrder: int): (r: Todo)
    ensures r == t.(order := r.order)
    ensures t.id == id ==> r.order == newOrder
    ensures t.id != id ==> t.order - 1 <= r.order <= t.order + 1
    ensures t.id != id && ((t.order < oldOrder && t.order < newOrder) || (t.order > oldOrder && t.order > newOrder))
            ==> r == t
  {
    if t.id == id then t.(order := newOrder)
    else if newOrder < oldOrder then
      if t.order >= newOrder && t.order < oldOrder then t.(order := t.order + 1) else t
    else if t.order > oldOrder && t.order <= newOrder then t.(order := t.order - 1) else t
  }

  /** The whole `forEach`: every todo renumbered, in place. */
  function Reordered(s: seq<Todo>, id: string, oldOrder: int, newOrder: int): (r: seq<Todo>)
    ensures |r| == |s|
    ensures forall j :: 0 <= j < |s| ==> r[j] == s[j].(order := r[j].order)
  {
    seq(|s|, j requires 0 <= j < |s| => Renumbered(s[j], id, oldOrder, newOrder))
  }

  /** `{ ...todo, ...body, updatedAt }`: fields present in the body override, the rest stay. */
  function ApplyPatch(t: Todo, p: TodoPatch, now: string): (r: Todo)
    ensures r.id == t.id && r.createdAt == t.createdAt && r.updatedAt == now
    ensures r.title == (if p.title.Some? then p.title.value else t.title)
    ensures r.description == (if p.description.Some? then p.description else t.description)
    ensures r.status == (if p.status.Some? then p.status.value else t.status)
    ensures r.priority == (if p.priority.Some? then p.priority else t.priority)
    ensures r.tags == (if p.tags.Some? then p.tags else t.tags)
    ensures r.dueDate == (if p.dueDate.Some? then p.dueDate else t.dueDate)
    ensures r.order == (if p.order.Some? then p.order.value else t.order)
  {
    Todo(t.id, p.title.GetOr(t.title),
         if p.description.Some? then p.description else t.description,
         p.status.GetOr(t.status),
         if p.priority.Some? then p.priority else t.priority,
         if p.tags.Some? then p.tags else t.tags,
         if p.dueDate.Some? then p.dueDate else t.dueDate,
         p.order.GetOr(t.order), t.createdAt, now)
  }

  /**
   * `PATCH /todos/:id`: 404 when no todo has the id; otherwise renumber when the body
   * carries a different order, then merge the body into the first todo with the id.
   * Yields the new store and the updated todo.
   */
  function Patched(s: seq<Todo>, id: string, p: TodoPatch, now: string): (r: Result<(seq<Todo>, Todo)>)
    ensures r.Err? <==> FindIndex(s, id).None?
    ensures r.Err? ==> r.error == NotFound
    ensures r.Ok? ==> |r.value.0| == |s| && r.value.0[FindIndex(s, id).value] == r.value.1
  {
    match FindIndex(s, id)
    case None => Err(NotFound)
    case Some(i) =>
      var oldOrder := s[i].order;
      var s1 := if p.order.Some? && p.order.value != oldOrder then Reordered(s, id, oldOrder, p.order.value) else s;
      var t := ApplyPatch(s1[i], p, now);
      Ok((s1[i := t], t))
  }

  /** The order a todo ends with when the todo at `oldOrder` moves to `newOrder`. */
  function MovedOrder(x: int, oldOrder: int, newOrder: int): int {
    if x == oldOrder then newOrder
    else if newOrder < oldOrder && newOrder <= x < oldOrder then x + 1
    else if oldOrder < newOrder && oldOrder < x <= newOrder then x - 1
    else x
  }

  /** Moving one position within `0..n-1` permutes `0..n-1`. */
  lemma MovedOrderPermutes(oldOrder: int, newOrder: int, n: int, x: int, y: int)
    requires 0 <= oldOrder < n && 0 <= newOrder < n
    requires 0 <= x < n && 0 <= y < n && x != y
    ensures 0 <= MovedOrder(x, oldOrder, newOrder) < n
    ensures MovedOrder(x, oldOrder, newOrder) != MovedOrder(y, oldOrder, newOrder)
  {
  }

  lemma MovedOrderInRange(oldOrder: int, newOrder: int, n: int, x: int)
    requires 0 <= oldOrder < n && 0 <= newOrder < n && 0 <= x < n
    ensures 0 <= MovedOrder(x, oldOrder, newOrder) < n
  {
  }

  /** Moving back undoes a move. */
  lemma MovedOrderInverse(oldOrder: int, newOrder: int, x: int)
    ensures MovedOrder(MovedOrder(x, oldOrder, newOrder), newOrder, oldOrder) == x
  {
  }

  /**
   * A PATCH that changes the order of the todo at index `i`: every todo with the id takes the
   * new order; moving up, exactly the others in `[new, old)` go one down the list (order + 1);
   * moving down, exactly those in `(old, new]` go one up (order - 1); every other order stays.
   */
  lemma PatchRenumbers(s: seq<Todo>, id: string, p: TodoPatch, now: string, i: nat)
    requires FindIndex(s, id) == Some(i)
    requires p.order.Some? && p.order.value != s[i].order
    ensures Patched(s, id, p, now).Ok?
    ensures var s' := Patched(s, id, p, now).value.0;
            var o := s[i].order;
            var n := p.order.value;
            forall j :: 0 <= j < |s| ==>
              s'[j].order ==
                if s[j].id == id then n
                else if n < o && n <= s[j].order < o then s[j].order + 1
                else if o < n && o < s[j].order <= n then s[j].order - 1
                else s[j].order
  {
    forall j | 0 <= j < |s| {
      PatchedOrder(s, id, p, now, i, j);
    }
  }

  /** The order one todo ends with after a PATCH: the `forEach` body's, or unchanged. */
  lemma PatchedOrder(s: seq<Todo>, id: string, p: TodoPatch, now: string, i: nat, j: nat)
    requires FindIndex(s, id) == Some(i) && j < |s|
    ensures Patched(s, id, p, now).Ok?
    ensures var o := s[i].order;
            Patched(s, id, p, now).value.0[j].order
            == if p.order.Some? && p.order.value != o then Renumbered(s[j], id, o, p.order.value).order
               else s[j].order
  {
    var o := s[i].order;
    if p.order.Some? && p.order.value != o {
      assert Reordered(s, id, o, p.order.value)[j] == Renumbered(s[j], id, o, p.order.value);
    }
  }

  /** A PATCH without an order, or with the order the todo already has, renumbers nothing. */
  lemma PatchSameOrder(s: seq<Todo>, id: string, p: TodoPatch, now: string, i: nat)
    requires FindIndex(s, id) == Some(i)
    requires p.order.None? || p.order.value == s[i].order
    ensures Patched(s, id, p, now).Ok?
    ensures var s' := Patched(s, id, p, now).value.0;
            s'[i].order == s[i].order && forall j :: 0 <= j < |s| && j != i ==> s'[j] == s[j]
  {
  }

  /**
   * A PATCH changes positions and lengths nowhere: the target gets the merged body and a new
   * `updatedAt`; every other todo keeps everything but possibly its order.
   */
  lemma PatchFrame(s: seq<Todo>, id: string, p: TodoPatch, now: string, i: nat)
    requires FindIndex(s, id) == Some(i)
    ensures Patched(s, id, p, now).Ok?
    ensures var (s', t) := Patched(s, id, p, now).value;
            |s'| == |s| && s'[i] == t && t.id == id && t.updatedAt == now
            && t == ApplyPatch(s[i], p, now)
            && forall j :: 0 <= j < |s| && j != i ==> s'[j] == s[j].(order := s'[j].order)
  {
  }

  /** Under distinct ids and orders, every todo's new order is `MovedOrder` of its old one. */
  lemma PatchMovesOrders(s: seq<Todo>, id: string, p: TodoPatch, now: string)
    requires Dense(s) && UniqueIds(s) && FindIndex(s, id).Some?
    ensures Patched(s, id, p, now).Ok?
    ensures var i := FindIndex(s, id).value;
            var s' := Patched(s, id, p, now).value.0;
            forall j :: 0 <= j < |s| ==> s'[j].order == MovedOrder(s[j].order, s[i].order, p.order.GetOr(s[i].order))
  {
    var i := FindIndex(s, id).value;
    var s' := Patched(s, id, p, now).value.0;
    forall j | 0 <= j < |s|
      ensures s'[j].order == MovedOrder(s[j].order, s[i].order, p.order.GetOr(s[i].order))
    {
      PatchedOrder(s, id, p, now, i, j);
      if j != i {
        assert s[j].id != id && s[j].order != s[i].order;
      }
      if p.order.Some? && p.order.value != s[i].order {
        RenumberedMoves(s[j], id, s[i].order, p.order.value);
      }
    }
  }

  /** For a todo that has the moved id exactly when it has the old order, the `forEach` body moves its order. */
  lemma RenumberedMoves(t: Todo, id: string, oldOrder: int, newOrder: int)
    requires t.id == id <==> t.order == oldOrder
    ensures Renumbered(t, id, oldOrder, newOrder).order == MovedOrder(t.order, oldOrder, newOrder)
  {
  }

  /** Orders obtained from a permutation of `0..n-1` by one move within range are one too. */
  lemma DenseAfterMove(s: seq<Todo>, s': seq<Todo>, oldOrder: int, newOrder: int)
    requires Dense(s) && |s'| == |s| && 0 <= oldOrder < |s| && 0 <= newOrder < |s|
    requires forall j :: 0 <= j < |s| ==> s'[j].order == MovedOrder(s[j].order, oldOrder, newOrder)
    ensures Dense(s')
  {
    forall j, k | 0 <= j < k < |s|
      ensures s'[j].order != s'[k].order
    {
      MovedOrderPermutes(oldOrder, newOrder, |s|, s[j].order, s[k].order);
    }
    forall j | 0 <= j < |s|
      ensures 0 <= s'[j].order < |s|
    {
      MovedOrderInRange(oldOrder, newOrder, |s|, s[j].order);
    }
  }

  /**
   * With distinct ids and orders forming `0..n-1`, a PATCH to an order in `0..n-1` keeps the
   * orders a permutation of `0..n-1` (the handler does not check the range itself).
   */
  lemma PatchKeepsDense(s: seq<Todo>, id: string, p: TodoPatch, now: string)
    requires Dense(s) && UniqueIds(s) && FindIndex(s, id).Some?
    requires p.order.Some? ==> 0 <= p.order.value < |s|
    ensures Patched(s, id, p, now).Ok? && Dense(Patched(s, id, p, now).value.0)
  {
    var i := FindIndex(s, id).value;
    PatchMovesOrders(s, id, p, now);
    DenseAfterMove(s, Patched(s, id, p, now).value.0, s[i].order, p.order.GetOr(s[i].order));
  }

  /** `findIndex` looks only at ids. */
  lemma {:induction false} FindIndexOfSameIds(s: seq<Todo>, s': seq<Todo>, id: string)
    requires |s'| == |s| && forall j :: 0 <= j < |s| ==> s'[j].id == s[j].id
    ensures FindIndex(s', id) == FindIndex(s, id)
    decreases |s|
  {
    if s != [] && s[0].id != id {
      FindIndexOfSameIds(s[1..], s'[1..], id);
    }
  }

  /**
   * With distinct ids and orders forming `0..n-1`, moving a todo and then moving it back to
   * its old order gives every todo its original order again.
   */
  lemma PatchOrderRoundTrip(s: seq<Todo>, id: string, p: TodoPatch, q: TodoPatch, now: string, later: string)
    requires Dense(s) && UniqueIds(s) && FindIndex(s, id).Some?
    requires p.order.Some? && 0 <= p.order.value < |s|
    requires q.order == Some(s[FindIndex(s, id).value].order)
    ensures Patched(s, id, p, now).Ok?
    ensures var s1 := Patched(s, id, p, now).value.0;
            Patched(s1, id, q, later).Ok?
            && var s2 := Patched(s1, id, q, later).value.0;
               |s2| == |s| && forall j :: 0 <= j < |s| ==> s2[j].order == s[j].order
  {
    var i := FindIndex(s, id).value;
    var o := s[i].order;
    var n := p.order.value;
    PatchFrame(s, id, p, now, i);
    PatchKeepsDense(s, id, p, now);
    PatchMovesOrders(s, id, p, now);
    var s1 := Patched(s, id, p, now).value.0;
    FindIndexOfSameIds(s, s1, id);
    assert UniqueIds(s1) by {
      forall j, k | 0 <= j < k < |s1| ensures s1[j].id != s1[k].id {
        assert s1[j].id == s[j].id && s1[k].id == s[k].id;
      }
    }
    PatchMovesOrders(s1, id, q, later);
    var s2 := Patched(s1, id, q, later).value.0;
    forall j | 0 <= j < |s|
      ensures s2[j].order == s[j].order
    {
      MovedOrderInverse(o, n, s[j].order);
    }
  }

  // ---------------------------------------------------------------- POST

  /**
   * The todo `POST /todos` appends: id `length + 1` in decimal, the body's fields, status
   * defaulting to "todo" when missing or empty, order `length`, and the two timestamps,
   * each read from its own clock call (`created`, then `updated`).
   */
  function NewTodo(s: seq<Todo>, d: CreateTodoRequest, created: string, updated: string): (t: Todo)
    ensures t.order == |s| && ParseInt(t.id) == Some(|s| + 1)
    ensures t.status == (if TruthyStr(d.status) then d.status.value else "todo")
    ensures t.title == d.title && t.description == d.description && t.priority == d.priority
    ensures t.tags == d.tags && t.dueDate == d.dueDate
    ensures t.createdAt == created && t.updatedAt == updated
  {
    ParseIntOfIntToString(|s| + 1);
    Todo(NatToString(|s| + 1), d.title, d.description,
         if TruthyStr(d.status) then d.status.value else "todo",
         d.priority, d.tags, d.dueDate, |s|, created, updated)
  }

  /** Appending at order `length` keeps the orders a permutation of `0..n-1`. */
  lemma PostKeepsDense(s: seq<Todo>, d: CreateTodoRequest, created: string, updated: string)
    requires Dense(s)
    ensures Dense(s + [NewTodo(s, d, created, updated)])
  {
    var s' := s + [NewTodo(s, d, created, updated)];
    forall j | 0 <= j < |s|
      ensures s'[j] == s[j]
    {
    }
  }

  /** The largest number any id of the store parses to, or 0. */
  function MaxId(s: seq<Todo>): (m: nat)
    ensures forall j :: 0 <= j < |s| && ParseInt(s[j].id).Some? ==> ParseInt(s[j].id).value <= m
  {
    if s == [] then 0
    else
      var rest := MaxId(s[1..]);
      var v := ParseInt(s[0].id);
      assert forall j :: 1 <= j < |s| ==> s[j] == s[1..][j - 1];
      if v.Some? && v.value > rest then v.value else rest
  }

  /**
   * The POST with the id taken one past the largest id in the store instead of one past the
   * length: the new id is used by no todo of the store, and every other field is the one
   * `NewTodo` gives.
   */
  function FreshNewTodo(s: seq<Todo>, d: CreateTodoRequest, created: string, updated: string): (t: Todo)
    ensures forall j :: 0 <= j < |s| ==> s[j].id != t.id
    ensures t == NewTodo(s, d, created, updated).(id := t.id)
  {
    var n := MaxId(s) + 1;
    ParseIntOfIntToString(n);
    assert forall j :: 0 <= j < |s| && s[j].id == IntToString(n) ==> ParseInt(s[j].id) == Some(n);
    NewTodo(s, d, created, updated).(id := IntToString(n))
  }

  /** With fresh ids a POST keeps the ids distinct, and the orders dense. */
  lemma FreshPostKeepsStore(s: seq<Todo>, d: CreateTodoRequest, created: string, updated: string)
    requires UniqueIds(s)
    ensures UniqueIds(s + [FreshNewTodo(s, d, created, updated)])
    ensures Dense(s) ==> Dense(s + [FreshNewTodo(s, d, created, updated)])
  {
    var t := FreshNewTodo(s, d, created, updated);
    var s' := s + [t];
    forall j, k | 0 <= j < k < |s'|
      ensures s'[j].id != s'[k].id
    {
      if k == |s| {
        assert s'[j] == s[j] && s'[k] == t;
      } else {
        assert s'[j] == s[j] && s'[k] == s[k];
      }
    }
    if Dense(s) {
      PostKeepsDense(s, d, created, updated);
      assert s' == (s + [NewTodo(s, d, created, updated)])[|s| := t];
    }
  }

  /** A PATCH changes no id, so distinct ids stay distinct. */
  lemma PatchKeepsUniqueIds(s: seq<Todo>, id: string, p: TodoPatch, now: string)
    requires UniqueIds(s) && FindIndex(s, id).Some?
    ensures Patched(s, id, p, now).Ok? && UniqueIds(Patched(s, id, p, now).value.0)
  {
    var i := FindIndex(s, id).value;
    PatchFrame(s, id, p, now, i);
    var s' := Patched(s, id, p, now).value.0;
    assert forall j :: 0 <= j < |s| ==> s'[j].id == s[j].id;
  }

  /**
   * The store invariant the PATCH renumbering relies on, with fresh ids: distinct ids and
   * dense orders hold after a POST and after a PATCH to an order in range, so a PATCH after
   * any such history keeps the orders a permutation of `0..n-1`.
   */
  lemma FreshIdsKeepPatchDense(s: seq<Todo>, d: CreateTodoRequest, created: string, updated: string,
                               id: string, p: TodoPatch, now: string)
    requires Dense(s) && UniqueIds(s)
    requires p.order.Some? ==> 0 <= p.order.value <= |s|
    ensures var s1 := s + [FreshNewTodo(s, d, created, updated)];
            Dense(s1) && UniqueIds(s1)
            && (FindIndex(s1, id).Some? ==>
                  Patched(s1, id, p, now).Ok? && Dense(Patched(s1, id, p, now).value.0)
                  && UniqueIds(Patched(s1, id, p, now).value.0))
  {
    FreshPostKeepsStore(s, d, created, updated);
    var s1 := s + [FreshNewTodo(s, d, created, updated)];
    if FindIndex(s1, id).Some? {
      PatchKeepsDense(s1, id, p, now);
      PatchKeepsUniqueIds(s1, id, p, now);
    }
  }

  // ---------------------------------------------------------------- DELETE

  /** `DELETE /todos/:id`: 404 when no todo has the id, else splice out the first one. */
  function Deleted(s: seq<Todo>, id: string): (r: Result<seq<Todo>>)
    ensures r.Err? <==> FindIndex(s, id).None?
    ensures r.Err? ==> r.error == NotFound
    ensures r.Ok? ==> |r.value| == |s| - 1
  {
    match FindIndex(s, id)
    case None => Err(NotFound)
    case Some(i) => Ok(s[..i] + s[i + 1..])
  }

  /**
   * A DELETE removes exactly the todo found: the others keep their relative positions and
   * all their fields, their orders included (no renumbering).
   */
  lemma DeleteRemovesOne(s: seq<Todo>, id: string, i: nat)
    requires FindIndex(s, id) == Some(i)
    ensures Deleted(s, id).Ok?
    ensures var r := Deleted(s, id).value;
            multiset(r) + multiset{s[i]} == multiset(s)
            && forall j :: 0 <= j < |r| ==> r[j] == if j < i then s[j] else s[j + 1]
  {
    assert Deleted(s, id) == Ok(s[..i] + s[i + 1..]);
    SpliceOut(s, i);
  }

  /** `splice(i, 1)` on any list: one element fewer, the rest shifted down past `i`. */
  lemma SpliceOut<T>(s: seq<T>, i: nat)
    requires i < |s|
    ensures var r := s[..i] + s[i + 1..];
            multiset(r) + multiset{s[i]} == multiset(s)
            && forall j :: 0 <= j < |r| ==> r[j] == if j < i then s[j] else s[j + 1]
  {
    assert s == s[..i] + [s[i]] + s[i + 1..];
  }

  /** Deleting any todo but the one with the highest order leaves the orders with a gap. */
  lemma DeleteLeavesGap(s: seq<Todo>, id: string, i: nat, k: nat)
    requires FindIndex(s, id) == Some(i)
    requires k < |s| && k != i && s[k].order == |s| - 1
    ensures Deleted(s, id).Ok? && !Dense(Deleted(s, id).value)
  {
    DeleteRemovesOne(s, id, i);
    var r := Deleted(s, id).value;
    var k' := if k < i then k else k - 1;
    assert r[k'] == s[k];
  }

  /** Ids are not reused safely: after deleting "1" of ["1", "2"], POST issues id "2" again. */
  lemma DeleteThenPostRepeatsId(a: Todo, b: Todo, d: CreateTodoRequest, created: string, updated: string)
    requires a.id == "1" && b.id == "2"
    ensures Deleted([a, b], "1") == Ok([b])
    ensures NewTodo([b], d, created, updated).id == b.id
  {
    assert FindIndex([a, b], "1") == Some(0);
    assert [a, b][..0] + [a, b][1..] == [b];
  }

  /** A PATCH body that carries only an order. */
  function MoveTo(order: int): (p: TodoPatch)
    ensures p.order == Some(order)
    ensures p.title.None? && p.description.None? && p.status.None? && p.priority.None?
    ensures p.tags.None? && p.dueDate.None?
  {
    TodoPatch(None, None, None, None, None, None, Some(order))
  }

  /**
   * A repeated id breaks the PATCH renumbering. From todos "1" and "2" at orders 0 and 1:
   * move "1" to order 1, delete "1", and POST; the store is dense again but holds two todos
   * with id "2", and moving "2" to order 1 gives both of them order 1.
   */
  lemma RepeatedIdBreaksPatch(a: Todo, b: Todo, d: CreateTodoRequest, created: string, updated: string,
                              now: string, later: string)
    requires a.id == "1" && b.id == "2" && a.order == 0 && b.order == 1
    ensures Dense([a, b]) && UniqueIds([a, b])
    ensures Patched([a, b], "1", MoveTo(1), now).Ok?
    ensures var s1 := Patched([a, b], "1", MoveTo(1), now).value.0;
            Deleted(s1, "1").Ok?
            && var s2 := Deleted(s1, "1").value;
               var s3 := s2 + [NewTodo(s2, d, created, updated)];
               Dense(s3) && !UniqueIds(s3)
               && Patched(s3, "2", MoveTo(1), later).Ok?
               && !Dense(Patched(s3, "2", MoveTo(1), later).value.0)
  {
    PairFacts(a, b);
    MoveDeletePost(a, b, d, created, updated, now);
    var s1 := Patched([a, b], "1", MoveTo(1), now).value.0;
    var s2 := Deleted(s1, "1").value;
    var n := NewTodo(s2, d, created, updated);
    var s3 := s2 + [n];
    assert s3 == [b.(order := 0), n];
    SharedIdBreaksPatch(b.(order := 0), n, later);
    assert Dense(s3) && !UniqueIds(s3);
    assert Patched(s3, "2", MoveTo(1), later).Ok?;
    assert !Dense(Patched(s3, "2", MoveTo(1), later).value.0);
  }

  /**
   * Two todos with the same id at orders 0 and 1 are dense, and moving that id to order 1
   * gives both of them order 1.
   */
  lemma SharedIdBreaksPatch(x: Todo, y: Todo, now: string)
    requires x.id == y.id && x.order == 0 && y.order == 1
    ensures Dense([x, y]) && !UniqueIds([x, y])
    ensures Patched([x, y], x.id, MoveTo(1), now).Ok?
    ensures !Dense(Patched([x, y], x.id, MoveTo(1), now).value.0)
  {
    PairFacts(x, y);
    MoveFirstOfTwo(x, y, x.id, now);
    var r := Patched([x, y], x.id, MoveTo(1), now).value.0;
    assert r[0].order == 1 && r[1].order == 1;
  }

  /** Two todos at orders 0 and 1 are dense; their ids are distinct exactly when they differ. */
  lemma PairFacts(x: Todo, y: Todo)
    requires x.order == 0 && y.order == 1
    ensures Dense([x, y])
    ensures UniqueIds([x, y]) <==> x.id != y.id
  {
    var s := [x, y];
    assert s[0] == x && s[1] == y;
  }

  /** The first three steps of `RepeatedIdBreaksPatch`: move "1" down, delete it, POST. */
  lemma MoveDeletePost(a: Todo, b: Todo, d: CreateTodoRequest, created: string, updated: string, now: string)
    requires a.id == "1" && b.id == "2" && a.order == 0 && b.order == 1
    ensures Patched([a, b], "1", MoveTo(1), now).Ok?
    ensures var s1 := Patched([a, b], "1", MoveTo(1), now).value.0;
            Deleted(s1, "1").Ok?
            && var s2 := Deleted(s1, "1").value;
               s2 == [b.(order := 0)]
               && NewTodo(s2, d, created, updated).id == "2" && NewTodo(s2, d, created, updated).order == 1
  {
    MoveFirstOfTwo(a, b, "1", now);
    var s1 := Patched([a, b], "1", MoveTo(1), now).value.0;
    assert FindIndex(s1, "1") == Some(0);
    var s2 := Deleted(s1, "1").value;
    assert s2 == s1[..0] + s1[1..] == [s1[1]];
    assert NatToString(|s2| + 1) == "2";
  }

  /**
   * Two todos at orders 0 and 1, the first with id `id`: moving `id` to order 1 swaps the
   * orders of all todos with that id and of the one that lies in between.
   */
  lemma MoveFirstOfTwo(a: Todo, b: Todo, id: string, now: string)
    requires a.id == id && a.order == 0 && b.order == 1
    ensures Patched([a, b], id, MoveTo(1), now).Ok?
    ensures var s' := Patched([a, b], id, MoveTo(1), now).value.0;
            |s'| == 2 && s'[0].id == a.id && s'[0].order == 1
            && s'[1] == b.(order := if b.id == id then 1 else 0)
  {
    var s := [a, b];
    assert FindIndex(s, id) == Some(0);
    var s1 := Reordered(s, id, 0, 1);
    assert s1[0] == Renumbered(a, id, 0, 1) && s1[1] == Renumbered(b, id, 0, 1);
  }

  // ---------------------------------------------------------------- users

  datatype User = User(id: string, name: string, email: string, password: string)

  /** A user as the auth endpoints return it: without the password. */
  datatype PublicUser = PublicUser(id: string, name: string, email: string)

  datatype AuthResponse = AuthResponse(user: PublicUser, token: string)

  function Public(u: User): PublicUser {
    PublicUser(u.id, u.name, u.email)
  }

  /** `"mock-jwt-token-" + Date.now()`, the clock reading given as `stamp`. */
  function Token(stamp: nat): string {
    "mock-jwt-token-" + NatToString(stamp)
  }

  /** `users.find(u => u.email === email)`, as the index of the first match. */
  function FindUser(users: seq<User>, email: string): (r: Option<nat>)
    ensures r.Some? ==> r.value < |users| && users[r.value].email == email
    ensures r.Some? ==> forall j :: 0 <= j < r.value ==> users[j].email != email
    ensures r.None? <==> forall j :: 0 <= j < |users| ==> users[j].email != email
  {
    if users == [] then None
    else if users[0].email == email then Some(0)
    else match FindUser(users[1..], email)
      case None => None
      case Some(i) => Some(i + 1)
  }

  predicate UniqueEmails(users: seq<User>) {
    forall j, k :: 0 <= j < k < |users| ==> users[j].email != users[k].email
  }

  /**
   * `POST /auth/login`: 401 "Invalid email or password" for an unknown email or a wrong
   * password (of the first user with the email); otherwise the user without password and a token.
   */
  function Login(users: seq<User>, email: string, password: string, stamp: nat): (r: Result<AuthResponse>)
    ensures r.Err? ==> r.error == InvalidCredentials
    ensures r.Ok? ==> r.value.token == Token(stamp)
    ensures r.Ok? ==> exists i :: 0 <= i < |users| && users[i].email == email && users[i].password == password
                                && r.value.user == Public(users[i])
  {
    match FindUser(users, email)
    case None => Err(InvalidCredentials)
    case Some(i) =>
      if users[i].password != password then Err(InvalidCredentials)
      else Ok(AuthResponse(Public(users[i]), Token(stamp)))
  }

  /** With distinct emails, login succeeds exactly for a stored email and password pair. */
  lemma LoginSucceedsIff(users: seq<User>, email: string, password: string, stamp: nat)
    requires UniqueEmails(users)
    ensures Login(users, email, password, stamp).Ok? <==>
            exists i :: 0 <= i < |users| && users[i].email == email && users[i].password == password
  {
    if i :| 0 <= i < |users| && users[i].email == email && users[i].password == password {
      assert FindUser(users, email) == Some(i);
    }
  }

  /**
   * `POST /auth/register`: 400 when a user already has the email; otherwise append a user with
   * id "user-" + clock and answer with it (without password) and a token. Yields the new
   * user list and the response.
   */
  function Registered(users: seq<User>, name: string, email: string, password: string,
                      idStamp: nat, tokenStamp: nat): (r: Result<(seq<User>, AuthResponse)>)
    ensures r.Err? <==> exists j :: 0 <= j < |users| && users[j].email == email
    ensures r.Err? ==> r.error == EmailTaken
    ensures r.Ok? ==> |r.value.0| == |users| + 1 && r.value.0[..|users|] == users
    ensures r.Ok? ==> var u := r.value.0[|users|];
                      u.name == name && u.email == email && u.password == password
                      && r.value.1 == AuthResponse(Public(u), Token(tokenStamp))
  {
    if FindUser(users, email).Some? then Err(EmailTaken)
    else
      var u := User("user-" + NatToString(idStamp), name, email, password);
      Ok((users + [u], AuthResponse(Public(u), Token(tokenStamp))))
  }

  /** Registering keeps the emails distinct. */
  lemma RegisterKeepsUniqueEmails(users: seq<User>, name: string, email: string, password: string,
                                  idStamp: nat, tokenStamp: nat)
    requires UniqueEmails(users)
    requires Registered(users, name, email, password, idStamp, tokenStamp).Ok?
    ensures UniqueEmails(Registered(users, name, email, password, idStamp, tokenStamp).value.0)
  {
    var users' := Registered(users, name, email, password, idStamp, tokenStamp).value.0;
    forall j, k | 0 <= j < k < |users'|
      ensures users'[j].email != users'[k].email
    {
      if k < |users| {
        assert users'[j] == users[j] && users'[k] == users[k];
      } else {
        assert users'[j] == users[j];
      }
    }
  }

  /** A user who just registered can log in with the same email and password, as the same user. */
  lemma RegisterThenLogin(users: seq<User>, name: string, email: string, password: string,
                          idStamp: nat, tokenStamp: nat, loginStamp: nat)
    requires Registered(users, name, email, password, idStamp, tokenStamp).Ok?
    ensures var (users', response) := Registered(users, name, email, password, idStamp, tokenStamp).value;
            Login(users', email, password, loginStamp) == Ok(AuthResponse(response.user, Token(loginStamp)))
  {
    var users' := Registered(users, name, email, password, idStamp, tokenStamp).value.0;
    assert FindUser(users', email) == Some(|users|) by {
      forall j | 0 <= j < |users| ensures users'[j].email != email {
        assert users'[j] == users[j];
      }
    }
  }
}
