/**
 * The todo list page (src/pages/TodosPage.tsx): its filter state, the cached query result it
 * shows, the optimistic drag-and-drop reorder with rollback, the page-size selector, the
 * Previous/Next/number buttons and the "Showing a to b of n" summary.
 */
module TodosPage {
  import opened Options
  import opened JsText
  import opened TodosApi
  import opened MockStore
  import opened MockQuery
  import opened TodoFilters

  /** The filters the page starts with. */
  const InitialFilters: Filters := Filters(1, 10, "", "", "order", "asc")

  /** The arguments `useGetTodosQuery(filters)` passes to `getTodos`. */
  function Query(f: Filters): QueryParams {
    QueryParams(Some(f.page), Some(f.limit), Some(f.status), Some(f.search), Some(f.sortBy), Some(f.sortOrder))
  }

  /** On first render the empty status and search are left out of the query string. */
  lemma InitialQuery()
    ensures QueryPairs(Query(InitialFilters)) == [("page", "1"), ("limit", "10"), ("sortBy", "order"), ("sortOrder", "asc")]
  {
    assert IntToString(1) == "1";
    assert IntToString(10) == "10";
  }

  // ---------------------------------------------------------------- moving an item

  /** `splice(i, 1)`: the list without its element at `i`. */
  function Remove(s: seq<Todo>, i: nat): (r: seq<Todo>)
    requires i < |s|
    ensures |r| == |s| - 1
    ensures forall k :: 0 <= k < |r| ==> r[k] == if k < i then s[k] else s[k + 1]
  {
    s[..i] + s[i + 1..]
  }

  /** Take out the element at `from`, then `splice(to, 0, element)` it back in. */
  function Move(s: seq<Todo>, from: nat, to: nat): (r: seq<Todo>)
    requires from < |s| && to < |s|
    ensures |r| == |s| && r[to] == s[from]
    ensures Remove(r, to) == Remove(s, from)
    ensures forall k :: 0 <= k < |r| ==>
              r[k] == if k < to then Remove(s, from)[k] else if k == to then s[from] else Remove(s, from)[k - 1]
  {
    var rest := Remove(s, from);
    rest[..to] + [s[from]] + rest[to..]
  }

  /** Moving keeps every element: the moved list is a permutation of the original. */
  lemma MovePermutes(s: seq<Todo>, from: nat, to: nat)
    requires from < |s| && to < |s|
    ensures multiset(Move(s, from, to)) == multiset(s)
  {
    var rest := Remove(s, from);
    assert s == s[..from] + [s[from]] + s[from + 1..];
    assert multiset(s) == multiset(rest) + multiset{s[from]};
    var m := Move(s, from, to);
    assert m == rest[..to] + [s[from]] + rest[to..];
    assert rest == rest[..to] + rest[to..];
    assert multiset(m) == multiset(rest[..to]) + multiset{s[from]} + multiset(rest[to..]);
  }

  /** Dropping an item back where it came from restores the list. */
  lemma MoveInverse(s: seq<Todo>, from: nat, to: nat)
    requires from < |s| && to < |s|
    ensures Move(Move(s, from, to), to, from) == s
  {
    var m := Move(s, from, to);
    var back := Move(m, to, from);
    assert Remove(m, to) == Remove(s, from);
    forall k | 0 <= k < |s|
      ensures back[k] == s[k]
    {
    }
  }

  /** The item at position `j` lands at position `MovedOrder(j, from, to)`. */
  lemma MoveFollowsMovedOrder(s: seq<Todo>, from: nat, to: nat)
    requires from < |s| && to < |s|
    ensures forall j :: 0 <= j < |s| ==>
              0 <= MovedOrder(j, from, to) < |s| && Move(s, from, to)[MovedOrder(j, from, to)] == s[j]
  {
    var m := Move(s, from, to);
    var rest := Remove(s, from);
    forall j | 0 <= j < |s|
      ensures 0 <= MovedOrder(j, from, to) < |s| && m[MovedOrder(j, from, to)] == s[j]
    {
      MovedOrderInRange(from, to, |s|, j);
      var k := MovedOrder(j, from, to);
      if j == from {
        assert k == to;
      } else if j < from {
        assert rest[j] == s[j];
        if j < to {
          assert k == j && m[k] == rest[j];
        } else {
          assert k == j + 1 && m[k] == rest[j];
        }
      } else {
        assert rest[j - 1] == s[j];
        if j <= to {
          assert k == j - 1 && m[k] == rest[j - 1];
        } else {
          assert k == j && m[k] == rest[j - 1];
        }
      }
    }
  }

  /** `map((todo, index) => ({ ...todo, order: index }))`. */
  function Renumber(s: seq<Todo>): (r: seq<Todo>)
    ensures |r| == |s|
    ensures forall i :: 0 <= i < |s| ==> r[i].order == i && r[i] == s[i].(order := r[i].order)
  {
    seq(|s|, i requires 0 <= i < |s| => s[i].(order := i))
  }

  /** The request a drag sends: the dragged todo's id and the destination index as its order. */
  function ReorderRequest(dragged: Todo, destination: nat): (r: UpdateTodoRequest)
    ensures r.id == dragged.id && r.order == Some(destination)
    ensures WithoutId(r) == TodoPatch(None, None, None, None, None, None, Some(destination))
  {
    UpdateTodoRequest(dragged.id, None, None, None, None, None, None, Some(destination))
  }

  /** How the PATCH of a drag ends. */
  datatype Outcome = Succeeded | Failed(message: Option<string>)

  const OrderUpdatedToast: string := "Todo order updated!"

  /** `error?.data?.message || "Failed to update todo order"`. */
  function FailureToast(message: Option<string>): (toast: string)
    ensures toast != ""
    ensures TruthyStr(message) ==> toast == message.value
  {
    if TruthyStr(message) then message.value else "Failed to update todo order"
  }

  // ---------------------------------------------------------------- summary

  /** The 1-based position of the first todo on the page, as the summary computes it. */
  function SummaryFirst(f: Filters): (first: int)
    ensures f.page >= 1 && f.limit >= 0 ==> first >= 1
    ensures f.page == 1 ==> first == 1
  {
    (f.page - 1) * f.limit + 1
  }

  /** The 1-based position of the last todo on the page, as the summary computes it. */
  function SummaryLast(f: Filters, total: int): (last: int)
    ensures last <= total && last <= f.page * f.limit
    ensures last == total || last == f.page * f.limit
  {
    Min(f.page * f.limit, total)
  }

  /** The line above the page buttons: "Showing a to b of n todos". */
  function Summary(f: Filters, total: int): (s: string)
    ensures |s| > 8 && s[..8] == "Showing "
  {
    "Showing " + IntToString(SummaryFirst(f))
    + (" to " + IntToString(SummaryLast(f, total)) + " of " + IntToString(total) + " todos")
  }

  /** After "Showing ", the summary holds the first position, which `parseInt` reads back. */
  lemma SummaryReadsBack(f: Filters, total: int)
    ensures ParseInt(Summary(f, total)[8..]) == Some(SummaryFirst(f))
  {
    var rest := " to " + IntToString(SummaryLast(f, total)) + " of " + IntToString(total) + " todos";
    assert rest[0] == ' ';
    DropPrefix("Showing ", IntToString(SummaryFirst(f)), rest);
    ParseIntOfIntToStringThen(SummaryFirst(f), rest);
  }

  /** With five per page and at least five todos, page 1 reads "Showing 1 to 5 of ...". */
  lemma FirstPageSummary(f: Filters, total: int)
    requires f.page == 1 && f.limit == 5 && total >= 5
    ensures "Showing 1 to 5 of " <= Summary(f, total)
  {
    assert IntToString(1) == "1";
    assert IntToString(5) == "5";
    assert SummaryLast(f, total) == 5;
  }

  /**
   * The summary agrees with the page the backend returns: for a non-empty page, "a to b"
   * counts exactly the todos shown, and `a` is one past the position of the first of them.
   */
  lemma SummaryCountsShownTodos(f: Filters, listed: seq<Todo>)
    requires f.page >= 1 && f.limit >= 1 && (f.page - 1) * f.limit < |listed|
    ensures var shown := Paginate(listed, Some(f.page), Some(f.limit)).todos;
            SummaryLast(f, |listed|) - SummaryFirst(f) + 1 == |shown|
            && shown[0] == listed[SummaryFirst(f) - 1]
  {
    PaginatePage(listed, f.page, f.limit);
    assert f.page * f.limit == (f.page - 1) * f.limit + f.limit;
  }

  // ---------------------------------------------------------------- client and server

  /**
   * On a store with distinct ids that is exactly the displayed list, each todo at the
   * position equal to its order, the backend's renumbering after the drag's PATCH puts every
   * todo at the order where the optimistic list shows it.
   */
  lemma DragAgreesWhenIndexIsOrder(s: seq<Todo>, source: nat, destination: nat, now: string)
    requires UniqueIds(s) && forall i :: 0 <= i < |s| ==> s[i].order == i
    requires source < |s| && destination < |s|
    ensures var patch := WithoutId(ReorderRequest(s[source], destination));
            Patched(s, s[source].id, patch, now).Ok?
            && var server := Patched(s, s[source].id, patch, now).value.0;
               var client := Renumber(Move(s, source, destination));
               forall j :: 0 <= j < |s| ==> 0 <= server[j].order < |s| && client[server[j].order].id == s[j].id
  {
    var id := s[source].id;
    var patch := WithoutId(ReorderRequest(s[source], destination));
    assert patch.order == Some(destination);
    assert Dense(s);
    assert FindIndex(s, id) == Some(source);
    PatchMovesOrders(s, id, patch, now);
    MoveFollowsMovedOrder(s, source, destination);
    var server := Patched(s, id, patch, now).value.0;
    var moved := Move(s, source, destination);
    var client := Renumber(moved);
    forall j | 0 <= j < |s|
      ensures 0 <= server[j].order < |s| && client[server[j].order].id == s[j].id
    {
      var k := MovedOrder(j, source, destination);
      assert server[j].order == MovedOrder(s[j].order, s[source].order, destination) == k;
      assert moved[k] == s[j];
      assert client[k].id == moved[k].id;
    }
  }

  /**
   * The destination index is page-local and sent as is: dragging on page `p >= 2` of a list
   * whose orders are its positions gives the dragged todo an order on page 1, not the
   * position `(p-1)*limit + destination` where the page shows it.
   */
  lemma LaterPageDragLeavesPage(s: seq<Todo>, page: int, limit: int, source: nat, destination: nat, now: string)
    requires UniqueIds(s) && forall i :: 0 <= i < |s| ==> s[i].order == i
    requires page >= 2 && limit >= 1 && destination < limit
    requires (page - 1) * limit + source < |s|
    ensures var dragged := s[(page - 1) * limit + source];
            var patch := WithoutId(ReorderRequest(dragged, destination));
            Patched(s, dragged.id, patch, now).Ok?
            && Patched(s, dragged.id, patch, now).value.1.order == destination
            && destination < (page - 1) * limit <= (page - 1) * limit + destination
  {
    var i := (page - 1) * limit + source;
    assert FindIndex(s, s[i].id) == Some(i);
    assert (page - 1) * limit >= limit;
  }

  // ---------------------------------------------------------------- the page

  /** The page-size select: the new limit, back to page 1. */
  function PageSizeChanged(f: Filters, limit: int): (r: Filters)
    ensures r.limit == limit && r.page == 1
    ensures r.(limit := f.limit, page := f.page) == f
  {
    f.(limit := limit, page := 1)
  }

  /**
   * The filter bar keeps the filters of its first render: after choosing another page size,
   * a change in the bar hands the page the old limit again.
   */
  lemma PageSizeLostOnFilterChange(limit: int, key: SelectKey, value: string)
    requires limit != InitialFilters.limit
    ensures var chosen := PageSizeChanged(InitialFilters, limit);
            var sent := FilterChanged(Mount(InitialFilters), key, value).notified.value;
            chosen.limit == limit && sent.limit == InitialFilters.limit != limit
  {
  }

  class TodosPage {
    var filters: Filters
    /** The cached `getTodos` results, by query arguments. */
    var cache: map<Filters, TodoPage>

    constructor()
      ensures filters == InitialFilters && cache == map[]
    {
      filters := InitialFilters;
      cache := map[];
    }

    /** `data`: the cached result for the current filters, when loaded. */
    function Data(): Option<TodoPage>
      reads this
    {
      if filters in cache then Some(cache[filters]) else None
    }

    /** Drag and drop is on only when sorting by custom order. */
    predicate DragEnabled()
      reads this
    {
      filters.sortBy == "order"
    }

    /**
     * `handleDragEnd`: nothing without a destination, without loaded todos or for a drop in
     * place; otherwise write the moved and renumbered list into the cache, PATCH the dragged
     * todo with the destination index, and on failure put the old list back.
     * The drag library only reports indices of items on the list.
     */
    method HandleDragEnd(source: nat, destination: Option<nat>, outcome: Outcome)
      returns (request: Option<UpdateTodoRequest>, toast: Option<string>)
      requires filters in cache && destination.Some? ==>
                 source < |cache[filters].todos| && destination.value < |cache[filters].todos|
      modifies this
      ensures filters == old(filters)
      ensures destination.None? || old(filters) !in old(cache) || source == destination.value ==>
                request.None? && toast.None? && cache == old(cache)
      ensures destination.Some? && old(filters) in old(cache) && source != destination.value ==>
                var data := old(cache)[old(filters)];
                request == Some(ReorderRequest(data.todos[source], destination.value))
                && (outcome.Succeeded? ==>
                      toast == Some(OrderUpdatedToast)
                      && cache == old(cache)[filters := data.(todos := Renumber(Move(data.todos, source, destination.value)))])
                && (outcome.Failed? ==> toast == Some(FailureToast(outcome.message)) && cache == old(cache))
    {
      if destination.None? || filters !in cache {
        return None, None;
      }
      var to := destination.value;
      if source == to {
        return None, None;
      }
      var data := cache[filters];
      var dragged := data.todos[source];
      var updated := Renumber(Move(data.todos, source, to));
      cache := cache[filters := cache[filters].(todos := updated)];
      request := Some(ReorderRequest(dragged, to));
      match outcome
      case Succeeded =>
        toast := Some(OrderUpdatedToast);
      case Failed(message) =>
        toast := Some(FailureToast(message));
        cache := cache[filters := cache[filters].(todos := data.todos)];
    }

    /** `onDragEnd`: the handler when sorting by custom order, else a no-op. */
    method OnDragEnd(source: nat, destination: Option<nat>, outcome: Outcome)
      returns (request: Option<UpdateTodoRequest>, toast: Option<string>)
      requires filters in cache && destination.Some? ==>
                 source < |cache[filters].todos| && destination.value < |cache[filters].todos|
      modifies this
      ensures filters == old(filters)
      ensures !old(DragEnabled()) ==> request.None? && toast.None? && cache == old(cache)
      ensures old(DragEnabled()) && (destination.None? || old(filters) !in old(cache) || source == destination.value) ==>
                request.None? && toast.None? && cache == old(cache)
      ensures old(DragEnabled()) && destination.Some? && old(filters) in old(cache) && source != destination.value ==>
                var data := old(cache)[old(filters)];
                request == Some(ReorderRequest(data.todos[source], destination.value))
                && (outcome.Succeeded? ==>
                      toast == Some(OrderUpdatedToast)
                      && cache == old(cache)[filters := data.(todos := Renumber(Move(data.todos, source, destination.value)))])
                && (outcome.Failed? ==> toast == Some(FailureToast(outcome.message)) && cache == old(cache))
    {
      if DragEnabled() {
        request, toast := HandleDragEnd(source, destination, outcome);
      } else {
        request, toast := None, None;
      }
    }

    /** The page-size select. */
    method SetPageSize(limit: int)
      modifies this
      ensures filters == PageSizeChanged(old(filters), limit) && cache == old(cache)
    {
      filters := filters.(limit := limit, page := 1);
    }

    /** `onFiltersChange` from the filter bar. */
    method SetFilters(next: Filters)
      modifies this
      ensures filters == next && cache == old(cache)
    {
      filters := next;
    }

    /** The page count the pagination bar shows; the bar is there only for more than one page. */
    function PagesShown(): (pages: Option<int>)
      reads this
      ensures pages.Some? <==> filters in cache && cache[filters].totalPages.Some?
                               && cache[filters].totalPages.value > 1
      ensures pages.Some? ==> pages == cache[filters].totalPages && pages.value >= 2
    {
      if filters in cache && cache[filters].totalPages.Some? && cache[filters].totalPages.value > 1
      then cache[filters].totalPages
      else None
    }

    /** "Previous": one page back; the button is disabled on page 1. */
    method Previous()
      modifies this
      ensures old(PagesShown()).Some? && old(filters.page) != 1 ==>
                filters == old(filters).(page := old(filters.page) - 1)
      ensures old(PagesShown()).None? || old(filters.page) == 1 ==> filters == old(filters)
      ensures cache == old(cache)
    {
      if PagesShown().Some? && filters.page != 1 {
        filters := filters.(page := filters.page - 1);
      }
    }

    /** "Next": one page on; the button is disabled on the last page. */
    method Next()
      modifies this
      ensures old(PagesShown()).Some? && old(filters.page) != old(PagesShown()).value ==>
                filters == old(filters).(page := old(filters.page) + 1)
      ensures old(PagesShown()).None? || old(filters.page) == old(PagesShown()).value ==> filters == old(filters)
      ensures cache == old(cache)
    {
      var shown := PagesShown();
      if shown.Some? && filters.page != shown.value {
        filters := filters.(page := filters.page + 1);
      }
    }

    /** A page-number button: one for each page from 1 to the page count. */
    method GoToPage(n: int)
      requires PagesShown().Some? && 1 <= n <= PagesShown().value
      modifies this
      ensures filters == old(filters).(page := n) && cache == old(cache)
    {
      filters := filters.(page := n);
    }
  }
}
