/**
 * The filter bar (src/components/TodoFilters.tsx). It keeps a local copy of the filters,
 * seeded from its props once, and builds every new filter record from that copy by object
 * spread; some transitions also hand the new record to the parent.
 */
module TodoFilters {
  import opened Options

  /** The filters the todo list is queried with. */
  datatype Filters = Filters(page: int, limit: int, status: string, search: string, sortBy: string,
                             sortOrder: string)

  /** The record the Reset button installs. */
  const ResetFilters: Filters := Filters(1, 10, "", "", "order", "asc")

  /** The keys the three drop-downs pass to `handleFilterChange`. */
  datatype SelectKey = StatusKey | SortByKey | SortOrderKey

  function Field(f: Filters, key: SelectKey): string {
    match key
    case StatusKey => f.status
    case SortByKey => f.sortBy
    case SortOrderKey => f.sortOrder
  }

  /** `{ ...f, [key]: value }`. */
  function WithField(f: Filters, key: SelectKey, value: string): (r: Filters)
    ensures Field(r, key) == value
    ensures forall k :: k != key ==> Field(r, k) == Field(f, k)
    ensures r.page == f.page && r.limit == f.limit && r.search == f.search
  {
    match key
    case StatusKey => f.(status := value)
    case SortByKey => f.(sortBy := value)
    case SortOrderKey => f.(sortOrder := value)
  }

  /** The effect of one event: the new local filters and what reaches `onFiltersChange`, if anything. */
  datatype Step = Step(local: Filters, notified: Option<Filters>)

  /** The local state right after mounting: a copy of the props of the first render. */
  function Mount(props: Filters): (local: Filters)
    ensures local == props
  {
    props
  }

  /**
   * `handleFilterChange(key, value)`: set the field, go back to page 1, keep everything else;
   * the same record becomes the local state and goes to the parent.
   */
  function FilterChanged(local: Filters, key: SelectKey, value: string): (s: Step)
    ensures s.notified == Some(s.local)
    ensures s.local.page == 1 && Field(s.local, key) == value
    ensures forall k :: k != key ==> Field(s.local, k) == Field(local, k)
    ensures s.local.limit == local.limit && s.local.search == local.search
  {
    var next := WithField(local, key, value).(page := 1);
    Step(next, Some(next))
  }

  /** Typing in the search box: only the local `search` changes; the parent hears nothing. */
  function SearchEdited(local: Filters, text: string): (s: Step)
    ensures s.notified.None?
    ensures s.local.search == text && s.local.(search := local.search) == local
  {
    Step(local.(search := text), None)
  }

  /** Submitting the form: the parent gets the local filters on page 1; the local copy stays. */
  function Submitted(local: Filters): (s: Step)
    ensures s.local == local
    ensures s.notified.Some? && s.notified.value.page == 1 && s.notified.value.(page := local.page) == local
  {
    Step(local, Some(local.(page := 1)))
  }

  /** The Reset button: the fixed reset record, both locally and for the parent. */
  function Reset(local: Filters): (s: Step)
    ensures s.local == ResetFilters && s.notified == Some(ResetFilters)
  {
    Step(ResetFilters, Some(ResetFilters))
  }

  /**
   * Search is applied in two events: after editing the box and submitting, the parent gets
   * the local filters with the new search text on page 1, and nothing else changed.
   */
  lemma SearchThenSubmit(local: Filters, text: string)
    ensures var edited := SearchEdited(local, text).local;
            Submitted(edited).notified == Some(local.(search := text, page := 1))
  {
  }
}
