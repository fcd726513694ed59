# Todo Pro: a Dafny model of the todo list, its mock backend and its client state

Todo Pro is a React single-page todo application. The browser also runs a mock REST
backend, an in-memory service worker. This project models the parts of the application that
carry logic:

- **The mock backend** (`src/mocks/handlers.ts`). It holds module-level `todos` and `users`
  arrays.
  - `PATCH` finds a todo, renumbers the `order` of the todos between its old and new
    position, and merges the body into it.
  - `POST` appends a todo.
  - `DELETE` splices one out.
  - `GET` filters, sorts and paginates a copy.
  - Register and login look users up by email.
- **The client API** (`src/store/api/todosApi.ts`). `getTodos` builds a query string from
  the filters. The three mutations build their requests and name the cache tags they
  invalidate.
- **The list page** (`src/pages/TodosPage.tsx`). It keeps the filters and the cached
  result. A drag-and-drop does three things:
  - it moves and renumbers the list optimistically;
  - it sends one `PATCH` with the destination index;
  - it rolls back when that request fails.

  The page also has a page-size selector, Previous/Next/number buttons and the "Showing a
  to b of n todos" line.
- **The filter bar** (`src/components/TodoFilters.tsx`). It keeps a local copy of the
  filters taken at mount. It also has the select, search and reset transitions.
- **The Redux slices** for authentication and UI (`src/store/slices/authSlice.ts`,
  `src/store/slices/uiSlice.ts`). These include the token and theme they keep in browser
  storage.
- **The zod validation schemas** (`src/lib/schemas.ts`).

Code that changes state in place is modelled as classes whose methods are proved against
functions of the old state: the backend store, the list page and the two slices. Everything
else is pure functions. The modules:

| module | file | models |
|---|---|---|
| `Options` | options.dfy | optional values (`undefined` / `null`) |
| `JsText` | js_text.dfy | `toString`, `parseInt`, ASCII `toLowerCase`, `includes` |
| `TodosApi` | todos_api.dfy | data shapes, `getTodos` query builder, mutations |
| `MockStore` | mock_store.dfy | the handlers' effect on the store, as functions, and their laws |
| `MockServer` | mock_server.dfy | the store as a class whose handlers update it in place |
| `MockQuery` | mock_query.dfy | `GET /api/todos`: filter, sort, paginate |
| `TodoFilters` | todo_filters.dfy | the filter bar's transitions |
| `TodosPage` | todos_page.dfy | drag-and-drop reorder, pagination, page state |
| `AuthSlice` | auth_slice.dfy | authentication reducers and the stored token |
| `UiSlice` | ui_slice.dfy | theme and sidebar reducers, stored theme, `dark` class |
| `Schemas` | schemas.dfy | login, register, todo, todo update and filters schemas |

## Model

| member | source | states |
|---|---|---|
| `JsText.NatToString` | src/mocks/handlers.ts:340 | a number's decimal text is non-empty and all digits |
| `JsText.IntToString` | src/store/api/todosApi.ts:57-58 | an integer's text: all digits when non-negative, a "-" and digits when negative |
| `JsText.LeadingDigits` | src/mocks/handlers.ts:320-321 | `parseInt` reads the longest digit prefix and stops at the first non-digit |
| `JsText.ParseInt` | src/mocks/handlers.ts:320-321 | `parseInt` yields a number only when the text contains a digit |
| `JsText.DigitsValueOfNatToString` | src/store/api/todosApi.ts:57-58 | reading back the digits of `n.toString()` gives `n` |
| `JsText.LeadingDigitsOfAllDigits` | src/mocks/handlers.ts:320-321 | a string of digits is read whole |
| `JsText.ParseIntOfIntToString` | src/store/api/todosApi.ts:57-58 | `parseInt(i.toString()) == i` for every integer, sign included |
| `JsText.IntToStringInjective` | src/store/api/todosApi.ts:57-58 | different integers have different texts |
| `JsText.LeadingDigitsThenStop` | src/mocks/handlers.ts:263-264 | digits followed by a non-digit are read up to that non-digit |
| `JsText.ParseIntOfIntToStringThen` | src/mocks/handlers.ts:263-264 | `parseInt` reads an integer's text back also when other text follows it |
| `JsText.Lower` | src/mocks/handlers.ts:274-279 | lower-casing keeps the length, maps each character, and leaves no capital letter |
| `JsText.Includes` | src/mocks/handlers.ts:274-279 | `includes`: the empty text is found in every text, and a found text is no longer than the text searched |
| `JsText.IncludesLower` | src/mocks/handlers.ts:274-279 | a text found verbatim is also found once both sides are lower-cased |
| `TodosApi.IndexOf` | src/store/api/todosApi.ts:57-63 | the position of a key among the parameter keys, or past the end when it is absent |
| `TodosApi.ParamValue` | src/mocks/handlers.ts:260-265 | `searchParams.get` finds nothing exactly when no parameter has the key |
| `TodosApi.Emitted` | src/store/api/todosApi.ts:57-63 | each `if (value) append` adds one pair exactly when the value is truthy |
| `TodosApi.QueryPairs` | src/store/api/todosApi.ts:57-63 | definition: the truthy fields as key/value pairs in append order; its laws are `QueryPairsOrdered`, `QueryPairsValues` and `QueryPairsNonEmptyValues` |
| `TodosApi.QueryString` | src/store/api/todosApi.ts:66 | `URLSearchParams.toString()`: empty exactly when there are no parameters, else it starts with the first `key=value` |
| `TodosApi.GetTodos` | src/store/api/todosApi.ts:55-68 | the appended parameters are the truthy fields in fixed order, and the request is `GET /todos?` plus their serialisation |
| `TodosApi.OrderedAppend` | src/store/api/todosApi.ts:57-63 | joining two key-ordered parameter runs whose ranks do not overlap is key-ordered |
| `TodosApi.EmittedRanks` | src/store/api/todosApi.ts:57-63 | one conditional append is ordered and has its key's rank |
| `TodosApi.OrderedChain` | src/store/api/todosApi.ts:57-63 | six runs of ranks 0 to 5 join into an ordered run |
| `TodosApi.KeyRanks` | src/store/api/todosApi.ts:57-63 | the six keys have ranks 0 to 5 in append order |
| `TodosApi.EmittedInOrder` | src/store/api/todosApi.ts:57-63 | the six conditional appends give ordered keys |
| `TodosApi.QueryPairsOrdered` | src/store/api/todosApi.ts:57-63 | the query has at most six parameters, each key at most once, in the order page, limit, status, search, sortBy, sortOrder |
| `TodosApi.QueryPairsNonEmptyValues` | src/store/api/todosApi.ts:57-63 | no parameter is sent with an empty value |
| `TodosApi.ParamValueAppend` | src/mocks/handlers.ts:260-265 | `get` on joined parameters answers from the first part that has the key |
| `TodosApi.ParamValueOfEmitted` | src/mocks/handlers.ts:260-265 | `get` on one conditional append |
| `TodosApi.ParamValueOfSix` | src/mocks/handlers.ts:260-265 | `get` on six joined runs answers from the first that has the key |
| `TodosApi.ParamValueOfQueryPairs` | src/store/api/todosApi.ts:57-63 | the server reads back each key's value when the client's field was truthy, and nothing otherwise |
| `TodosApi.QueryPairsValues` | src/store/api/todosApi.ts:57-63 | the same, for all six keys at once |
| `TodosApi.EmptyQueryUrl` | src/store/api/todosApi.ts:66 | with no truthy field the URL is `/todos?` |
| `TodosApi.CreateTodo` | src/store/api/todosApi.ts:78-85 | `POST /todos` with the request as body; invalidates the list tag |
| `TodosApi.UpdateTodo` | src/store/api/todosApi.ts:87-97 | `PATCH /todos/{id}`; the id and the body give back the request; invalidates the item and the list |
| `TodosApi.DeleteTodo` | src/store/api/todosApi.ts:99-105 | `DELETE /todos/{id}` without body; invalidates the list |
| `TodosApi.RouteId` | src/mocks/handlers.ts:353 | the `:id` the backend route extracts, when the URL matches |
| `TodosApi.RouteIdOfMutationPath` | src/mocks/handlers.ts:397 | the backend extracts the same id the update and delete URLs were built with |
| `MockStore.SeedDense` | src/mocks/handlers.ts:4-149 | the twelve seed todos have orders 0 to 11, each once |
| `MockStore.FindIndex` | src/mocks/handlers.ts:358 | `findIndex`: the first todo with the id, or none when no todo has it |
| `MockStore.Renumbered` | src/mocks/handlers.ts:370-384 | the `forEach` body changes only the order: the moved id takes the new order, any other todo moves by at most one, and a todo outside both orders stays |
| `MockStore.Reordered` | src/mocks/handlers.ts:370-384 | the `forEach` keeps the length and changes nothing but orders |
| `MockStore.ApplyPatch` | src/mocks/handlers.ts:388-392 | the spread merge: body fields that are present win, the id and `createdAt` stay, `updatedAt` is the new timestamp |
| `MockStore.Patched` | src/mocks/handlers.ts:353-395 | 404 "Todo not found" exactly when the id is absent; otherwise same length, the updated todo at its index |
| `MockStore.MovedOrderPermutes` | src/mocks/handlers.ts:368-384 | moving one order within 0..n-1 maps distinct orders to distinct orders in range |
| `MockStore.MovedOrderInRange` | src/mocks/handlers.ts:368-384 | a moved order stays in 0..n-1 |
| `MockStore.MovedOrderInverse` | src/mocks/handlers.ts:368-384 | moving back undoes a move |
| `MockStore.PatchRenumbers` | src/mocks/handlers.ts:364-386 | new < old: exactly the others in [new, old) go up by one; new > old: exactly those in (old, new] go down; the target gets new |
| `MockStore.PatchedOrder` | src/mocks/handlers.ts:364-392 | one todo's order after a PATCH: the `forEach` body's when the order changes, else unchanged |
| `MockStore.PatchSameOrder` | src/mocks/handlers.ts:364-366 | no order, or the same order: no other todo changes |
| `MockStore.PatchFrame` | src/mocks/handlers.ts:388-392 | positions and length stay; the body and timestamp go only into the target; neighbours change only their order |
| `MockStore.PatchMovesOrders` | src/mocks/handlers.ts:364-386 | with distinct ids and orders 0..n-1, every todo's order moves as one removal and reinsertion |
| `MockStore.RenumberedMoves` | src/mocks/handlers.ts:370-384 | for a todo that has the moved id exactly when it has the old order, the `forEach` body moves its order as a removal and reinsertion would |
| `MockStore.DenseAfterMove` | src/mocks/handlers.ts:364-386 | such a move keeps the orders a permutation of 0..n-1 |
| `MockStore.PatchKeepsDense` | src/mocks/handlers.ts:368-384 | on a store with distinct ids, PATCH with 0 <= new < n keeps the orders a permutation of 0..n-1 |
| `MockStore.FindIndexOfSameIds` | src/mocks/handlers.ts:358 | renumbering does not change which todo an id finds |
| `MockStore.PatchOrderRoundTrip` | src/mocks/handlers.ts:364-386 | moving a todo and moving it back restores every order |
| `MockStore.NewTodo` | src/mocks/handlers.ts:339-346 | order = length, id = text of length + 1, status = body status or "todo", body fields copied, `createdAt` and `updatedAt` from the two clock readings |
| `MockStore.PostKeepsDense` | src/mocks/handlers.ts:343-348 | appending at order n keeps the orders a permutation of 0..n |
| `MockStore.Deleted` | src/mocks/handlers.ts:397-409 | 404 exactly when the id is absent; otherwise one todo fewer |
| `MockStore.DeleteRemovesOne` | src/mocks/handlers.ts:406 | exactly the found todo goes; the rest keep their relative positions and their orders |
| `MockStore.SpliceOut` | src/mocks/handlers.ts:406 | `splice(i, 1)` removes exactly one element and shifts the later ones down |
| `MockStore.DeleteLeavesGap` | src/mocks/handlers.ts:406 | deleting any todo other than the one with the highest order leaves the orders out of 0..n-2 |
| `MockStore.DeleteThenPostRepeatsId` | src/mocks/handlers.ts:340 | after deleting "1" of two todos, the next POST gets id "2" again |
| `MockStore.MoveTo` | src/pages/TodosPage.tsx:94-97 | a PATCH body with only an order |
| `MockStore.RepeatedIdBreaksPatch` | src/mocks/handlers.ts:340 | move "1" of ["1", "2"] to order 1, delete it, POST: the store is dense but holds id "2" twice, and moving "2" to order 1 leaves two todos at order 1 |
| `MockStore.MoveDeletePost` | src/mocks/handlers.ts:335-409 | the first three steps of that history end with [old "2" at order 0] and a POST with id "2" at order 1 |
| `MockStore.SharedIdBreaksPatch` | src/mocks/handlers.ts:368-384 | two dense todos sharing an id both take the new order |
| `MockStore.MoveFirstOfTwo` | src/mocks/handlers.ts:364-392 | moving the first of two todos at orders 0 and 1 to order 1 swaps them, or gives both order 1 when they share the id |
| `MockStore.MaxId` | src/mocks/handlers.ts:340 | a bound on every number an id parses to |
| `MockStore.FreshNewTodo` | src/mocks/handlers.ts:339-346 | corrected POST: an id no todo of the store has, every other field as `NewTodo` |
| `MockStore.FreshPostKeepsStore` | src/mocks/handlers.ts:339-348 | with fresh ids a POST keeps the ids distinct and the orders dense |
| `MockStore.PatchKeepsUniqueIds` | src/mocks/handlers.ts:353-395 | a PATCH keeps distinct ids distinct |
| `MockStore.FreshIdsKeepPatchDense` | src/mocks/handlers.ts:335-395 | with fresh ids, a POST followed by an in-range PATCH keeps distinct ids and dense orders |
| `MockStore.FindUser` | src/mocks/handlers.ts:174 | `find` by email: the first user with it, or none when no user has it |
| `MockStore.Login` | src/mocks/handlers.ts:206-240 | 401 "Invalid email or password" or the matching user without password and a fresh token |
| `MockStore.LoginSucceedsIff` | src/mocks/handlers.ts:211-226 | with distinct emails, login succeeds exactly when some user has that email and password |
| `MockStore.Registered` | src/mocks/handlers.ts:167-204 | 400 exactly when the email is taken; otherwise one user appended and returned without password, with a token |
| `MockStore.RegisterKeepsUniqueEmails` | src/mocks/handlers.ts:174-189 | registration keeps emails distinct |
| `MockStore.RegisterThenLogin` | src/mocks/handlers.ts:189-240 | a registered user can log in with the same password and gets the same public user |
| `MockServer.MockServer.constructor` | src/mocks/handlers.ts:4-157 | the store starts with the seed todos and no users |
| `MockServer.MockServer.Patch` | src/mocks/handlers.ts:353-395 | the in-place `forEach` and replace leave the store and answer as `Patched` prescribes; users untouched |
| `MockServer.MockServer.RenumberAll` | src/mocks/handlers.ts:370-384 | the in-place `forEach` leaves every todo renumbered as `Reordered` prescribes; users untouched |
| `MockServer.MockServer.Post` | src/mocks/handlers.ts:335-351 | `push` of `NewTodo` with the two clock readings; users untouched |
| `MockServer.MockServer.Delete` | src/mocks/handlers.ts:397-409 | `splice` as `Deleted` prescribes, with the success message; users untouched |
| `MockServer.MockServer.Register` | src/mocks/handlers.ts:167-204 | `push` as `Registered` prescribes; todos untouched |
| `MockQuery.ParamOr` | src/mocks/handlers.ts:260-265 | the value of `get(key)` when truthy, else the fallback |
| `MockQuery.MatchesStatus` | src/mocks/handlers.ts:270-272 | no status filter keeps every todo; a non-empty status keeps exactly the todos with that status |
| `MockQuery.MatchesSearch` | src/mocks/handlers.ts:274-280 | no search keeps every todo; without a description, a todo matches exactly when its lower-cased title contains the lower-cased term |
| `MockQuery.Matches` | src/mocks/handlers.ts:270-280 | with neither filter every todo passes; a passing todo passes both filters |
| `MockQuery.SearchIgnoresCase` | src/mocks/handlers.ts:274-280 | a term in the title or description verbatim is found, and differently cased spellings of a term find the same todos |
| `MockQuery.Filtered` | src/mocks/handlers.ts:267-281 | exactly the todos matching status and case-insensitive title or description search, each as often as stored |
| `MockQuery.PriorityRank` | src/mocks/handlers.ts:297-300 | the weights high = 3, medium = 2, low = 1, and 0 for a missing or other priority |
| `MockQuery.SortKey` | src/mocks/handlers.ts:287-310 | the creation time for "createdAt"; for "dueDate" the due date's time, or 0 when it is missing or empty; the priority weight for "priority"; the order for any other key |
| `MockQuery.Rank` | src/mocks/handlers.ts:312-316 | the key for "asc", its negation for any other direction |
| `MockQuery.Comparator` | src/mocks/handlers.ts:284-317 | the comparator's value is the difference of ranks, so it is at most 0 exactly when the first ranks no higher |
| `MockQuery.Insert` | src/mocks/handlers.ts:284-317 | inserting into a sorted list keeps it sorted and adds exactly one element |
| `MockQuery.RanksAboveHead` | src/mocks/handlers.ts:284-317 | what follows the head of a sorted list ranks no lower than it |
| `MockQuery.SortByRank` | src/mocks/handlers.ts:284-317 | sorting gives a sorted permutation |
| `MockQuery.HighPriorityFirst` | src/mocks/handlers.ts:297-316 | sorted by priority descending, the weights never rise along the list, so every "high" todo precedes every other todo |
| `MockQuery.Listing` | src/mocks/handlers.ts:267-317 | the filtered todos, as a multiset, ordered by the sort key ascending or descending; the comparator is at most 0 on every earlier/later pair |
| `MockQuery.SliceIndex` | src/mocks/handlers.ts:322-324 | `slice` bounds: NaN is 0, a negative index counts from the end and stops at 0, a larger one stops at the length |
| `MockQuery.JsSlice` | src/mocks/handlers.ts:322-324 | `slice` returns the run between the two read indices when the start index does not lie past the end index |
| `MockQuery.SliceEmptyWhenStartPastEnd` | src/mocks/handlers.ts:322-324 | `slice` returns nothing when the start index lies past the end index |
| `MockQuery.TotalPages` | src/mocks/handlers.ts:321 | `Math.ceil(total / limit)`: none for a zero or NaN limit; 0 for no todos; for a positive limit the least page count covering the total; at most 0 for a negative limit |
| `MockQuery.NegativeLimitPages` | src/mocks/handlers.ts:321 | with a negative limit the result is still the ceiling of total / limit |
| `MockQuery.Paginate` | src/mocks/handlers.ts:320-331 | the response carries the filtered count, the requested page and limit, and the page count |
| `MockQuery.PaginatePage` | src/mocks/handlers.ts:320-324 | page p of l items is the items from (p-1)·l on, at most l of them |
| `MockQuery.PageZeroIsEmpty` | src/mocks/handlers.ts:322-324 | page 0 returns no todos |
| `MockQuery.NegativePageCountsFromEnd` | src/mocks/handlers.ts:322-324 | a negative page slices from the end of the list, as negative `slice` indices do |
| `MockQuery.PageMember` | src/mocks/handlers.ts:322-324 | every todo on a page is a todo of the listing |
| `MockQuery.ListedTodoMatches` | src/mocks/handlers.ts:267-317 | every listed todo is stored and matches the filters |
| `MockQuery.ListingCount` | src/mocks/handlers.ts:320 | the listing holds as many todos as pass the filters |
| `MockQuery.PageMatches` | src/mocks/handlers.ts:267-324 | every todo on any page is stored and passes the filters |
| `MockQuery.Respond` | src/mocks/handlers.ts:257-333 | the page of the listing for the parsed page and limit; `total` counts the todos passing the filters; every returned todo is stored and passes them |
| `MockQuery.RespondPage` | src/mocks/handlers.ts:257-333 | the response is the requested page of the listing, and every returned todo is stored and matches; the store is only read |
| `MockQuery.PageOfPosition` | src/mocks/handlers.ts:320-331 | every listed position lies on a page between 1 and the page count |
| `MockQuery.ReadBackNumber` | src/mocks/handlers.ts:260-261 | a number the client sent is parsed back; an absent one takes the default |
| `MockQuery.ReadBackOfClientQuery` | src/mocks/handlers.ts:260-265 | the backend reads the client's page, limit, sortBy and sortOrder, or its defaults 1, 10, createdAt, desc |
| `TodoFilters.WithField` | src/components/TodoFilters.tsx:19 | `{ ...f, [key]: value }` sets one field and keeps the others |
| `TodoFilters.Mount` | src/components/TodoFilters.tsx:16 | the local copy is the first props |
| `TodoFilters.FilterChanged` | src/components/TodoFilters.tsx:18-22 | a select sets its field and page 1 locally, and hands the same record to the page |
| `TodoFilters.SearchEdited` | src/components/TodoFilters.tsx:44-46 | typing changes only the local search text and tells the page nothing |
| `TodoFilters.Submitted` | src/components/TodoFilters.tsx:24-27 | submitting hands the local filters with page 1 to the page |
| `TodoFilters.Reset` | src/components/TodoFilters.tsx:121-132 | reset installs {1, 10, "", "", "order", "asc"} locally and in the page |
| `TodoFilters.SearchThenSubmit` | src/components/TodoFilters.tsx:24-46 | edit then submit hands over the old filters with the new search on page 1 |
| `TodosPage.InitialQuery` | src/pages/TodosPage.tsx:20-29 | the first query sends page 1, limit 10, sortBy order, sortOrder asc and no status or search |
| `TodosPage.Remove` | src/pages/TodosPage.tsx:76 | `splice(i, 1)` removes one element and shifts the rest |
| `TodosPage.Move` | src/pages/TodosPage.tsx:75-77 | the dragged element lands at the destination; the others keep their relative order |
| `TodosPage.MovePermutes` | src/pages/TodosPage.tsx:75-77 | the moved list is a permutation of the old one |
| `TodosPage.MoveInverse` | src/pages/TodosPage.tsx:75-77 | dragging back restores the list |
| `TodosPage.MoveFollowsMovedOrder` | src/pages/TodosPage.tsx:75-77 | the client's move sends position j where the backend's renumbering sends order j |
| `TodosPage.Renumber` | src/pages/TodosPage.tsx:80-83 | every todo's order becomes its index; nothing else changes |
| `TodosPage.ReorderRequest` | src/pages/TodosPage.tsx:72-97 | one request, for the dragged todo, with the untranslated destination index as order and no other field |
| `TodosPage.FailureToast` | src/pages/TodosPage.tsx:101 | the server's message when it is non-empty, else the fixed text; never empty |
| `TodosPage.FirstPageSummary` | e2e/todos.spec.ts:105 | with limit 5, page 1 reads "Showing 1 to 5 of ..." |
| `TodosPage.SummaryCountsShownTodos` | src/pages/TodosPage.tsx:272-273 | "a to b" counts exactly the todos the backend returns for the page |
| `TodosPage.SummaryFirst` | src/pages/TodosPage.tsx:272 | the first position is at least 1 on a page >= 1, and 1 on page 1 |
| `TodosPage.SummaryLast` | src/pages/TodosPage.tsx:273 | the last position is the smaller of the page end and the total |
| `TodosPage.Summary` | src/pages/TodosPage.tsx:272-274 | the line starts with "Showing " |
| `TodosPage.SummaryReadsBack` | src/pages/TodosPage.tsx:272 | after "Showing " the line holds the first position, which `parseInt` reads back |
| `TodosPage.DragAgreesWhenIndexIsOrder` | src/pages/TodosPage.tsx:72-97 | when positions are orders, the backend's renumbering agrees with the optimistic list |
| `TodosPage.LaterPageDragLeavesPage` | src/pages/TodosPage.tsx:96 | on a later page the destination index, sent as is, gives an order on page 1 |
| `TodosPage.PageSizeChanged` | src/pages/TodosPage.tsx:150-155 | the page-size select sets the limit and page 1 and keeps the rest |
| `TodosPage.PageSizeLostOnFilterChange` | src/components/TodoFilters.tsx:16-22 | the filter bar, seeded once, hands back the initial limit after the page size changed |
| `TodosPage.TodosPage.constructor` | src/pages/TodosPage.tsx:20-27 | the page starts with the initial filters and an empty cache |
| `TodosPage.TodosPage.HandleDragEnd` | src/pages/TodosPage.tsx:65-109 | no-op without a destination, without data or in place; else the renumbered move is cached, one request sent, and a failure restores the old list |
| `TodosPage.TodosPage.OnDragEnd` | src/pages/TodosPage.tsx:198 | drops do nothing unless sorting by custom order; when sorting by it, a real move writes the renumbered list optimistically, sends one request and rolls back with the failure toast, and any other drop changes nothing |
| `TodosPage.TodosPage.SetPageSize` | src/pages/TodosPage.tsx:150-155 | the page-size select's new filters |
| `TodosPage.TodosPage.SetFilters` | src/pages/TodosPage.tsx:174 | the filter bar replaces the filters |
| `TodosPage.TodosPage.PagesShown` | src/pages/TodosPage.tsx:269 | the pagination bar shows exactly when the cached result has more than one page, and then with that page count |
| `TodosPage.TodosPage.Previous` | src/pages/TodosPage.tsx:277-285 | one page back, disabled on page 1 and when there is no pagination bar |
| `TodosPage.TodosPage.Next` | src/pages/TodosPage.tsx:307-315 | one page on, disabled on the last page and when there is no pagination bar |
| `TodosPage.TodosPage.GoToPage` | src/pages/TodosPage.tsx:288-293 | a page button sets that page |
| `AuthSlice.AuthSlice.constructor` | src/store/slices/authSlice.ts:17-22 | no user, not authenticated, not loading, the stored token |
| `AuthSlice.AuthSlice.LoginStart` | src/store/slices/authSlice.ts:28-30 | only the loading flag is set |
| `AuthSlice.AuthSlice.LoginSuccess` | src/store/slices/authSlice.ts:31-40 | user and token from the payload, authenticated, not loading, token stored |
| `AuthSlice.AuthSlice.LoginFailure` | src/store/slices/authSlice.ts:41-47 | session cleared, not loading, stored token removed |
| `AuthSlice.AuthSlice.Logout` | src/store/slices/authSlice.ts:48-53 | session cleared and stored token removed; loading flag untouched |
| `AuthSlice.AuthSlice.CheckAuth` | src/store/slices/authSlice.ts:54-63 | adopts a truthy stored token, else drops the token; user untouched; state and storage agree unless "" is stored |
| `AuthSlice.ReloadAfterLogin` | src/store/slices/authSlice.ts:17-63 | after login and a reload, `checkAuth` authenticates with the token but there is no user |
| `AuthSlice.ReloadAfterLogout` | src/store/slices/authSlice.ts:17-63 | after logout and a reload, `checkAuth` is signed out |
| `UiSlice.InitialTheme` | src/store/slices/uiSlice.ts:20 | the stored theme unchecked, or "light" when none or "" is stored |
| `UiSlice.Toggled` | src/store/slices/uiSlice.ts:39 | "dark" exactly from "light"; the result is always "light" or "dark" |
| `UiSlice.ToggleTwice` | src/store/slices/uiSlice.ts:38-43 | toggling twice restores "light" and "dark" |
| `UiSlice.ToggleTwiceNormalises` | src/store/slices/uiSlice.ts:38-43 | any other stored value becomes "dark" after two toggles |
| `UiSlice.UiSlice.constructor` | src/store/slices/uiSlice.ts:20-27 | initial theme applied to the document; sidebar closed |
| `UiSlice.UiSlice.SetTheme` | src/store/slices/uiSlice.ts:33-37 | theme set, stored and applied; sidebar untouched |
| `UiSlice.UiSlice.ToggleTheme` | src/store/slices/uiSlice.ts:38-43 | toggled theme set, stored and applied; sidebar untouched |
| `UiSlice.UiSlice.SetSidebarOpen` | src/store/slices/uiSlice.ts:44-46 | only the sidebar flag changes |
| `UiSlice.UiSlice.ToggleSidebar` | src/store/slices/uiSlice.ts:47-49 | only the sidebar flag changes, to its negation |
| `UiSlice.ReloadAfterToggle` | src/store/slices/uiSlice.ts:20-43 | a toggled theme survives a reload |
| `Schemas.Check` | src/lib/schemas.ts:5-6 | one failing check gives one issue on its field |
| `Schemas.EnumCheck` | src/lib/schemas.ts:25-26 | an optional enum field passes exactly when absent or listed |
| `Schemas.LoginIssues` | src/lib/schemas.ts:4-7 | valid exactly with a valid email and a password of at least 6 characters, with each field's message |
| `Schemas.RegisterIssues` | src/lib/schemas.ts:9-19 | valid exactly with name >= 2, valid email, password >= 6 and matching confirmation; the mismatch is reported last, on confirmPassword |
| `Schemas.TitleCheck` | src/lib/schemas.ts:23 | a title is valid exactly when present and non-empty; "" gives "Title is required" |
| `Schemas.TodoParsed` | src/lib/schemas.ts:22-29 | valid exactly with a title and listed status and priority; the status defaults to "todo" |
| `Schemas.TodoUpdateParsed` | src/lib/schemas.ts:31 | every field optional, present ones checked as for a todo, no default filled in |
| `Schemas.UpdateAcceptsMore` | src/lib/schemas.ts:22-31 | the partial schema accepts all the full one does, and a form without title |
| `Schemas.FiltersIssues` | src/lib/schemas.ts:33-40 | valid exactly with listed enums, page >= 1 and 1 <= limit <= 100; "order" is not a sort key |
| `Schemas.FieldsOf` | src/pages/TodosPage.tsx:20-27 | the page's filter record with every field present |
| `Schemas.ResetFiltersRejected` | src/lib/schemas.ts:33-40 | the filters the page actually uses fail the filters schema on status and sortBy |
| `Schemas.EmptyLoginForm` | src/test/forms.test.tsx:10-23 | an empty login form reports the email and the password message |
| `Schemas.RegisterForms` | src/test/auth.test.tsx:87-104 | an empty form reports name, email and password; mismatched passwords report only the mismatch |

## Left out

- I/O and the clock are parameters. Examples: the `Date.now()` stamps in user ids and
  tokens, the ISO timestamps written by POST and PATCH, and the date parsing behind the
  `createdAt` and `dueDate` sort keys (`timeOf`).
- The msw `delay`, the JSON status codes' transport, and the `/api` prefix of routes are
  left out. Routes are matched on the path after the API base URL.
- `/api/test` and `/api/auth/profile` return constant bodies and are not modelled.
- `JsText.ParseInt` reads an optional sign and the leading digits. It does not skip leading
  whitespace and does not read `0x` prefixes. `NaN` is `None`.
- `JsText.Lower` lower-cases ASCII letters only. Unicode case mapping is not modelled.
- `TodosApi.GetTodos` does not percent-encode parameter values.
- `MockQuery.SortByRank` states a sorted permutation but not the stability of
  `Array.prototype.sort`. Ties may come out in any order, so `MockQuery.Listing` states no
  order among todos with equal keys.
- `MockQuery.Rank` treats the sort key as an integer. A `NaN` date difference, which makes
  the JavaScript comparator inconsistent, is not modelled.
- `TodoFilters.WithField` covers the three keys the drop-downs pass (`status`, `sortBy`,
  `sortOrder`). Other keys are never passed by the component.
- The RTK Query cache is a map from filters to the last response.
  - Fetching, refetching after invalidated tags, and keeping previous data while loading are
    not modelled.
  - The PATCH outcome is a parameter of `TodosPage.TodosPage.HandleDragEnd`, so the time
    between the optimistic write and the rollback is not modelled.
  - A refetch between those two moments is not modelled either.
- Toasts are returned as strings. Rendering, `window.confirm` before delete, the loading
  skeletons, the forms' components and all styling are left out.
- `UiSlice` models the document's `dark` class as a boolean field. Browser storage is one
  optional string per slice, under the key that slice uses.
- Text lengths are counted in Unicode scalar values, not in UTF-16 code units as
  JavaScript's `length` does.
- `Schemas` takes the email check as a predicate (`isEmail`), in place of zod's regular
  expression.
  - Enum, minimum and maximum failures carry the check's data (`InvalidEnum`, `TooSmall`,
    `TooBig`) instead of zod's default English messages.
  - Numbers are integers, so the `NaN` and fraction cases of `z.number()` are not covered.
  - `Schemas.TodoUpdateParsed` follows zod 3, where `.partial()` wraps the status field's
    `.default("todo")` in an optional that yields nothing for a missing field. Zod 4 fills
    the default in inside optional fields; that behaviour is not modelled.
- Login and registration forms, the auth API endpoints and route guards are thin wrappers
  over these pieces and are not modelled.
- `MockStore.NewTodo` takes the request body as a typed record. The source spreads an
  untyped JSON body between `id` and `status`, so a body carrying `id` would override the
  computed id; that override is not modelled. `order`, `createdAt` and `updatedAt` are set
  after the spread and win over the body either way.
- `MockStore.ApplyPatch` likewise takes a typed patch with the fields of `UpdateTodoRequest`.
  A body carrying `id` or `createdAt` would overwrite them through the spread; that is not
  modelled. `updatedAt` is set after the spread and always takes the clock reading.
- `MockServer.MockServer.Post` follows the source as written and uses `MockStore.NewTodo`.
  `MockStore.FreshNewTodo` is the corrected POST under "Findings"; the PATCH lemmas that need
  distinct ids (`MockStore.PatchKeepsDense`) hold on stores built with it.

## Findings

| source | as written | input that shows it | evidently intended | confidence | as-written member | corrected member |
|---|---|---|---|---|---|---|
| src/mocks/handlers.ts:340 | a new todo's id is the text of the list length plus one, which repeats an id still in use once a todo has been deleted | todos "1" at order 0 and "2" at order 1; PATCH "1" to order 1; DELETE "1"; POST; the store now holds two todos with id "2", and PATCH "2" to order 1 leaves both at order 1 | a POST gives an id no stored todo has | not executed | `MockStore.RepeatedIdBreaksPatch` | `MockStore.FreshNewTodo` |
