/**
 * The mock backend's mutable state (src/mocks/handlers.ts): the module-level `todos` and
 * `users` arrays and the handlers that change them in place. Each handler is proved to
 * leave the store as the corresponding function of module MockStore prescribes.
 */
module MockServer {
  import opened Options
  import opened JsText
  import opened TodosApi
  import opened MockStore

  class MockServer {
    var todos: seq<Todo>
    var users: seq<User>

    /** The store at start-up: the seed todos and no users. */
    constructor()
      ensures todos == SeedTodos && users == []
    {
      todos := SeedTodos;
      users := [];
    }

    /**
     * `PATCH /todos/:id`: find the todo; when the body carries a different order, walk every
     * todo renumbering it; then replace the found todo by the merge of it and the body.
     */
    method Patch(id: string, body: TodoPatch, now: string) returns (r: Result<Todo>)
      modifies this
      ensures var expected := Patched(old(todos), id, body, now);
              if expected.Err? then r == Err(expected.error) && todos == old(todos)
              else r == Ok(expected.value.1) && todos == expected.value.0
      ensures users == old(users)
    {
      var found := FindIndex(todos, id);
      if found.None? {
        return Err(NotFound);
      }
      var i := found.value;
      if body.order.Some? {
        var newOrder := body.order.value;
        var oldOrder := todos[i].order;
        if newOrder != oldOrder {
          RenumberAll(id, oldOrder, newOrder);
        }
      }
      var updated := ApplyPatch(todos[i], body, now);
      todos := todos[i := updated];
      r := Ok(updated);
    }

    /** The `forEach` of a PATCH that moves the todo `id` from `oldOrder` to `newOrder`. */
    method RenumberAll(id: string, oldOrder: int, newOrder: int)
      modifies this
      ensures todos == Reordered(old(todos), id, oldOrder, newOrder)
      ensures users == old(users)
    {
      var k := 0;
      while k < |todos|
        invariant 0 <= k <= |todos| == |old(todos)|
        invariant forall j :: 0 <= j < k ==> todos[j] == Renumbered(old(todos)[j], id, oldOrder, newOrder)
        invariant forall j :: k <= j < |todos| ==> todos[j] == old(todos)[j]
        invariant users == old(users)
      {
        var t := todos[k];
        if t.id == id {
          t := t.(order := newOrder);
        } else if newOrder < oldOrder {
          if t.order >= newOrder && t.order < oldOrder {
            t := t.(order := t.order + 1);
          }
        } else {
          if t.order > oldOrder && t.order <= newOrder {
            t := t.(order := t.order - 1);
          }
        }
        todos := todos[k := t];
        k := k + 1;
      }
      assert todos == Reordered(old(todos), id, oldOrder, newOrder);
    }

    /**
     * `POST /todos`: push the new todo at the end and answer with it. `now` and `later` are
     * the two clock readings for `createdAt` and `updatedAt`.
     */
    method Post(body: CreateTodoRequest, now: string, later: string) returns (created: Todo)
      modifies this
      ensures created == NewTodo(old(todos), body, now, later)
      ensures todos == old(todos) + [created] && users == old(users)
    {
      created := NewTodo(todos, body, now, later);
      todos := todos + [created];
    }

    /** `DELETE /todos/:id`: splice out the first todo with the id; 404 when there is none. */
    method Delete(id: string) returns (r: Result<string>)
      modifies this
      ensures var expected := Deleted(old(todos), id);
              if expected.Err? then r == Err(expected.error) && todos == old(todos)
              else r == Ok(DeletedMessage) && todos == expected.value
      ensures users == old(users)
    {
      var found := FindIndex(todos, id);
      if found.None? {
        return Err(NotFound);
      }
      var i := found.value;
      todos := todos[..i] + todos[i + 1..];
      r := Ok(DeletedMessage);
    }

    /**
     * `POST /auth/register`: refuse an email already present; otherwise push the new user.
     * The two clock readings (`Date.now()` for the id and for the token) are parameters.
     */
    method Register(name: string, email: string, password: string, idStamp: nat, tokenStamp: nat)
      returns (r: Result<AuthResponse>)
      modifies this
      ensures var expected := Registered(old(users), name, email, password, idStamp, tokenStamp);
              if expected.Err? then r == Err(expected.error) && users == old(users)
              else r == Ok(expected.value.1) && users == expected.value.0
      ensures todos == old(todos)
    {
      var existing := FindUser(users, email);
      if existing.Some? {
        return Err(EmailTaken);
      }
      var u := User("user-" + NatToString(idStamp), name, email, password);
      users := users + [u];
      r := Ok(AuthResponse(Public(u), Token(tokenStamp)));
    }
  }
}
