/** The client's todo store (frontend/src/store/todoStore.js): the list it holds, the
    filters and sort it sends, and how each request's answer changes the list. The
    server's answer is a parameter (`None` when the request fails); toasts are left out. */
module ClientStore {
  import opened Wrappers
  import opened ListOps

  /** A todo as the client receives it in JSON: enum values and dates stay text. */
  datatype ClientTodo = ClientTodo(
    id: string,
    title: string,
    description: Option<string>,
    status: string,
    priority: string,
    dueDate: Option<string>,
    categoryId: Option<string>,
    isDeleted: bool)

  /** The list filters; `"all"` (or an empty search) means no filter. */
  datatype Filters = Filters(status: string, priority: string, categoryId: string, search: string)

  function InitialFilters(): (f: Filters)
    ensures f.status == "all" && f.priority == "all" && f.categoryId == "all" && f.search == ""
  {
    Filters("all", "all", "all", "")
  }

  /** The query parameters of `GET /todos`; `None` keys are not sent. */
  datatype Params = Params(
    sortBy: string,
    sortOrder: string,
    status: Option<string>,
    priority: Option<string>,
    categoryId: Option<string>,
    search: Option<string>)

  /** A filter value is sent unless it is `"all"`. */
  function UnlessAll(v: string): (o: Option<string>)
    ensures o.Some? <==> v != "all"
    ensures o.Some? ==> o.value == v
  {
    if v != "all" then Some(v) else None
  }

  /** `fetchTodos`'s parameters: the sort always, a filter only when set. */
  function FetchParams(f: Filters, sortBy: string, sortOrder: string): (p: Params) {
    Params(sortBy, sortOrder, UnlessAll(f.status), UnlessAll(f.priority), UnlessAll(f.categoryId),
           if f.search != "" then Some(f.search) else None)
  }

  /** The filters a parameter set stands for. */
  function FiltersOf(p: Params): Filters {
    Filters(if p.status.Some? then p.status.value else "all",
            if p.priority.Some? then p.priority.value else "all",
            if p.categoryId.Some? then p.categoryId.value else "all",
            if p.search.Some? then p.search.value else "")
  }

  /** The parameters lose nothing: the filters and the sort can be read back from them,
      and a filter key is sent exactly when that filter is set. */
  lemma FetchParamsRoundTrip(f: Filters, sortBy: string, sortOrder: string)
    ensures FiltersOf(FetchParams(f, sortBy, sortOrder)) == f
    ensures FetchParams(f, sortBy, sortOrder).sortBy == sortBy
    ensures FetchParams(f, sortBy, sortOrder).sortOrder == sortOrder
    ensures FetchParams(f, sortBy, sortOrder).status.Some? <==> f.status != "all"
    ensures FetchParams(f, sortBy, sortOrder).priority.Some? <==> f.priority != "all"
    ensures FetchParams(f, sortBy, sortOrder).categoryId.Some? <==> f.categoryId != "all"
    ensures FetchParams(f, sortBy, sortOrder).search.Some? <==> f.search != ""
  {
  }

  /** The initial state asks for everything, newest first. */
  lemma InitialParams()
    ensures FetchParams(InitialFilters(), "createdAt", "DESC") == Params("createdAt", "DESC", None, None, None, None)
  {
  }

  /** `todos.map(todo => todo.id === id ? t : todo)`. */
  function ReplaceById(s: seq<ClientTodo>, id: string, t: ClientTodo): (r: seq<ClientTodo>)
    ensures |r| == |s|
    ensures forall i | 0 <= i < |s| :: r[i] == if s[i].id == id then t else s[i]
  {
    if |s| == 0 then [] else [if s[0].id == id then t else s[0]] + ReplaceById(s[1..], id, t)
  }

  function OtherId(id: string): ClientTodo -> bool {
    (x: ClientTodo) => x.id != id
  }

  /** `todos.filter(todo => todo.id !== id)`. */
  function RemoveById(s: seq<ClientTodo>, id: string): (r: seq<ClientTodo>)
    ensures IsSubsequence(r, s)
    ensures forall x | x in r :: x.id != id
    ensures forall x | x in s && x.id != id :: x in r
    ensures forall x :: multiset(r)[x] == if x.id != id then multiset(s)[x] else 0
    ensures |r| == |set i | 0 <= i < |s| && s[i].id != id|
  {
    KeepIsSubsequence(s, OtherId(id));
    KeepMultiplicity(s, OtherId(id));
    RemovedCount(s, id);
    Keep(s, OtherId(id))
  }

  /** The rest of the list is counted position by position. */
  lemma RemovedCount(s: seq<ClientTodo>, id: string)
    ensures |Keep(s, OtherId(id))| == |set i | 0 <= i < |s| && s[i].id != id|
  {
    KeepCountsPositions(s, OtherId(id));
    assert PassingFrom(s, OtherId(id), 0) == set i | 0 <= i < |s| && s[i].id != id;
  }

  /** Removing an id no element carries changes nothing. */
  lemma RemoveAbsentId(s: seq<ClientTodo>, id: string)
    requires forall x | x in s :: x.id != id
    ensures RemoveById(s, id) == s
  {
    KeepEverything(s, OtherId(id));
  }

  /** Deleting a just-created todo gives back the list as it would be without it. */
  lemma CreateThenDelete(s: seq<ClientTodo>, t: ClientTodo)
    ensures RemoveById([t] + s, t.id) == RemoveById(s, t.id)
  {
    assert ([t] + s)[1..] == s;
  }

  /** An update answered with the todo it was for keeps every element's id, so a later
      delete of that id removes the same positions. */
  lemma {:induction false} ReplaceThenRemove(s: seq<ClientTodo>, id: string, t: ClientTodo)
    requires t.id == id
    ensures forall i | 0 <= i < |s| :: ReplaceById(s, id, t)[i].id == s[i].id
    ensures RemoveById(ReplaceById(s, id, t), id) == RemoveById(s, id)
  {
    if |s| > 0 {
      ReplaceThenRemove(s[1..], id, t);
      var r := ReplaceById(s, id, t);
      assert r[1..] == ReplaceById(s[1..], id, t);
    }
  }

  /** Replacing twice with the same todo is replacing once. */
  lemma {:induction false} ReplaceIdempotent(s: seq<ClientTodo>, id: string, t: ClientTodo)
    requires t.id == id
    ensures ReplaceById(ReplaceById(s, id, t), id, t) == ReplaceById(s, id, t)
  {
    if |s| > 0 {
      ReplaceIdempotent(s[1..], id, t);
      assert ReplaceById(s, id, t)[1..] == ReplaceById(s[1..], id, t);
    }
  }

  class TodoListState {
    var todos: seq<ClientTodo>
    var filteredTodos: seq<ClientTodo>
    var isLoading: bool
    var filters: Filters
    var sortBy: string
    var sortOrder: string

    constructor ()
      ensures todos == [] && filteredTodos == [] && !isLoading
      ensures filters == InitialFilters() && sortBy == "createdAt" && sortOrder == "DESC"
    {
      todos := [];
      filteredTodos := [];
      isLoading := false;
      filters := InitialFilters();
      sortBy := "createdAt";
      sortOrder := "DESC";
    }

    /** `fetchTodos`: request with the current filters and sort; an answer replaces both
        lists, a failure leaves them; loading is over either way. */
    method FetchTodos(response: Option<seq<ClientTodo>>) returns (params: Params)
      modifies this
      ensures params == FetchParams(old(filters), old(sortBy), old(sortOrder))
      ensures !isLoading
      ensures response.Some? ==> todos == response.value && filteredTodos == response.value
      ensures response.None? ==> todos == old(todos) && filteredTodos == old(filteredTodos)
      ensures filters == old(filters) && sortBy == old(sortBy) && sortOrder == old(sortOrder)
    {
      isLoading := true;
      params := FetchParams(filters, sortBy, sortOrder);
      if response.Some? {
        todos := response.value;
        filteredTodos := response.value;
      }
      isLoading := false;
    }

    /** `createTodo`: the created todo goes first, the rest follow in order. */
    method CreateTodo(response: Option<ClientTodo>) returns (created: Option<ClientTodo>)
      modifies this`todos
      ensures created == response
      ensures response.Some? ==> todos == [response.value] + old(todos)
      ensures response.None? ==> todos == old(todos)
    {
      created := response;
      if response.Some? {
        todos := [response.value] + todos;
      }
    }

    /** `updateTodo`: every element with that id becomes the server's copy. */
    method UpdateTodo(id: string, response: Option<ClientTodo>) returns (updated: Option<ClientTodo>)
      modifies this`todos
      ensures updated == response
      ensures response.Some? ==> todos == ReplaceById(old(todos), id, response.value)
      ensures response.None? ==> todos == old(todos)
    {
      updated := response;
      if response.Some? {
        todos := ReplaceById(todos, id, response.value);
      }
    }

    /** `updateTodoStatus`: the same replacement; a failure is only reported. */
    method UpdateTodoStatus(id: string, response: Option<ClientTodo>)
      modifies this`todos
      ensures response.Some? ==> todos == ReplaceById(old(todos), id, response.value)
      ensures response.None? ==> todos == old(todos)
    {
      if response.Some? {
        todos := ReplaceById(todos, id, response.value);
      }
    }

    /** `deleteTodo`: on success the elements with that id leave the list. */
    method DeleteTodo(id: string, succeeded: bool)
      modifies this`todos
      ensures succeeded ==> todos == RemoveById(old(todos), id)
      ensures !succeeded ==> todos == old(todos)
    {
      if succeeded {
        todos := RemoveById(todos, id);
      }
    }

    /** `setFilters`: store the filters, then fetch with them. */
    method SetFilters(f: Filters, response: Option<seq<ClientTodo>>) returns (params: Params)
      modifies this
      ensures filters == f && sortBy == old(sortBy) && sortOrder == old(sortOrder)
      ensures params == FetchParams(f, old(sortBy), old(sortOrder))
      ensures !isLoading
      ensures response.Some? ==> todos == response.value && filteredTodos == response.value
      ensures response.None? ==> todos == old(todos) && filteredTodos == old(filteredTodos)
    {
      filters := f;
      params := FetchTodos(response);
    }

    /** `setSort`: store the sort, then fetch with it. */
    method SetSort(column: string, order: string, response: Option<seq<ClientTodo>>) returns (params: Params)
      modifies this
      ensures filters == old(filters) && sortBy == column && sortOrder == order
      ensures params == FetchParams(old(filters), column, order)
      ensures !isLoading
      ensures response.Some? ==> todos == response.value && filteredTodos == response.value
      ensures response.None? ==> todos == old(todos) && filteredTodos == old(filteredTodos)
    {
      sortBy, sortOrder := column, order;
      params := FetchTodos(response);
    }
  }
}
