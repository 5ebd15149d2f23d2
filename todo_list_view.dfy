/** The list the todo page shows (frontend/src/pages/TodoList.jsx): the store's todos
    narrowed by the page's search box and the store's status and priority filters. */
module TodoListView {
  import opened Wrappers
  import opened Text
  import opened ListOps
  import opened ClientStore

  /** The page's filter callback: a title search ignoring case, the status and priority
      filters unless `"all"`, and never a trashed todo. */
  predicate Visible(t: ClientTodo, searchTerm: string, f: Filters) {
    (searchTerm == "" || ContainsIgnoringCase(t.title, searchTerm)) &&
    (f.status == "all" || t.status == f.status) &&
    (f.priority == "all" || t.priority == f.priority) &&
    !t.isDeleted
  }

  function VisibleUnder(searchTerm: string, f: Filters): ClientTodo -> bool {
    (t: ClientTodo) => Visible(t, searchTerm, f)
  }

  /** `filteredTodos`: the todos the callback passes, in the store's order. Its length is
      the count shown above the list. */
  function FilteredTodos(todos: seq<ClientTodo>, searchTerm: string, f: Filters): (r: seq<ClientTodo>)
    ensures IsSubsequence(r, todos)
    ensures forall t | t in r :: Visible(t, searchTerm, f) && !t.isDeleted
    ensures forall t | t in todos && Visible(t, searchTerm, f) :: t in r
    ensures forall t :: multiset(r)[t] == if Visible(t, searchTerm, f) then multiset(todos)[t] else 0
    ensures |r| == |set i | 0 <= i < |todos| && Visible(todos[i], searchTerm, f)|
  {
    KeepIsSubsequence(todos, VisibleUnder(searchTerm, f));
    KeepMultiplicity(todos, VisibleUnder(searchTerm, f));
    VisibleCount(todos, searchTerm, f);
    Keep(todos, VisibleUnder(searchTerm, f))
  }

  /** The count above the list is the number of visible positions. */
  lemma VisibleCount(todos: seq<ClientTodo>, searchTerm: string, f: Filters)
    ensures |Keep(todos, VisibleUnder(searchTerm, f))| == |set i | 0 <= i < |todos| && Visible(todos[i], searchTerm, f)|
  {
    KeepCountsPositions(todos, VisibleUnder(searchTerm, f));
    assert PassingFrom(todos, VisibleUnder(searchTerm, f), 0)
        == set i | 0 <= i < |todos| && Visible(todos[i], searchTerm, f);
  }

  /** What each filter demands: an empty search passes every title, `"all"` passes every
      status and priority, and otherwise the value must be equal. */
  lemma VisibleMeans(t: ClientTodo, searchTerm: string, f: Filters)
    ensures Visible(t, "", InitialFilters()) <==> !t.isDeleted
    ensures Visible(t, searchTerm, f) && f.status != "all" ==> t.status == f.status
    ensures Visible(t, searchTerm, f) && f.priority != "all" ==> t.priority == f.priority
    ensures Visible(t, searchTerm, f) && searchTerm != "" ==> ContainsIgnoringCase(t.title, searchTerm)
  {
  }

  /** The search looks at the title only, and the store's category filter plays no part here. */
  lemma SearchIsTitleOnly(t: ClientTodo, searchTerm: string, f: Filters, d: Option<string>, c: Option<string>, cf: string)
    ensures Visible(t.(description := d, categoryId := c), searchTerm, f.(categoryId := cf)) <==> Visible(t, searchTerm, f)
  {
  }

  /** With no filter set, the page shows exactly the todos that are not in the trash. */
  lemma {:induction false} UnfilteredShowsLive(todos: seq<ClientTodo>)
    requires forall t | t in todos :: !t.isDeleted
    ensures FilteredTodos(todos, "", InitialFilters()) == todos
  {
    KeepEverything(todos, VisibleUnder("", InitialFilters()));
  }
}
