/** The dashboard's figures (frontend/src/pages/Dashboard.jsx), computed from the store's
    todos. Reading a due date is `instant` (`None` for text that is not a date), the
    clock is `now`, and whether an instant falls on the current calendar day is `isToday`. */
module Dashboard {
  import opened Wrappers
  import opened ListOps
  import opened ClientStore

  datatype Stats = Stats(total: nat, completed: nat, pending: nat, overdue: nat)

  function IsCompleted(): ClientTodo -> bool {
    (t: ClientTodo) => t.status == "completed"
  }

  /** Not completed and not in the trash. */
  function IsPending(): ClientTodo -> bool {
    (t: ClientTodo) => t.status != "completed" && !t.isDeleted
  }

  /** A due date that parses to an instant before `now` (`isPast`), on a todo not completed. */
  function IsOverdue(instant: string -> Option<int>, now: int): ClientTodo -> bool {
    (t: ClientTodo) => Truthy(t.dueDate) && instant(t.dueDate.value).Some? &&
                       instant(t.dueDate.value).value < now && t.status != "completed"
  }

  /** A due date on the current day, on a todo not completed. */
  function IsDueToday(instant: string -> Option<int>, isToday: int -> bool): ClientTodo -> bool {
    (t: ClientTodo) => Truthy(t.dueDate) && instant(t.dueDate.value).Some? &&
                       isToday(instant(t.dueDate.value).value) && t.status != "completed"
  }

  /** The four figures, each the number of positions in the list whose todo it counts.
      Completed todos are counted whether or not they are in the trash, pending ones only
      outside it; either way the figures never exceed the total. */
  function StatsOf(todos: seq<ClientTodo>, instant: string -> Option<int>, now: int): (s: Stats)
    ensures s.total == |todos|
    ensures s.completed == |set i | 0 <= i < |todos| && todos[i].status == "completed"|
    ensures s.pending == |set i | 0 <= i < |todos| && todos[i].status != "completed" && !todos[i].isDeleted|
    ensures s.overdue == |set i | 0 <= i < |todos| && IsOverdue(instant, now)(todos[i])|
    ensures s.completed + s.pending <= s.total
    ensures s.overdue <= s.total - s.completed
  {
    CompletedCount(todos);
    PendingCount(todos);
    OverdueCount(todos, instant, now);
    KeepDisjointBound(todos, IsCompleted(), IsPending());
    KeepDisjointBound(todos, IsCompleted(), IsOverdue(instant, now));
    Stats(|todos|, |Keep(todos, IsCompleted())|, |Keep(todos, IsPending())|,
          |Keep(todos, IsOverdue(instant, now))|)
  }

  /** Each figure is the number of positions whose todo it counts. */
  lemma CompletedCount(todos: seq<ClientTodo>)
    ensures |Keep(todos, IsCompleted())| == |set i | 0 <= i < |todos| && todos[i].status == "completed"|
  {
    KeepCountsPositions(todos, IsCompleted());
    assert PassingFrom(todos, IsCompleted(), 0) == set i | 0 <= i < |todos| && todos[i].status == "completed";
  }

  lemma PendingCount(todos: seq<ClientTodo>)
    ensures |Keep(todos, IsPending())| == |set i | 0 <= i < |todos| && todos[i].status != "completed" && !todos[i].isDeleted|
  {
    KeepCountsPositions(todos, IsPending());
    assert PassingFrom(todos, IsPending(), 0)
        == set i | 0 <= i < |todos| && todos[i].status != "completed" && !todos[i].isDeleted;
  }

  lemma OverdueCount(todos: seq<ClientTodo>, instant: string -> Option<int>, now: int)
    ensures |Keep(todos, IsOverdue(instant, now))| == |set i | 0 <= i < |todos| && IsOverdue(instant, now)(todos[i])|
  {
    KeepCountsPositions(todos, IsOverdue(instant, now));
    assert PassingFrom(todos, IsOverdue(instant, now), 0) == set i | 0 <= i < |todos| && IsOverdue(instant, now)(todos[i]);
  }

  /** With nothing in the trash, every todo is either completed or pending. */
  lemma CompletedAndPendingCoverLiveTodos(todos: seq<ClientTodo>, instant: string -> Option<int>, now: int)
    requires forall t | t in todos :: !t.isDeleted
    ensures StatsOf(todos, instant, now).completed + StatsOf(todos, instant, now).pending == |todos|
  {
    KeepPartition(todos, IsCompleted(), IsPending());
  }

  /** Overdue todos are a part of the not-completed ones, trashed or not. */
  lemma OverdueAreNotCompleted(todos: seq<ClientTodo>, instant: string -> Option<int>, now: int)
    ensures StatsOf(todos, instant, now).overdue <= |todos| - StatsOf(todos, instant, now).completed
    ensures forall t | t in Keep(todos, IsOverdue(instant, now)) :: t.status != "completed" && Truthy(t.dueDate)
  {
  }

  /** `todayTodos`: the todos due today that are not completed, in the store's order. */
  function TodayTodos(todos: seq<ClientTodo>, instant: string -> Option<int>, isToday: int -> bool): (r: seq<ClientTodo>)
    ensures IsSubsequence(r, todos)
    ensures forall t | t in r :: t.status != "completed" && Truthy(t.dueDate) &&
              instant(t.dueDate.value).Some? && isToday(instant(t.dueDate.value).value)
    ensures forall t | t in todos && IsDueToday(instant, isToday)(t) :: t in r
    ensures forall t :: multiset(r)[t] == if IsDueToday(instant, isToday)(t) then multiset(todos)[t] else 0
  {
    KeepIsSubsequence(todos, IsDueToday(instant, isToday));
    KeepMultiplicity(todos, IsDueToday(instant, isToday));
    Keep(todos, IsDueToday(instant, isToday))
  }
}
