/** The `Todo` table (models/Todo.js): column domains, defaults, and the two enum
    types with their database spellings. Dates are millisecond timestamps. */
module TodoModel {
  import opened Wrappers
  import opened UuidText

  /** A uuid column's value, held as the text PostgreSQL prints for it (`IsCanonical`). */
  type Uuid = string

  datatype Status = ToDo | InProgress | Completed

  datatype Priority = Low | Medium | High | Urgent

  function StatusName(s: Status): string {
    match s
    case ToDo => "to_do"
    case InProgress => "in_progress"
    case Completed => "completed"
  }

  /** The enum value a string names, if any (the column's `ENUM('to_do', 'in_progress', 'completed')`). */
  function ParseStatus(name: string): (r: Option<Status>)
    ensures r.Some? ==> StatusName(r.value) == name
  {
    if name == "to_do" then Some(ToDo)
    else if name == "in_progress" then Some(InProgress)
    else if name == "completed" then Some(Completed)
    else None
  }

  lemma ParseStatusName(s: Status)
    ensures ParseStatus(StatusName(s)) == Some(s)
  {
  }

  function PriorityName(p: Priority): string {
    match p
    case Low => "low"
    case Medium => "medium"
    case High => "high"
    case Urgent => "urgent"
  }

  /** The enum value a string names, if any (the column's `ENUM('low', 'medium', 'high', 'urgent')`). */
  function ParsePriority(name: string): (r: Option<Priority>)
    ensures r.Some? ==> PriorityName(r.value) == name
  {
    if name == "low" then Some(Low)
    else if name == "medium" then Some(Medium)
    else if name == "high" then Some(High)
    else if name == "urgent" then Some(Urgent)
    else None
  }

  lemma ParsePriorityName(p: Priority)
    ensures ParsePriority(PriorityName(p)) == Some(p)
  {
  }

  /** The labels of `ENUM('to_do', 'in_progress', 'completed')`, in declaration order. */
  const StatusLabels: seq<string> := ["to_do", "in_progress", "completed"]

  /** The labels of `ENUM('low', 'medium', 'high', 'urgent')`, in declaration order. */
  const PriorityLabels: seq<string> := ["low", "medium", "high", "urgent"]

  /** Position of a value's label in its enum's declaration; PostgreSQL orders enum columns this way. */
  function StatusRank(s: Status): (r: nat)
    ensures r < |StatusLabels| && StatusLabels[r] == StatusName(s)
  {
    match s
    case ToDo => 0
    case InProgress => 1
    case Completed => 2
  }

  function PriorityRank(p: Priority): (r: nat)
    ensures r < |PriorityLabels| && PriorityLabels[r] == PriorityName(p)
  {
    match p
    case Low => 0
    case Medium => 1
    case High => 2
    case Urgent => 3
  }

  /** `ORDER BY status` puts to_do before in_progress before completed, and `ORDER BY priority`
      low before medium before high before urgent; distinct values never tie. */
  lemma EnumDeclarationOrder(s1: Status, s2: Status, p1: Priority, p2: Priority)
    ensures StatusRank(ToDo) < StatusRank(InProgress) < StatusRank(Completed)
    ensures PriorityRank(Low) < PriorityRank(Medium) < PriorityRank(High) < PriorityRank(Urgent)
    ensures StatusRank(s1) == StatusRank(s2) <==> s1 == s2
    ensures PriorityRank(p1) == PriorityRank(p2) <==> p1 == p2
  {
    ParseStatusName(s1);
    ParseStatusName(s2);
    ParsePriorityName(p1);
    ParsePriorityName(p2);
  }

  const MaxTitleLength: nat := 200

  datatype Todo = Todo(
    id: Uuid,
    userId: Uuid,
    title: string,
    description: Option<string>,
    status: Option<Status>,
    priority: Option<Priority>,
    dueDate: Option<int>,
    categoryId: Option<Uuid>,
    isDeleted: bool,
    deletedAt: Option<int>,
    completedAt: Option<int>,
    position: int,
    createdAt: int,
    updatedAt: int)

  /** What the columns themselves admit: `title` is a non-null `STRING(200)`, and the uuid
      columns hold uuid values. `status` and `priority` declare no `allowNull: false`, so
      they may be null. */
  predicate Storable(t: Todo) {
    |t.title| <= MaxTitleLength && IsCanonical(t.id) &&
    (t.categoryId.Some? ==> IsCanonical(t.categoryId.value))
  }

  /** The trash flag and its timestamp are set and cleared together. */
  predicate TrashConsistent(t: Todo) {
    t.isDeleted <==> t.deletedAt.Some?
  }

  /** The row `Todo.create` inserts when only the owner and title are given:
      every other column takes its declared default or is null. */
  function DefaultTodo(id: Uuid, userId: Uuid, title: string, now: int): (t: Todo)
    ensures t.id == id && t.userId == userId && t.title == title
    ensures t.status == Some(ToDo) && t.priority == Some(Medium)
    ensures !t.isDeleted && t.deletedAt == None
    ensures t.description == None && t.dueDate == None && t.categoryId == None && t.completedAt == None
    ensures t.position == 0
    ensures t.createdAt == now && t.updatedAt == now
  {
    Todo(id, userId, title, None, Some(ToDo), Some(Medium), None, None, false, None, None, 0, now, now)
  }

  /** A freshly created row is out of the trash, and storable when its title fits the column
      and its id is a uuid. */
  lemma DefaultTodoConsistent(id: Uuid, userId: Uuid, title: string, now: int)
    ensures TrashConsistent(DefaultTodo(id, userId, title, now))
    ensures Storable(DefaultTodo(id, userId, title, now)) <==> |title| <= MaxTitleLength && IsCanonical(id)
  {
  }
}
