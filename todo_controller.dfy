/** The todo handlers of controllers/todoController.js over an in-memory `Todo` table.
    Each handler is one step on a `TodoStore`; the record changes it makes are the pure
    functions below, about which the lemmas speak. Times are passed in as `now`. */
module TodoController {
  import opened Wrappers
  import opened Text
  import opened UuidText
  import opened Sorting
  import opened Paging
  import opened TodoModel
  import opened TodoValidator
  import opened TodoQuery
  import opened Selection

  /** A JSON key as the column value it sets: absent and `null` both give null. */
  function OptionOf<T>(f: Field<T>): (o: Option<T>)
    ensures o.Some? <==> f.Present?
    ensures o.Some? ==> o.value == f.value
  {
    if f.Present? then Some(f.value) else None
  }

  /** `todo.setTags(list)` replaces the whole set; `setTags(null)` clears it. */
  function TagSet(f: Field<seq<Uuid>>): (s: set<Uuid>)
    ensures forall x :: x in s <==> f.Present? && x in f.value
  {
    if f.Present? then set x | x in f.value else {}
  }

  /** The value a body key gives the `status` column: an absent key leaves `current`,
      `null` stores null, and a name stores the enum value it names. */
  function StatusOf(f: Field<string>, current: Option<Status>): (s: Option<Status>)
    requires f.Present? ==> ParseStatus(f.value).Some?
    ensures f.Absent? ==> s == current
    ensures f.Null? ==> s == None
    ensures f.Present? ==> s.Some? && StatusName(s.value) == f.value
  {
    match f
    case Absent => current
    case Null => None
    case Present(name) => ParseStatus(name)
  }

  /** The value a body key gives the `priority` column, by the same rules. */
  function PriorityOf(f: Field<string>, current: Option<Priority>): (p: Option<Priority>)
    requires f.Present? ==> ParsePriority(f.value).Some?
    ensures f.Absent? ==> p == current
    ensures f.Null? ==> p == None
    ensures f.Present? ==> p.Some? && PriorityName(p.value) == f.value
  {
    match f
    case Absent => current
    case Null => None
    case Present(name) => ParsePriority(name)
  }

  /** The value a body key gives the `categoryId` column: the uuid its text denotes. */
  function CategoryOf(f: Field<string>, current: Option<Uuid>): (c: Option<Uuid>)
    requires f.Present? ==> ParseUuid(f.value).Some?
    ensures f.Absent? ==> c == current
    ensures f.Null? ==> c == None
    ensures f.Present? ==> c.Some? && IsCanonical(c.value) && c == ParseUuid(f.value)
  {
    match f
    case Absent => current
    case Null => None
    case Present(text) => ParseUuid(text)
  }

  /** A body `Todo.create` can store: a non-null title that fits `STRING(200)`, enum
      names the enum columns know, and a category id the database reads as a uuid. */
  predicate CreateStorable(b: TodoBody) {
    b.title.Present? && |b.title.value| <= MaxTitleLength &&
    (b.priority.Present? ==> ParsePriority(b.priority.value).Some?) &&
    (b.status.Present? ==> ParseStatus(b.status.value).Some?) &&
    (b.categoryId.Present? ==> ParseUuid(b.categoryId.value).Some?)
  }

  /** A body `todo.update` can store: the same column rules, with every key optional;
      `userId`, like `title`, is `allowNull: false`. */
  predicate UpdateStorable(b: TodoBody) {
    !b.title.Null? && !b.userId.Null? && (b.title.Present? ==> |b.title.value| <= MaxTitleLength) &&
    (b.priority.Present? ==> ParsePriority(b.priority.value).Some?) &&
    (b.status.Present? ==> ParseStatus(b.status.value).Some?) &&
    (b.categoryId.Present? ==> ParseUuid(b.categoryId.value).Some?)
  }

  /** The foreign key from `todos.category_id` to `categories.id`: a given category id must
      name an existing category, of any owner. */
  predicate CategoryKnown(f: Field<string>, categories: set<Uuid>) {
    f.Present? ==> ParseUuid(f.value).Some? && ParseUuid(f.value).value in categories
  }

  /** A body the create or update schema accepts fits the columns exactly when the database
      reads its category id, which it does for every spelling Joi accepts without `:`, `[]`
      or `()`. Such a body has no null enum and no tags. */
  lemma ValidatedBodiesAreStorable(b: TodoBody)
    ensures ValidCreateBody(b) ==> !b.priority.Null? && !b.status.Null? && b.tags.Absent?
    ensures ValidCreateBody(b) ==>
              (CreateStorable(b) <==> (b.categoryId.Present? ==> ParseUuid(b.categoryId.value).Some?))
    ensures ValidUpdateBody(b) ==> !b.priority.Null? && !b.status.Null? && b.tags.Absent?
    ensures ValidUpdateBody(b) ==>
              (UpdateStorable(b) <==> (b.categoryId.Present? ==> ParseUuid(b.categoryId.value).Some?))
    ensures ((ValidCreateBody(b) || ValidUpdateBody(b)) && b.categoryId.Present? && PlainSpelling(b.categoryId.value))
            ==> ParseUuid(b.categoryId.value).Some?
  {
    if (ValidCreateBody(b) || ValidUpdateBody(b)) && b.categoryId.Present? && PlainSpelling(b.categoryId.value) {
      JoiSpellingsPostgresReads(b.categoryId.value);
    }
  }

  /** The create schema lets through a colon-separated category id, which the database refuses. */
  lemma ValidatedColonIdIsRefused(b: TodoBody)
    requires ValidCreateBody(b.(categoryId := Absent))
    ensures var text := "123e4567:e89b:12d3:a456:426614174000";
            ValidCreateBody(b.(categoryId := Present(text))) && !CreateStorable(b.(categoryId := Present(text)))
  {
    var text := "123e4567:e89b:12d3:a456:426614174000";
    assert IsGrouped(text, ':');
    ColonSpellingIsRefused(text);
  }

  /** The row `Todo.create({ ...body, userId })` inserts. Column defaults apply to missing
      keys only: an explicit `null` priority or status is stored as null. */
  function CreatedTodo(owner: Uuid, b: TodoBody, id: Uuid, now: int): (t: Todo)
    requires CreateStorable(b)
    ensures t.id == id && t.userId == owner && t.title == b.title.value
    ensures b.priority.Absent? ==> t.priority == Some(Medium)
    ensures b.priority.Null? ==> t.priority == None
    ensures b.priority.Present? ==> t.priority.Some? && PriorityName(t.priority.value) == b.priority.value
    ensures b.status.Absent? ==> t.status == Some(ToDo)
    ensures b.status.Null? ==> t.status == None
    ensures b.status.Present? ==> t.status.Some? && StatusName(t.status.value) == b.status.value
    ensures t.description == OptionOf(b.description) && t.dueDate == OptionOf(b.dueDate)
    ensures b.categoryId.Present? ==> t.categoryId == ParseUuid(b.categoryId.value)
    ensures !b.categoryId.Present? ==> t.categoryId == None
    ensures !t.isDeleted && t.deletedAt == None && t.completedAt == None && t.position == 0
    ensures t.createdAt == now && t.updatedAt == now
    ensures TrashConsistent(t) && (Storable(t) <==> IsCanonical(id))
  {
    var d := DefaultTodo(id, owner, b.title.value, now);
    d.(description := OptionOf(b.description),
       priority := PriorityOf(b.priority, d.priority),
       status := StatusOf(b.status, d.status),
       dueDate := OptionOf(b.dueDate),
       categoryId := CategoryOf(b.categoryId, None))
  }

  /** The owner is always the caller, whatever `userId` the body carries. */
  lemma CreateIgnoresBodyOwner(owner: Uuid, b: TodoBody, other: Uuid, id: Uuid, now: int)
    requires CreateStorable(b)
    ensures CreatedTodo(owner, b.(userId := Present(other)), id, now) == CreatedTodo(owner, b, id, now)
    ensures CreatedTodo(owner, b.(userId := Present(other)), id, now).userId == owner
  {
  }

  /** Creating does not stamp `completedAt`, even for a todo created as completed. */
  lemma CreateCompletedHasNoCompletedAt(owner: Uuid, b: TodoBody, id: Uuid, now: int)
    requires CreateStorable(b) && b.status == Present("completed")
    ensures CreatedTodo(owner, b, id, now).status == Some(Completed)
    ensures CreatedTodo(owner, b, id, now).completedAt == None
  {
  }

  /** The row after `todo.update(body)` has assigned the keys the body holds. */
  function UpdatedTodo(t: Todo, b: TodoBody): (u: Todo)
    requires UpdateStorable(b)
    ensures u.id == t.id && u.createdAt == t.createdAt && u.updatedAt == t.updatedAt
    ensures u.isDeleted == t.isDeleted && u.deletedAt == t.deletedAt
    ensures u.completedAt == t.completedAt && u.position == t.position
    ensures Storable(t) ==> Storable(u)
  {
    t.(userId := if b.userId.Present? then b.userId.value else t.userId,
       title := if b.title.Present? then b.title.value else t.title,
       description := if b.description.Absent? then t.description else OptionOf(b.description),
       priority := PriorityOf(b.priority, t.priority),
       status := StatusOf(b.status, t.status),
       dueDate := if b.dueDate.Absent? then t.dueDate else OptionOf(b.dueDate),
       categoryId := CategoryOf(b.categoryId, t.categoryId))
  }

  /** Only the keys present in the body change; a present key sets its column, `null`
      clears it. */
  lemma UpdateChangesOnlyGivenKeys(t: Todo, b: TodoBody)
    requires UpdateStorable(b)
    ensures b.title.Absent? ==> UpdatedTodo(t, b).title == t.title
    ensures b.title.Present? ==> UpdatedTodo(t, b).title == b.title.value
    ensures b.description.Absent? ==> UpdatedTodo(t, b).description == t.description
    ensures !b.description.Absent? ==> UpdatedTodo(t, b).description == OptionOf(b.description)
    ensures b.priority.Absent? ==> UpdatedTodo(t, b).priority == t.priority
    ensures b.priority.Null? ==> UpdatedTodo(t, b).priority == None
    ensures b.priority.Present? ==>
              UpdatedTodo(t, b).priority.Some? && PriorityName(UpdatedTodo(t, b).priority.value) == b.priority.value
    ensures b.status.Absent? ==> UpdatedTodo(t, b).status == t.status
    ensures b.status.Null? ==> UpdatedTodo(t, b).status == None
    ensures b.status.Present? ==>
              UpdatedTodo(t, b).status.Some? && StatusName(UpdatedTodo(t, b).status.value) == b.status.value
    ensures b.dueDate.Absent? ==> UpdatedTodo(t, b).dueDate == t.dueDate
    ensures b.dueDate.Null? ==> UpdatedTodo(t, b).dueDate == None
    ensures b.dueDate.Present? ==> UpdatedTodo(t, b).dueDate == Some(b.dueDate.value)
    ensures b.categoryId.Absent? ==> UpdatedTodo(t, b).categoryId == t.categoryId
    ensures b.categoryId.Null? ==> UpdatedTodo(t, b).categoryId == None
    ensures b.categoryId.Present? ==> UpdatedTodo(t, b).categoryId == ParseUuid(b.categoryId.value)
    ensures b.userId.Absent? ==> UpdatedTodo(t, b).userId == t.userId
    ensures b.userId.Present? ==> UpdatedTodo(t, b).userId == b.userId.value
  {
  }

  /** An empty body changes nothing, and applying a body twice is applying it once. */
  lemma UpdateIdempotent(t: Todo, b: TodoBody)
    requires UpdateStorable(b)
    ensures UpdatedTodo(UpdatedTodo(t, b), b) == UpdatedTodo(t, b)
    ensures b == TodoBody(Absent, Absent, Absent, Absent, Absent, Absent, Absent, Absent) ==> UpdatedTodo(t, b) == t
  {
  }

  /** A status set through `todo.update` leaves `completedAt` as it was. */
  lemma UpdateStatusKeepsCompletedAt(t: Todo, b: TodoBody)
    requires UpdateStorable(b) && b.status == Present("completed")
    requires t.status != Some(Completed) && t.completedAt == None
    ensures UpdatedTodo(t, b).status == Some(Completed) && UpdatedTodo(t, b).completedAt == None
  {
  }

  /** `instance.save()`: `updatedAt` is stamped when some column changed, and nothing is written otherwise. */
  function Saved(before: Todo, after: Todo, now: int): (t: Todo)
    ensures after == before ==> t == before
    ensures after != before ==> t == after.(updatedAt := now)
  {
    if after == before then before else after.(updatedAt := now)
  }

  /** `updateTodoStatus`: the status is set, possibly to null, and `completedAt` is stamped
      exactly for `completed`. */
  function WithStatus(t: Todo, s: Option<Status>, now: int): (u: Todo)
    ensures u.status == s
    ensures u.completedAt.Some? <==> s == Some(Completed)
    ensures s == Some(Completed) ==> u.completedAt == Some(now)
    ensures u.(status := t.status, completedAt := t.completedAt) == t
  {
    t.(status := s, completedAt := if s == Some(Completed) then Some(now) else None)
  }

  /** The status `todo.status = status` stores from the body's key: a missing or `null`
      status stores null. */
  function RequestedStatus(f: Field<string>): (s: Option<Status>)
    requires f.Present? ==> ParseStatus(f.value).Some?
    ensures s.Some? <==> f.Present?
    ensures s.Some? ==> StatusName(s.value) == f.value
  {
    StatusOf(f, None)
  }

  /** Completing and then reopening: stamped after the first change, cleared after the second. */
  lemma CompleteThenReopen(t: Todo, n1: int, n2: int)
    ensures WithStatus(t, Some(Completed), n1).completedAt == Some(n1)
    ensures WithStatus(WithStatus(t, Some(Completed), n1), Some(ToDo), n2).completedAt == None
    ensures WithStatus(WithStatus(t, Some(Completed), n1), Some(ToDo), n2).status == Some(ToDo)
  {
  }

  /** A status change without a status clears both the status and its completion stamp. */
  lemma MissingStatusClears(t: Todo, now: int)
    ensures WithStatus(t, RequestedStatus(Absent), now).status == None
    ensures WithStatus(t, RequestedStatus(Null), now).status == None
    ensures WithStatus(t, RequestedStatus(Absent), now).completedAt == None
  {
  }

  /** `deleteTodo`: into the trash, stamped now, whether or not it was there already. */
  function Trashed(t: Todo, now: int): (u: Todo)
    ensures u.isDeleted && u.deletedAt == Some(now) && TrashConsistent(u)
    ensures u.(isDeleted := t.isDeleted, deletedAt := t.deletedAt) == t
  {
    t.(isDeleted := true, deletedAt := Some(now))
  }

  /** `restoreTodo`: out of the trash, both fields cleared. */
  function Untrashed(t: Todo): (u: Todo)
    ensures !u.isDeleted && u.deletedAt == None && TrashConsistent(u)
    ensures u.(isDeleted := t.isDeleted, deletedAt := t.deletedAt) == t
  {
    t.(isDeleted := false, deletedAt := None)
  }

  /** Restoring a todo that was deleted from the live list gives it back as it was,
      apart from `updatedAt`. */
  lemma {:induction false} RestoreUndoesDelete(t: Todo, n1: int, n2: int)
    requires !t.isDeleted && TrashConsistent(t)
    ensures Saved(Saved(t, Trashed(t, n1), n1), Untrashed(Saved(t, Trashed(t, n1), n1)), n2)
            == t.(updatedAt := n2)
  {
    var d := Saved(t, Trashed(t, n1), n1);
    assert Trashed(t, n1) != t by { assert Trashed(t, n1).isDeleted; }
    assert d == Trashed(t, n1).(updatedAt := n1);
    assert Untrashed(d) == t.(updatedAt := n1);
    assert Untrashed(d) != d by { assert d.isDeleted; }
  }

  /** The name in `Bulk ${operation} completed successfully`. */
  function OperationName(op: BulkOperation): string {
    match op
    case Delete => "delete"
    case Complete => "complete"
    case Uncomplete => "uncomplete"
    case SetPriority(_) => "setPriority"
    case SetCategory(_) => "setCategory"
    case Unhandled(name) => name
  }

  /** What the static `Todo.update` of one operation does to one selected row; the static
      update always stamps `updatedAt`. An unhandled operation issues no update. */
  function BulkApplied(t: Todo, op: BulkOperation, now: int): (u: Todo)
    ensures op.Unhandled? ==> u == t
    ensures !op.Unhandled? ==> u.updatedAt == now
    ensures u.id == t.id && u.userId == t.userId && u.title == t.title && u.createdAt == t.createdAt
    ensures op.Complete? ==> u.status == Some(Completed) && u.completedAt == Some(now)
    ensures op.Uncomplete? ==> u.status == Some(ToDo) && u.completedAt == None
    ensures op.Delete? ==> u.isDeleted && u.deletedAt == Some(now)
    ensures !op.Delete? ==> u.isDeleted == t.isDeleted && u.deletedAt == t.deletedAt
    ensures op.SetPriority? ==> u.priority == Some(op.priority)
    ensures op.SetCategory? ==> u.categoryId == ParseUuid(op.categoryId)
  {
    match op
    case Delete => t.(isDeleted := true, deletedAt := Some(now), updatedAt := now)
    case Complete => t.(status := Some(Completed), completedAt := Some(now), updatedAt := now)
    case Uncomplete => t.(status := Some(ToDo), completedAt := None, updatedAt := now)
    case SetPriority(p) => t.(priority := Some(p), updatedAt := now)
    case SetCategory(c) => t.(categoryId := ParseUuid(c), updatedAt := now)
    case Unhandled(_) => t
  }

  /** The database reads every listed id as a uuid. */
  predicate AllIdsRead(ids: seq<string>) {
    forall i | 0 <= i < |ids| :: ParseUuid(ids[i]).Some?
  }

  /** The uuids the listed ids denote. */
  function IdKeys(ids: seq<string>): (keys: set<Uuid>)
    ensures forall k | k in keys :: IsCanonical(k)
  {
    set i | 0 <= i < |ids| && ParseUuid(ids[i]).Some? :: ParseUuid(ids[i]).value
  }

  /** A listed id in any letter case denotes the same row. */
  lemma IdKeysIgnoreCase(ids: seq<string>, i: nat)
    requires i < |ids| && ParseUuid(ids[i]).Some?
    ensures ParseUuid(ids[i]).value in IdKeys(ids)
    ensures ParseUuid(ids[i]).value in IdKeys(ids[i := Lower(ids[i])])
  {
    ParseIgnoresCase(ids[i]);
    assert ids[i := Lower(ids[i])][i] == Lower(ids[i]);
  }

  /** The update of the operation can be stored: a `setCategory` value is read as a uuid and
      names an existing category (the foreign key). */
  predicate BulkStorable(op: BulkOperation, categories: set<Uuid>) {
    op.SetCategory? ==> ParseUuid(op.categoryId).Some? && ParseUuid(op.categoryId).value in categories
  }

  /** The rows `where: { id: todoIds, userId }` selects. */
  function BulkTargets(table: map<Uuid, Todo>, owner: Uuid, keys: set<Uuid>): (s: set<Uuid>)
    ensures forall k :: k in s <==> k in table && k in keys && table[k].userId == owner
  {
    set k | k in table.Keys && k in keys && table[k].userId == owner
  }

  /** The table after a bulk operation: each selected row changed, every other row as it was. */
  function BulkResult(table: map<Uuid, Todo>, owner: Uuid, keys: set<Uuid>, op: BulkOperation, now: int)
    : (r: map<Uuid, Todo>)
    ensures r.Keys == table.Keys
  {
    map k | k in table :: if k in BulkTargets(table, owner, keys) then BulkApplied(table[k], op, now) else table[k]
  }

  /** A bulk operation touches exactly the caller's listed todos: rows of other owners,
      and the caller's rows not listed, are unchanged. */
  lemma BulkTouchesOnlyOwnedListed(table: map<Uuid, Todo>, owner: Uuid, keys: set<Uuid>, op: BulkOperation, now: int, k: Uuid)
    requires k in table
    ensures table[k].userId != owner ==> BulkResult(table, owner, keys, op, now)[k] == table[k]
    ensures k !in keys ==> BulkResult(table, owner, keys, op, now)[k] == table[k]
    ensures k in keys && table[k].userId == owner ==> BulkResult(table, owner, keys, op, now)[k] == BulkApplied(table[k], op, now)
    ensures BulkResult(table, owner, keys, op, now)[k].userId == table[k].userId
  {
  }

  /** After `complete` or `uncomplete`, every touched row has `completedAt` exactly when it is completed. */
  lemma BulkCompletionConsistent(table: map<Uuid, Todo>, owner: Uuid, keys: set<Uuid>, op: BulkOperation, now: int, k: Uuid)
    requires k in BulkTargets(table, owner, keys) && (op.Complete? || op.Uncomplete?)
    ensures var u := BulkResult(table, owner, keys, op, now)[k];
            u.completedAt.Some? <==> u.status == Some(Completed)
  {
  }

  /** Every row is stored under its own id, fits its columns (so its id and category id are
      canonical uuid text), and has its trash fields in step. */
  predicate WellFormed(table: map<Uuid, Todo>) {
    forall k | k in table :: table[k].id == k && Storable(table[k]) && TrashConsistent(table[k])
  }

  /** The rows of `done` have had the operation applied, the others are as in `before`. */
  ghost predicate AppliedTo(cur: map<Uuid, Todo>, before: map<Uuid, Todo>, done: set<Uuid>, op: BulkOperation, now: int) {
    cur.Keys == before.Keys &&
    forall k | k in cur :: cur[k] == if k in done then BulkApplied(before[k], op, now) else before[k]
  }

  lemma AppliedStep(cur: map<Uuid, Todo>, before: map<Uuid, Todo>, done: set<Uuid>, k: Uuid, op: BulkOperation, now: int)
    requires AppliedTo(cur, before, done, op, now) && k in cur && k !in done
    ensures AppliedTo(cur[k := BulkApplied(cur[k], op, now)], before, done + {k}, op, now)
  {
  }

  lemma AppliedAll(cur: map<Uuid, Todo>, before: map<Uuid, Todo>, owner: Uuid, keys: set<Uuid>, op: BulkOperation, now: int)
    requires WellFormed(before)
    requires AppliedTo(cur, before, BulkTargets(before, owner, keys), op, now)
    ensures cur == BulkResult(before, owner, keys, op, now)
    ensures WellFormed(cur)
  {
    BulkResultWellFormed(before, owner, keys, op, now);
  }

  /** A bulk operation keeps every row well formed. */
  lemma BulkResultWellFormed(table: map<Uuid, Todo>, owner: Uuid, keys: set<Uuid>, op: BulkOperation, now: int)
    requires WellFormed(table)
    ensures WellFormed(BulkResult(table, owner, keys, op, now))
  {
  }

  /** The `where` object of `getTodos` as a row filter. */
  function MatchesQuery(owner: Uuid, q: Query): Todo -> bool {
    (t: Todo) => Selected(t, owner, q)
  }

  /** The `where` object of `getTrash`. */
  function InTrashOf(owner: Uuid): Todo -> bool {
    (t: Todo) => t.userId == owner && t.isDeleted
  }

  /** `(page - 1) * limit`. */
  function Offset(q: Query): int {
    (q.page - 1) * q.limit
  }

  /** The database reads each filter that takes part: an enum name, or uuid text. */
  predicate FiltersRead(q: Query) {
    (Truthy(q.status) ==> ParseStatus(q.status.value).Some?) &&
    (Truthy(q.priority) ==> ParsePriority(q.priority.value).Some?) &&
    (Truthy(q.categoryId) ==> ParseUuid(q.categoryId.value).Some?)
  }

  /** The database runs the query: filters it reads, a known column and direction, and no
      negative LIMIT or OFFSET (an OFFSET of 0 is left out of the SQL). */
  predicate Runnable(q: Query) {
    FiltersRead(q) &&
    ParseColumn(q.sortBy).Some? && ParseDirection(q.sortOrder).Some? && q.limit >= 0 && Offset(q) >= 0
  }

  /** The JSON of a successful `GET /todos`: one page, the pre-slice count, and `totalPages`
      (`Math.ceil(total / limit)`, which is not a finite number, and so `null` in JSON, for a limit of 0). */
  datatype Listing = Listing(todos: seq<Todo>, total: nat, page: int, limit: int, totalPages: Option<nat>)

  /** Every row any of these listings holds belongs to the caller. */
  lemma ListingIsOwnerScoped(rows: seq<Todo>, table: map<Uuid, Todo>, owner: Uuid, q: Query)
    requires ListsExactly(multiset(rows), table, SelectIds(table, MatchesQuery(owner, q)), TodoId)
    ensures forall t | t in rows :: t.userId == owner && Selected(t, owner, q)
  {
    ListedRowsSelected(rows, table, MatchesQuery(owner, q), TodoId);
  }

  class TodoStore {
    /** The `todos` table, by id. */
    var todos: map<Uuid, Todo>
    /** The `TodoTag` join rows: the tag ids linked to each todo. */
    var tags: map<Uuid, set<Uuid>>

    ghost predicate Valid()
      reads this
    {
      WellFormed(todos)
    }

    constructor ()
      ensures Valid() && todos == map[] && tags == map[]
    {
      todos := map[];
      tags := map[];
    }

    /** `GET /todos`: filter, order, then one page. `all` is the whole ordered match. */
    method GetTodos(owner: Uuid, q: Query) returns (r: Reply<Listing>, ghost all: seq<Todo>)
      requires Valid()
      ensures !r.Reject?
      ensures r.StorageFailure? <==> !Runnable(q)
      ensures r.Done? ==>
        ListsExactly(multiset(all), todos, SelectIds(todos, MatchesQuery(owner, q)), TodoId) &&
        SortedBy(all, SortKey(ParseColumn(q.sortBy).value), ParseDirection(q.sortOrder).value) &&
        r.value.todos == Window(all, Offset(q), q.limit) &&
        r.value.total == |all| == |SelectIds(todos, MatchesQuery(owner, q))| &&
        r.value.page == q.page && r.value.limit == q.limit &&
        r.value.totalPages == (if q.limit == 0 then None else Some(CeilDiv(|all|, q.limit)))
    {
      if !Runnable(q) {
        return StorageFailure, [];
      }
      var rows := CollectRows(todos, MatchesQuery(owner, q), TodoId);
      var col, dir := ParseColumn(q.sortBy).value, ParseDirection(q.sortOrder).value;
      var sorted := SortBy(rows, SortKey(col), dir);
      SortBySorted(rows, SortKey(col), dir);
      var pages := if q.limit == 0 then None else Some(CeilDiv(|sorted|, q.limit));
      r := Done(Listing(Window(sorted, Offset(q), q.limit), |sorted|, q.page, q.limit, pages));
      all := sorted;
    }

    /** `GET /todos/:id`: the caller's todo, trashed or not; anyone else's is not found.
        An id the database cannot read as a uuid fails the query before any lookup. */
    method GetTodo(owner: Uuid, id: string) returns (r: Reply<Todo>)
      ensures ParseUuid(id).None? <==> r.StorageFailure?
      ensures ParseUuid(id).Some? ==> var k := ParseUuid(id).value;
        (r.Done? <==> k in todos && todos[k].userId == owner) &&
        (r.Done? ==> r.value == todos[k]) &&
        (!r.Done? ==> r == Reject(404, "Todo not found"))
    {
      var key := ParseUuid(id);
      if key.None? {
        return StorageFailure;
      }
      var k := key.value;
      if k in todos && todos[k].userId == owner {
        r := Done(todos[k]);
      } else {
        r := Reject(404, "Todo not found");
      }
    }

    /** `POST /todos`: insert under the caller, then link tags when a non-empty list is given.
        The insert fails when a column refuses its value or the category does not exist. */
    method CreateTodo(owner: Uuid, body: TodoBody, newId: Uuid, categories: set<Uuid>, now: int)
      returns (r: Reply<Todo>)
      requires Valid() && IsCanonical(newId) && newId !in todos && newId !in tags
      modifies this
      ensures Valid()
      ensures !(CreateStorable(body) && CategoryKnown(body.categoryId, categories)) ==>
        r == StorageFailure && todos == old(todos) && tags == old(tags)
      ensures CreateStorable(body) && CategoryKnown(body.categoryId, categories) ==>
        r == Done(CreatedTodo(owner, body, newId, now)) &&
        todos == old(todos)[newId := r.value] &&
        tags == if body.tags.Present? && |body.tags.value| > 0 then old(tags)[newId := TagSet(body.tags)]
                else old(tags)
    {
      if !(CreateStorable(body) && CategoryKnown(body.categoryId, categories)) {
        return StorageFailure;
      }
      var t := CreatedTodo(owner, body, newId, now);
      todos := todos[newId := t];
      if body.tags.Present? && |body.tags.value| > 0 {
        tags := tags[newId := TagSet(body.tags)];
      }
      r := Done(t);
    }

    /** `PUT /todos/:id`: assign the given keys to the caller's todo; a `tags` key, even an
        empty list, replaces its whole tag set. */
    method UpdateTodo(owner: Uuid, id: string, body: TodoBody, categories: set<Uuid>, now: int)
      returns (r: Reply<Todo>)
      requires Valid()
      modifies this
      ensures Valid()
      ensures ParseUuid(id).None? ==> r == StorageFailure && todos == old(todos) && tags == old(tags)
      ensures ParseUuid(id).Some? ==> var k := ParseUuid(id).value;
        (!(k in old(todos) && old(todos)[k].userId == owner) ==>
          r == Reject(404, "Todo not found") && todos == old(todos) && tags == old(tags)) &&
        (k in old(todos) && old(todos)[k].userId == owner &&
         !(UpdateStorable(body) && CategoryKnown(body.categoryId, categories)) ==>
          r == StorageFailure && todos == old(todos) && tags == old(tags)) &&
        (k in old(todos) && old(todos)[k].userId == owner &&
         UpdateStorable(body) && CategoryKnown(body.categoryId, categories) ==>
          todos == old(todos)[k := Saved(old(todos)[k], UpdatedTodo(old(todos)[k], body), now)] &&
          r == Done(todos[k]) &&
          tags == if body.tags.Absent? then old(tags) else old(tags)[k := TagSet(body.tags)])
    {
      var key := ParseUuid(id);
      if key.None? {
        return StorageFailure;
      }
      var k := key.value;
      if !(k in todos && todos[k].userId == owner) {
        return Reject(404, "Todo not found");
      }
      if !(UpdateStorable(body) && CategoryKnown(body.categoryId, categories)) {
        return StorageFailure;
      }
      var t := todos[k];
      var u := Saved(t, UpdatedTodo(t, body), now);
      todos := todos[k := u];
      if !body.tags.Absent? {
        tags := tags[k := TagSet(body.tags)];
      }
      r := Done(u);
    }

    /** `PATCH /todos/:id/status`: no validator guards this route, so a name outside the
        enum reaches the database, which refuses it, and a missing or `null` status
        stores null. */
    method UpdateTodoStatus(owner: Uuid, id: string, status: Field<string>, now: int) returns (r: Reply<Todo>)
      requires Valid()
      modifies this`todos
      ensures Valid()
      ensures ParseUuid(id).None? ==> r == StorageFailure && todos == old(todos)
      ensures ParseUuid(id).Some? ==> var k := ParseUuid(id).value;
        (!(k in old(todos) && old(todos)[k].userId == owner) ==>
          r == Reject(404, "Todo not found") && todos == old(todos)) &&
        (k in old(todos) && old(todos)[k].userId == owner && status.Present? && ParseStatus(status.value).None? ==>
          r == StorageFailure && todos == old(todos)) &&
        (k in old(todos) && old(todos)[k].userId == owner && (status.Present? ==> ParseStatus(status.value).Some?) ==>
          todos == old(todos)[k := Saved(old(todos)[k], WithStatus(old(todos)[k], RequestedStatus(status), now), now)] &&
          r == Done(todos[k]))
    {
      var key := ParseUuid(id);
      if key.None? {
        return StorageFailure;
      }
      var k := key.value;
      if !(k in todos && todos[k].userId == owner) {
        return Reject(404, "Todo not found");
      }
      if status.Present? && ParseStatus(status.value).None? {
        return StorageFailure;
      }
      var t := todos[k];
      var u := Saved(t, WithStatus(t, RequestedStatus(status), now), now);
      todos := todos[k := u];
      r := Done(u);
    }

    /** `DELETE /todos/:id`: move the caller's todo to the trash. */
    method DeleteTodo(owner: Uuid, id: string, now: int) returns (r: Reply<string>)
      requires Valid()
      modifies this`todos
      ensures Valid()
      ensures ParseUuid(id).None? ==> r == StorageFailure && todos == old(todos)
      ensures ParseUuid(id).Some? ==> var k := ParseUuid(id).value;
        (!(k in old(todos) && old(todos)[k].userId == owner) ==>
          r == Reject(404, "Todo not found") && todos == old(todos)) &&
        (k in old(todos) && old(todos)[k].userId == owner ==>
          todos == old(todos)[k := Saved(old(todos)[k], Trashed(old(todos)[k], now), now)] &&
          r == Done("Todo moved to trash"))
    {
      var key := ParseUuid(id);
      if key.None? {
        return StorageFailure;
      }
      var k := key.value;
      if !(k in todos && todos[k].userId == owner) {
        return Reject(404, "Todo not found");
      }
      var t := todos[k];
      todos := todos[k := Saved(t, Trashed(t, now), now)];
      r := Done("Todo moved to trash");
    }

    /** `POST /todos/:id/restore`: only a todo of the caller's that is in the trash. */
    method RestoreTodo(owner: Uuid, id: string, now: int) returns (r: Reply<Todo>)
      requires Valid()
      modifies this`todos
      ensures Valid()
      ensures ParseUuid(id).None? ==> r == StorageFailure && todos == old(todos)
      ensures ParseUuid(id).Some? ==> var k := ParseUuid(id).value;
        (!(k in old(todos) && old(todos)[k].userId == owner && old(todos)[k].isDeleted) ==>
          r == Reject(404, "Todo not found in trash") && todos == old(todos)) &&
        (k in old(todos) && old(todos)[k].userId == owner && old(todos)[k].isDeleted ==>
          todos == old(todos)[k := Saved(old(todos)[k], Untrashed(old(todos)[k]), now)] &&
          r == Done(todos[k]))
    {
      var key := ParseUuid(id);
      if key.None? {
        return StorageFailure;
      }
      var k := key.value;
      if !(k in todos && todos[k].userId == owner && todos[k].isDeleted) {
        return Reject(404, "Todo not found in trash");
      }
      var t := todos[k];
      var u := Saved(t, Untrashed(t), now);
      todos := todos[k := u];
      r := Done(u);
    }

    /** `DELETE /todos/:id/permanent`: remove the caller's todo, live or trashed. */
    method PermanentlyDeleteTodo(owner: Uuid, id: string) returns (r: Reply<string>)
      requires Valid()
      modifies this`todos
      ensures Valid()
      ensures ParseUuid(id).None? ==> r == StorageFailure && todos == old(todos)
      ensures ParseUuid(id).Some? ==> var k := ParseUuid(id).value;
        (!(k in old(todos) && old(todos)[k].userId == owner) ==>
          r == Reject(404, "Todo not found") && todos == old(todos)) &&
        (k in old(todos) && old(todos)[k].userId == owner ==>
          todos == old(todos) - {k} && r == Done("Todo permanently deleted"))
    {
      var key := ParseUuid(id);
      if key.None? {
        return StorageFailure;
      }
      var k := key.value;
      if !(k in todos && todos[k].userId == owner) {
        return Reject(404, "Todo not found");
      }
      todos := todos - {k};
      r := Done("Todo permanently deleted");
    }

    /** `POST /todos/bulk`: the lookup fails on an id the database cannot read; not found when
        no listed id is the caller's; the update fails when its value cannot be stored;
        otherwise the operation is applied row by row to the caller's listed todos. */
    method BulkOperation(owner: Uuid, ids: seq<string>, op: BulkOperation, categories: set<Uuid>, now: int)
      returns (r: Reply<string>)
      requires Valid()
      modifies this`todos
      ensures Valid()
      ensures !AllIdsRead(ids) ==> r == StorageFailure && todos == old(todos)
      ensures AllIdsRead(ids) && BulkTargets(old(todos), owner, IdKeys(ids)) == {} ==>
        r == Reject(404, "No todos found") && todos == old(todos)
      ensures AllIdsRead(ids) && BulkTargets(old(todos), owner, IdKeys(ids)) != {} && !BulkStorable(op, categories) ==>
        r == StorageFailure && todos == old(todos)
      ensures AllIdsRead(ids) && BulkTargets(old(todos), owner, IdKeys(ids)) != {} && BulkStorable(op, categories) ==>
        todos == BulkResult(old(todos), owner, IdKeys(ids), op, now) &&
        r == Done("Bulk " + OperationName(op) + " completed successfully")
    {
      if !AllIdsRead(ids) {
        return StorageFailure;
      }
      var keys := IdKeys(ids);
      var targets := BulkTargets(todos, owner, keys);
      if targets == {} {
        return Reject(404, "No todos found");
      }
      if !BulkStorable(op, categories) {
        return StorageFailure;
      }
      ApplyEach(targets, op, now);
      AppliedAll(todos, old(todos), owner, keys, op, now);
      r := Done("Bulk " + OperationName(op) + " completed successfully");
    }

    /** The update loop of a bulk operation: `op` applied to each row in `targets`, one
        row at a time. */
    method ApplyEach(targets: set<Uuid>, op: BulkOperation, now: int)
      requires targets <= todos.Keys
      modifies this`todos
      ensures AppliedTo(todos, old(todos), targets, op, now)
    {
      var pending := targets;
      while pending != {}
        invariant pending <= targets
        invariant AppliedTo(todos, old(todos), targets - pending, op, now)
        decreases pending
      {
        var k :| k in pending;
        AppliedStep(todos, old(todos), targets - pending, k, op, now);
        todos := todos[k := BulkApplied(todos[k], op, now)];
        assert targets - (pending - {k}) == (targets - pending) + {k};
        pending := pending - {k};
      }
    }

    /** `GET /todos/trash`: the caller's trashed todos, most recently deleted first. */
    method GetTrash(owner: Uuid) returns (rows: seq<Todo>)
      requires Valid()
      ensures ListsExactly(multiset(rows), todos, SelectIds(todos, InTrashOf(owner)), TodoId)
      ensures SortedBy(rows, SortKey(DeletedAtColumn), Desc)
      ensures forall t | t in rows :: t.userId == owner && t.isDeleted
    {
      var found := CollectRows(todos, InTrashOf(owner), TodoId);
      rows := SortBy(found, SortKey(DeletedAtColumn), Desc);
      SortBySorted(found, SortKey(DeletedAtColumn), Desc);
      ListedRowsSelected(rows, todos, InTrashOf(owner), TodoId);
    }
  }
}
