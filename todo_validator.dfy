/** The request bodies of the todo routes and the Joi schemas that guard them
    (validators/todoValidator.js), as validity predicates. Joi objects refuse keys
    they do not declare, so a body carrying `tags` or `userId` fails both todo schemas. */
module TodoValidator {
  import opened Wrappers
  import opened Text
  import opened UuidText
  import opened TodoModel

  const MaxDescriptionLength: nat := 2000

  /** The JSON body of `POST /todos` and `PUT /todos/:id`. Dates arrive as millisecond
      timestamps. `tags` and `userId` are not schema keys; they are kept so that the
      controllers' handling of them can be stated. */
  datatype TodoBody = TodoBody(
    title: Field<string>,
    description: Field<string>,
    priority: Field<string>,
    status: Field<string>,
    dueDate: Field<int>,
    categoryId: Field<string>,
    tags: Field<seq<Uuid>>,
    userId: Field<Uuid>)

  /** `Joi.string()` with no `allow`: a present value must be a non-empty string. */
  predicate NonEmptyText(f: Field<string>) {
    f.Present? && f.value != ""
  }

  /** `title: Joi.string().max(200)` once the key is there; Joi counts UTF-16 code units. */
  predicate TitleOk(f: Field<string>) {
    NonEmptyText(f) && Utf16Length(f.value) <= MaxTitleLength
  }

  /** `description: Joi.string().max(2000).optional().allow('')`, in UTF-16 code units. */
  predicate DescriptionOk(f: Field<string>) {
    f.Absent? || (f.Present? && Utf16Length(f.value) <= MaxDescriptionLength)
  }

  /** `Joi.string().valid('low', 'medium', 'high', 'urgent')`, optional. */
  predicate PriorityOk(f: Field<string>) {
    f.Absent? || (f.Present? && ParsePriority(f.value).Some?)
  }

  /** `Joi.string().valid('to_do', 'in_progress', 'completed')`, optional. */
  predicate StatusOk(f: Field<string>) {
    f.Absent? || (f.Present? && ParseStatus(f.value).Some?)
  }

  /** `Joi.string().uuid().optional().allow(null)`. */
  predicate CategoryIdOk(f: Field<string>) {
    !f.Present? || IsUuid(f.value)
  }

  /** Keys outside the schema are refused. `dueDate: Joi.date().optional().allow(null)`
      accepts every timestamp, so it needs no clause. */
  predicate NoUnknownKeys(b: TodoBody) {
    b.tags.Absent? && b.userId.Absent?
  }

  /** `createTodoSchema`: the title is required. */
  predicate ValidCreateBody(b: TodoBody) {
    TitleOk(b.title) && DescriptionOk(b.description) && PriorityOk(b.priority) &&
    StatusOk(b.status) && CategoryIdOk(b.categoryId) && NoUnknownKeys(b)
  }

  /** `updateTodoSchema`: every key optional, with the same domains. */
  predicate ValidUpdateBody(b: TodoBody) {
    (b.title.Absent? || TitleOk(b.title)) && DescriptionOk(b.description) && PriorityOk(b.priority) &&
    StatusOk(b.status) && CategoryIdOk(b.categoryId) && NoUnknownKeys(b)
  }

  /** What the create schema demands of each key, spelled out. A title within Joi's 200 code
      units also fits the column's 200 characters. */
  lemma CreateBodyRules(b: TodoBody)
    ensures ValidCreateBody(b) ==> b.title.Present? && 0 < Utf16Length(b.title.value) <= 200
    ensures ValidCreateBody(b) ==> 0 < |b.title.value| <= 200
    ensures ValidCreateBody(b) ==> !b.description.Null? && (b.description.Present? ==> Utf16Length(b.description.value) <= 2000)
    ensures ValidCreateBody(b) ==> b.priority.Present? ==> b.priority.value in {"low", "medium", "high", "urgent"}
    ensures ValidCreateBody(b) ==> b.status.Present? ==> b.status.value in {"to_do", "in_progress", "completed"}
    ensures ValidCreateBody(b) ==> !b.priority.Null? && !b.status.Null?
    ensures ValidCreateBody(b) ==> b.categoryId.Present? ==> IsUuid(b.categoryId.value)
    ensures ValidCreateBody(b) ==> b.tags.Absent? && b.userId.Absent?
  {
  }

  /** Joi and the column measure a title differently: more than 100 characters beyond U+FFFF
      fit `STRING(200)` but not `max(200)`. */
  lemma AstralTitleRefused(s: string)
    requires 100 < |s| <= MaxTitleLength && forall i | 0 <= i < |s| :: Astral(s[i])
    ensures !TitleOk(Present(s))
  {
  }

  /** Every create body is an update body; the update schema only drops the title requirement. */
  lemma CreateBodyIsUpdateBody(b: TodoBody)
    ensures ValidCreateBody(b) ==> ValidUpdateBody(b)
    ensures ValidUpdateBody(b) ==> (ValidCreateBody(b) <==> b.title.Present?)
  {
  }

  /** The empty description is explicitly allowed by both schemas, unlike the empty title. */
  lemma EmptyDescriptionAllowed(b: TodoBody)
    requires ValidCreateBody(b)
    ensures ValidCreateBody(b.(description := Present("")))
    ensures ValidUpdateBody(b.(description := Present("")))
    ensures !ValidCreateBody(b.(title := Present("")))
    ensures !ValidUpdateBody(b.(title := Present("")))
  {
  }

  /** What `bulkOperation` does to every selected row, as the controller's `switch` sees it;
      `Unhandled` is an operation name no case matches. */
  datatype BulkOperation =
    | Delete
    | Complete
    | Uncomplete
    | SetPriority(priority: Priority)
    | SetCategory(categoryId: string)
    | Unhandled(name: string)

  /** The JSON body of `POST /todos/bulk`. */
  datatype BulkBody = BulkBody(todoIds: Field<seq<string>>, operation: Field<string>, value: Field<string>)

  predicate KnownOperation(name: string) {
    name in {"delete", "complete", "uncomplete", "setPriority", "setCategory"}
  }

  /** The conditional `value` rule: a priority for `setPriority`, a UUID for
      `setCategory`, and forbidden (not even `null`) for the other operations. */
  predicate BulkValueOk(operation: string, value: Field<string>) {
    if operation == "setPriority" then value.Present? && ParsePriority(value.value).Some?
    else if operation == "setCategory" then value.Present? && IsUuid(value.value)
    else value.Absent?
  }

  /** `bulkOperationSchema`. An empty id list passes. */
  predicate ValidBulkBody(b: BulkBody) {
    b.todoIds.Present? && (forall id :: id in b.todoIds.value ==> IsUuid(id)) &&
    b.operation.Present? && KnownOperation(b.operation.value) &&
    BulkValueOk(b.operation.value, b.value)
  }

  /** The operation a validated bulk body asks for. */
  function BulkOperationOf(b: BulkBody): (op: BulkOperation)
    requires ValidBulkBody(b)
    ensures !op.Unhandled?
    ensures b.operation.value == "delete" <==> op.Delete?
    ensures b.operation.value == "complete" <==> op.Complete?
    ensures b.operation.value == "uncomplete" <==> op.Uncomplete?
    ensures b.operation.value == "setPriority" <==> op.SetPriority?
    ensures b.operation.value == "setCategory" <==> op.SetCategory?
    ensures op.SetPriority? ==> PriorityName(op.priority) == b.value.value
    ensures op.SetCategory? ==> op.categoryId == b.value.value
  {
    var name := b.operation.value;
    if name == "delete" then Delete
    else if name == "complete" then Complete
    else if name == "uncomplete" then Uncomplete
    else if name == "setPriority" then SetPriority(ParsePriority(b.value.value).value)
    else SetCategory(b.value.value)
  }

  /** A bulk body carries a `value` exactly when its operation needs one. */
  lemma BulkValuePresence(b: BulkBody)
    requires ValidBulkBody(b)
    ensures b.value.Present? <==> b.operation.value in {"setPriority", "setCategory"}
    ensures !b.value.Null?
  {
  }
}
