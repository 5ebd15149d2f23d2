/** The `where` object, `order` and `limit`/`offset` that `getTodos`, `getTrash` and
    `getCategoryTodos` hand to the database (controllers/todoController.js). */
module TodoQuery {
  import opened Wrappers
  import opened Text
  import opened Sorting
  import opened UuidText
  import opened TodoModel

  /** The query string of `GET /todos`, after the handler's defaults (`DefaultQuery`).
      The filters and `includeDeleted` keep their raw text; the database reads the filters. */
  datatype Query = Query(
    status: Option<string>,
    priority: Option<string>,
    categoryId: Option<string>,
    tagId: Option<string>,
    search: Option<string>,
    sortBy: string,
    sortOrder: string,
    page: int,
    limit: int,
    includeDeleted: Option<string>)

  /** The query with no key given: newest first, page 1 of 50, trash excluded. */
  function DefaultQuery(): (q: Query)
    ensures q.sortBy == "createdAt" && q.sortOrder == "DESC" && q.page == 1 && q.limit == 50
    ensures !Truthy(q.includeDeleted) && !Truthy(q.search)
    ensures !Truthy(q.status) && !Truthy(q.priority) && !Truthy(q.categoryId)
  {
    Query(None, None, None, None, None, "createdAt", "DESC", 1, 50, None)
  }

  /** The row matches the `where` object `getTodos` builds. A filter takes part when its text
      is truthy; a null column equals no value. `tagId` takes no part. */
  predicate Selected(t: Todo, owner: Uuid, q: Query) {
    t.userId == owner &&
    (Truthy(q.includeDeleted) || !t.isDeleted) &&
    (Truthy(q.status) ==> t.status.Some? && StatusName(t.status.value) == q.status.value) &&
    (Truthy(q.priority) ==> t.priority.Some? && PriorityName(t.priority.value) == q.priority.value) &&
    (Truthy(q.categoryId) ==> t.categoryId.Some? && ParseUuid(q.categoryId.value) == t.categoryId) &&
    (Truthy(q.search) ==> SearchHit(t, q.search.value))
  }

  /** `title ILIKE '%term%' OR description ILIKE '%term%'`; a null description never matches. */
  predicate SearchHit(t: Todo, term: string) {
    ContainsIgnoringCase(t.title, term) ||
    (t.description.Some? && ContainsIgnoringCase(t.description.value, term))
  }

  /** The filters are conjoined, and the search is a disjunction over title and description. */
  lemma SelectedMeans(t: Todo, owner: Uuid, q: Query)
    ensures Selected(t, owner, q) ==> t.userId == owner
    ensures Selected(t, owner, q) && !Truthy(q.includeDeleted) ==> !t.isDeleted
    ensures Selected(t, owner, q) && Truthy(q.status) ==> t.status == ParseStatus(q.status.value)
    ensures Selected(t, owner, q) && Truthy(q.priority) ==> t.priority == ParsePriority(q.priority.value)
    ensures Selected(t, owner, q) && Truthy(q.categoryId) ==>
              t.categoryId.Some? && t.categoryId == ParseUuid(q.categoryId.value)
    ensures Selected(t, owner, q) && Truthy(q.search) ==>
              ContainsIgnoringCase(t.title, q.search.value) ||
              (t.description.Some? && ContainsIgnoringCase(t.description.value, q.search.value))
  {
  }

  /** `tagId` is read from the query string but never reaches the `where` object. */
  lemma TagIdIgnored(t: Todo, owner: Uuid, q: Query, tagId: Option<string>)
    ensures Selected(t, owner, q) <==> Selected(t, owner, q.(tagId := tagId))
  {
  }

  /** The category filter denotes a uuid, so any letter case of its text selects the same rows. */
  lemma CategoryFilterIgnoresCase(t: Todo, owner: Uuid, q: Query, text: string)
    requires q.categoryId == Some(text)
    ensures Selected(t, owner, q) <==> Selected(t, owner, q.(categoryId := Some(Lower(text))))
  {
    ParseIgnoresCase(text);
    assert text != "" <==> Lower(text) != "";
  }

  /** `includeDeleted` is tested for JavaScript truthiness, so the text "false" also
      brings trashed todos into the listing. */
  lemma IncludeDeletedIsTruthiness(t: Todo, owner: Uuid)
    requires t.userId == owner && t.isDeleted
    ensures Selected(t, owner, DefaultQuery().(includeDeleted := Some("false")))
    ensures !Selected(t, owner, DefaultQuery())
  {
  }

  /** The search term is matched case-insensitively: lower-casing the term, or the title
      and description, changes no outcome. */
  lemma SearchIgnoresCase(t: Todo, term: string)
    ensures SearchHit(t, term) <==> SearchHit(t, Lower(term))
    ensures SearchHit(t, term) <==>
              SearchHit(t.(title := Lower(t.title),
                           description := if t.description.Some? then Some(Lower(t.description.value)) else None), term)
  {
    LowerIdempotent(term);
    LowerIdempotent(t.title);
    if t.description.Some? {
      LowerIdempotent(t.description.value);
    }
  }

  /** The columns a `sortBy` may name. */
  datatype Column =
    | IdColumn | UserIdColumn | TitleColumn | DescriptionColumn | StatusColumn | PriorityColumn
    | DueDateColumn | CategoryIdColumn | IsDeletedColumn | DeletedAtColumn | CompletedAtColumn
    | PositionColumn | CreatedAtColumn | UpdatedAtColumn

  /** The column an attribute name denotes; any other name makes the database refuse the query. */
  function ParseColumn(name: string): Option<Column> {
    match name
    case "id" => Some(IdColumn)
    case "userId" => Some(UserIdColumn)
    case "title" => Some(TitleColumn)
    case "description" => Some(DescriptionColumn)
    case "status" => Some(StatusColumn)
    case "priority" => Some(PriorityColumn)
    case "dueDate" => Some(DueDateColumn)
    case "categoryId" => Some(CategoryIdColumn)
    case "isDeleted" => Some(IsDeletedColumn)
    case "deletedAt" => Some(DeletedAtColumn)
    case "completedAt" => Some(CompletedAtColumn)
    case "position" => Some(PositionColumn)
    case "createdAt" => Some(CreatedAtColumn)
    case "updatedAt" => Some(UpdatedAtColumn)
    case _ => None
  }

  /** Sequelize's order options, lower-cased. */
  const OrderOptions: set<string> := {
    "asc", "desc", "asc nulls last", "desc nulls last", "asc nulls first", "desc nulls first",
    "nulls first", "nulls last"}

  /** A `sortOrder` Sequelize upper-cases and finds among its order options. The text names
      the direction by its first word and the NULL placement by its last; a bare `NULLS …`
      is ascending, and a bare `ASC` or `DESC` takes PostgreSQL's default placement. */
  function ParseDirection(name: string): (r: Option<Direction>)
    ensures r.Some? <==> Lower(name) in OrderOptions
    ensures r.Some? ==> (r.value.descending <==> Lower(name)[0] == 'd')
    ensures r.Some? ==> (r.value.nullsFirst <==>
              Lower(name) == "desc" || (|Lower(name)| >= 5 && Lower(name)[|Lower(name)| - 5..] == "first"))
  {
    var n := Lower(name);
    if n == "asc" || n == "asc nulls last" || n == "nulls last" then Some(Direction(false, false))
    else if n == "asc nulls first" || n == "nulls first" then Some(Direction(false, true))
    else if n == "desc" || n == "desc nulls first" then Some(Direction(true, true))
    else if n == "desc nulls last" then Some(Direction(true, false))
    else None
  }

  /** The order option Sequelize writes into the query for a direction. */
  function DirectionKeyword(d: Direction): string {
    match d
    case Direction(false, false) => "ASC NULLS LAST"
    case Direction(false, true) => "ASC NULLS FIRST"
    case Direction(true, true) => "DESC NULLS FIRST"
    case Direction(true, false) => "DESC NULLS LAST"
  }

  /** Every direction has a spelling that reads back as itself. */
  lemma DirectionKeywordRoundTrip(d: Direction)
    ensures ParseDirection(DirectionKeyword(d)) == Some(d)
  {
    match d
    case Direction(false, false) => assert Lower("ASC NULLS LAST") == "asc nulls last";
    case Direction(false, true) => assert Lower("ASC NULLS FIRST") == "asc nulls first";
    case Direction(true, true) => assert Lower("DESC NULLS FIRST") == "desc nulls first";
    case Direction(true, false) => assert Lower("DESC NULLS LAST") == "desc nulls last";
  }

  /** The short spellings mean PostgreSQL's defaults, in any letter case. */
  lemma ShortDirectionSpellings()
    ensures ParseDirection("ASC") == Some(Asc) && ParseDirection("desc") == Some(Desc)
    ensures ParseDirection("DESC") == ParseDirection("DESC NULLS FIRST") == Some(Desc)
    ensures ParseDirection("NULLS LAST") == ParseDirection("asc nulls last") == Some(Asc)
    ensures ParseDirection("NULLS FIRST") == Some(Direction(false, true))
  {
    assert Lower("ASC") == "asc";
    assert Lower("desc") == "desc";
    assert Lower("DESC") == "desc";
    assert Lower("DESC NULLS FIRST") == "desc nulls first";
    assert Lower("NULLS LAST") == "nulls last";
    assert Lower("asc nulls last") == "asc nulls last";
    assert Lower("NULLS FIRST") == "nulls first";
  }

  function Timestamp(d: Option<int>): SortValue {
    if d.Some? then NumKey(d.value) else NullKey
  }

  function OptionalText(s: Option<string>): SortValue {
    if s.Some? then TextKey(s.value) else NullKey
  }

  /** The value the database orders a row by. Enum columns order by declaration, booleans false first. */
  function ColumnValue(t: Todo, c: Column): SortValue {
    match c
    case IdColumn => TextKey(t.id)
    case UserIdColumn => TextKey(t.userId)
    case TitleColumn => TextKey(t.title)
    case DescriptionColumn => OptionalText(t.description)
    case StatusColumn => if t.status.Some? then NumKey(StatusRank(t.status.value)) else NullKey
    case PriorityColumn => if t.priority.Some? then NumKey(PriorityRank(t.priority.value)) else NullKey
    case DueDateColumn => Timestamp(t.dueDate)
    case CategoryIdColumn => OptionalText(t.categoryId)
    case IsDeletedColumn => NumKey(if t.isDeleted then 1 else 0)
    case DeletedAtColumn => Timestamp(t.deletedAt)
    case CompletedAtColumn => Timestamp(t.completedAt)
    case PositionColumn => NumKey(t.position)
    case CreatedAtColumn => NumKey(t.createdAt)
    case UpdatedAtColumn => NumKey(t.updatedAt)
  }

  function SortKey(c: Column): Todo -> SortValue {
    t => ColumnValue(t, c)
  }

  /** The primary key of a row. */
  function TodoId(t: Todo): Uuid {
    t.id
  }
}
