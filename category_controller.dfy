/** The category handlers of controllers/categoryController.js, over the `categories`
    table (models/Category.js) and, for deleting and listing, the todo table. */
module CategoryController {
  import opened Wrappers
  import opened UuidText
  import opened Sorting
  import opened Selection
  import opened TodoModel
  import opened TodoQuery
  import opened TodoController

  const MaxNameLength: nat := 50
  const MaxColorLength: nat := 7
  const DefaultColor: string := "#3B82F6"

  datatype Category = Category(
    id: Uuid,
    userId: Uuid,
    name: string,
    color: Option<string>,
    createdAt: int,
    updatedAt: int)

  function CategoryId(c: Category): Uuid {
    c.id
  }

  /** What the columns admit: a non-null `STRING(50)` name and a nullable `STRING(7)` colour. */
  predicate CategoryStorable(c: Category) {
    |c.name| <= MaxNameLength && (c.color.Some? ==> |c.color.value| <= MaxColorLength)
  }

  /** The request body: no validator guards the category routes, so any of these keys may be
      given, absent or `null`. */
  datatype CategoryBody = CategoryBody(name: Field<string>, color: Field<string>, userId: Field<Uuid>)

  /** The colour a `Category.create` stores: the column default when the key is missing. */
  function CreatedColor(f: Field<string>): (c: Option<string>)
    ensures f.Absent? ==> c == Some(DefaultColor)
    ensures f.Null? ==> c == None
    ensures f.Present? ==> c == Some(f.value)
  {
    match f
    case Absent => Some(DefaultColor)
    case Null => None
    case Present(v) => Some(v)
  }

  predicate ColorFits(f: Field<string>) {
    f.Present? ==> |f.value| <= MaxColorLength
  }

  /** `Category.create({ name, color, userId })` succeeds. */
  predicate CategoryCreateStorable(b: CategoryBody) {
    b.name.Present? && |b.name.value| <= MaxNameLength && ColorFits(b.color)
  }

  /** `category.update(body)` succeeds: a given name is non-null and fits, as does a given
      colour, and `userId`, declared `allowNull: false`, is not set to null. */
  predicate CategoryUpdateStorable(b: CategoryBody) {
    !b.name.Null? && !b.userId.Null? && (b.name.Present? ==> |b.name.value| <= MaxNameLength) && ColorFits(b.color)
  }

  /** The row `createCategory` inserts: always the caller's, whatever the body says. */
  function CreatedCategory(owner: Uuid, b: CategoryBody, id: Uuid, now: int): (c: Category)
    requires CategoryCreateStorable(b)
    ensures c.id == id && c.userId == owner && c.name == b.name.value
    ensures c.color == CreatedColor(b.color)
    ensures c.createdAt == now && c.updatedAt == now
    ensures CategoryStorable(c)
  {
    Category(id, owner, b.name.value, CreatedColor(b.color), now, now)
  }

  /** The row after `category.update(body)`, with `updatedAt` stamped when something changed. */
  function UpdatedCategory(c: Category, b: CategoryBody, now: int): (u: Category)
    requires CategoryUpdateStorable(b)
    ensures u.id == c.id && u.createdAt == c.createdAt
  {
    var v := c.(name := if b.name.Present? then b.name.value else c.name,
                color := if b.color.Absent? then c.color else OptionOf(b.color),
                userId := if b.userId.Present? then b.userId.value else c.userId);
    if v == c then c else v.(updatedAt := now)
  }

  /** The body's keys are applied as given, including a `userId`, which hands the category
      to another account; the keys left out keep their values. */
  lemma UpdateAppliesBodyAsGiven(c: Category, b: CategoryBody, now: int)
    requires CategoryUpdateStorable(b)
    ensures b.name.Present? ==> UpdatedCategory(c, b, now).name == b.name.value
    ensures b.name.Absent? ==> UpdatedCategory(c, b, now).name == c.name
    ensures b.color.Absent? ==> UpdatedCategory(c, b, now).color == c.color
    ensures b.color.Null? ==> UpdatedCategory(c, b, now).color == None
    ensures b.color.Present? ==> UpdatedCategory(c, b, now).color == Some(b.color.value)
    ensures b.userId.Present? ==> UpdatedCategory(c, b, now).userId == b.userId.value
    ensures b.userId.Absent? ==> UpdatedCategory(c, b, now).userId == c.userId
    ensures CategoryStorable(c) ==> CategoryStorable(UpdatedCategory(c, b, now))
    ensures b == CategoryBody(Absent, Absent, Absent) ==> UpdatedCategory(c, b, now) == c
  {
  }

  /** What `Todo.update({ categoryId: null }, { where: { categoryId } })` does to one row:
      a matching row loses its category and is stamped, any other row is left alone. */
  function Detached(t: Todo, category: Uuid, now: int): (u: Todo)
    ensures u.categoryId != Some(category)
    ensures t.categoryId != Some(category) ==> u == t
    ensures t.categoryId == Some(category) ==> u == t.(categoryId := None, updatedAt := now)
  {
    if t.categoryId == Some(category) then t.(categoryId := None, updatedAt := now) else t
  }

  /** The todo table after the category's references are cleared. */
  function DetachAll(table: map<Uuid, Todo>, category: Uuid, now: int): (r: map<Uuid, Todo>)
    ensures r.Keys == table.Keys
  {
    map k | k in table :: Detached(table[k], category, now)
  }

  /** Deleting a category removes no todo and leaves no todo pointing at it; the matching
      ignores owner and trash state, and no other column than the reference and its stamp changes. */
  lemma DetachAllClearsEveryReference(table: map<Uuid, Todo>, category: Uuid, now: int)
    requires WellFormed(table)
    ensures DetachAll(table, category, now).Keys == table.Keys
    ensures forall k | k in table :: DetachAll(table, category, now)[k].categoryId != Some(category)
    ensures forall k | k in table && table[k].categoryId == Some(category) ::
              DetachAll(table, category, now)[k] == table[k].(categoryId := None, updatedAt := now)
    ensures forall k | k in table && table[k].categoryId != Some(category) ::
              DetachAll(table, category, now)[k] == table[k]
    ensures WellFormed(DetachAll(table, category, now))
  {
  }

  /** `WHERE category_id = id` compares uuid values: a stored row is detached exactly when its
      category id denotes the uuid the path's id text denotes, in whatever spelling. */
  lemma {:induction false} DetachedMatchesUuidValue(t: Todo, text: string, now: int)
    requires Storable(t) && ParseUuid(text).Some?
    ensures Detached(t, ParseUuid(text).value, now) != t <==>
            t.categoryId.Some? && ParseUuid(t.categoryId.value) == ParseUuid(text)
  {
    if t.categoryId.Some? {
      CanonicalReadsAsItself(t.categoryId.value);
    }
  }

  /** After a category is deleted through any spelling of its id, no todo refers to it. */
  lemma {:induction false} NoReferenceSurvives(table: map<Uuid, Todo>, text: string, now: int)
    requires WellFormed(table) && ParseUuid(text).Some?
    ensures forall k | k in DetachAll(table, ParseUuid(text).value, now) ::
              var c := DetachAll(table, ParseUuid(text).value, now)[k].categoryId;
              c.Some? ==> ParseUuid(c.value) != ParseUuid(text)
  {
    var r := DetachAll(table, ParseUuid(text).value, now);
    forall k | k in r
      ensures r[k].categoryId.Some? ==> ParseUuid(r[k].categoryId.value) != ParseUuid(text)
    {
      assert r[k] == Detached(table[k], ParseUuid(text).value, now);
      if r[k].categoryId.Some? {
        assert r[k].categoryId == table[k].categoryId;
        CanonicalReadsAsItself(table[k].categoryId.value);
      }
    }
  }

  /** The rows of `done` have lost their reference, the others are as in `before`. */
  ghost predicate DetachedTo(cur: map<Uuid, Todo>, before: map<Uuid, Todo>, done: set<Uuid>, category: Uuid, now: int) {
    cur.Keys == before.Keys &&
    forall k | k in cur :: cur[k] == if k in done then Detached(before[k], category, now) else before[k]
  }

  lemma DetachedStep(cur: map<Uuid, Todo>, before: map<Uuid, Todo>, done: set<Uuid>, k: Uuid, category: Uuid, now: int)
    requires DetachedTo(cur, before, done, category, now) && k in cur && k !in done
    ensures DetachedTo(cur[k := Detached(cur[k], category, now)], before, done + {k}, category, now)
  {
  }

  lemma DetachedAll(cur: map<Uuid, Todo>, before: map<Uuid, Todo>, category: Uuid, now: int)
    requires WellFormed(before)
    requires DetachedTo(cur, before, before.Keys, category, now)
    ensures cur == DetachAll(before, category, now)
    ensures WellFormed(cur)
  {
    DetachAllClearsEveryReference(before, category, now);
  }

  function OwnedBy(owner: Uuid): Category -> bool {
    (c: Category) => c.userId == owner
  }

  function NameKey(): Category -> SortValue {
    (c: Category) => TextKey(c.name)
  }

  /** The `where` object of `getCategoryTodos`. */
  function InCategoryOf(owner: Uuid, category: Uuid): Todo -> bool {
    (t: Todo) => t.categoryId == Some(category) && t.userId == owner && !t.isDeleted
  }

  /** The JSON of `GET /categories/:id/todos`. */
  datatype CategoryTodos = CategoryTodos(category: Category, todos: seq<Todo>)

  class CategoryStore {
    /** The `categories` table, by id. */
    var categories: map<Uuid, Category>

    ghost predicate Valid()
      reads this
    {
      forall k | k in categories :: categories[k].id == k && IsCanonical(k) && CategoryStorable(categories[k])
    }

    constructor ()
      ensures Valid() && categories == map[]
    {
      categories := map[];
    }

    /** `GET /categories`: the caller's categories by name. */
    method GetCategories(owner: Uuid) returns (rows: seq<Category>)
      requires Valid()
      ensures ListsExactly(multiset(rows), categories, SelectIds(categories, OwnedBy(owner)), CategoryId)
      ensures SortedBy(rows, NameKey(), Asc)
      ensures forall c | c in rows :: c.userId == owner
    {
      var found := CollectRows(categories, OwnedBy(owner), CategoryId);
      rows := SortBy(found, NameKey(), Asc);
      SortBySorted(found, NameKey(), Asc);
      ListedRowsSelected(rows, categories, OwnedBy(owner), CategoryId);
    }

    /** `POST /categories`. */
    method CreateCategory(owner: Uuid, body: CategoryBody, newId: Uuid, now: int) returns (r: Reply<Category>)
      requires Valid() && IsCanonical(newId) && newId !in categories
      modifies this
      ensures Valid()
      ensures !CategoryCreateStorable(body) ==> r == StorageFailure && categories == old(categories)
      ensures CategoryCreateStorable(body) ==>
        r == Done(CreatedCategory(owner, body, newId, now)) && categories == old(categories)[newId := r.value]
    {
      if !CategoryCreateStorable(body) {
        return StorageFailure;
      }
      var c := CreatedCategory(owner, body, newId, now);
      categories := categories[newId := c];
      r := Done(c);
    }

    /** `PUT /categories/:id`: the caller's category takes the body's keys. An id the database
        cannot read as a uuid fails the lookup. */
    method UpdateCategory(owner: Uuid, id: string, body: CategoryBody, now: int) returns (r: Reply<Category>)
      requires Valid()
      modifies this
      ensures Valid()
      ensures ParseUuid(id).None? ==> r == StorageFailure && categories == old(categories)
      ensures ParseUuid(id).Some? ==> var k := ParseUuid(id).value;
        (!(k in old(categories) && old(categories)[k].userId == owner) ==>
          r == Reject(404, "Category not found") && categories == old(categories)) &&
        (k in old(categories) && old(categories)[k].userId == owner && !CategoryUpdateStorable(body) ==>
          r == StorageFailure && categories == old(categories)) &&
        (k in old(categories) && old(categories)[k].userId == owner && CategoryUpdateStorable(body) ==>
          categories == old(categories)[k := UpdatedCategory(old(categories)[k], body, now)] &&
          r == Done(categories[k]))
    {
      var key := ParseUuid(id);
      if key.None? {
        return StorageFailure;
      }
      var k := key.value;
      if !(k in categories && categories[k].userId == owner) {
        return Reject(404, "Category not found");
      }
      if !CategoryUpdateStorable(body) {
        return StorageFailure;
      }
      UpdateAppliesBodyAsGiven(categories[k], body, now);
      var u := UpdatedCategory(categories[k], body, now);
      categories := categories[k := u];
      r := Done(u);
    }

    /** `DELETE /categories/:id`: clear every todo's reference to the caller's category,
        of any owner, then remove the category. */
    method DeleteCategory(owner: Uuid, id: string, store: TodoStore, now: int) returns (r: Reply<string>)
      requires Valid() && store.Valid()
      modifies this, store`todos
      ensures Valid() && store.Valid()
      ensures ParseUuid(id).None? ==>
        r == StorageFailure && categories == old(categories) && store.todos == old(store.todos)
      ensures ParseUuid(id).Some? ==> var k := ParseUuid(id).value;
        (!(k in old(categories) && old(categories)[k].userId == owner) ==>
          r == Reject(404, "Category not found") && categories == old(categories) && store.todos == old(store.todos)) &&
        (k in old(categories) && old(categories)[k].userId == owner ==>
          store.todos == DetachAll(old(store.todos), k, now) &&
          categories == old(categories) - {k} &&
          r == Done("Category deleted successfully"))
    {
      var key := ParseUuid(id);
      if key.None? {
        return StorageFailure;
      }
      var c := key.value;
      if !(c in categories && categories[c].userId == owner) {
        return Reject(404, "Category not found");
      }
      ghost var before := store.todos;
      var pending := store.todos.Keys;
      while pending != {}
        invariant pending <= before.Keys
        invariant WellFormed(before)
        invariant DetachedTo(store.todos, before, before.Keys - pending, c, now)
        invariant categories == old(categories)
        decreases pending
      {
        var k :| k in pending;
        DetachedStep(store.todos, before, before.Keys - pending, k, c, now);
        store.todos := store.todos[k := Detached(store.todos[k], c, now)];
        assert before.Keys - (pending - {k}) == (before.Keys - pending) + {k};
        pending := pending - {k};
      }
      DetachedAll(store.todos, before, c, now);
      categories := categories - {c};
      r := Done("Category deleted successfully");
    }

    /** `GET /categories/:id/todos`: the caller's live todos in the category, newest first. */
    method GetCategoryTodos(owner: Uuid, id: string, store: TodoStore) returns (r: Reply<CategoryTodos>)
      requires store.Valid()
      ensures ParseUuid(id).None? ==> r == StorageFailure
      ensures ParseUuid(id).Some? ==> var k := ParseUuid(id).value;
        (!(k in categories && categories[k].userId == owner) ==> r == Reject(404, "Category not found")) &&
        (k in categories && categories[k].userId == owner ==>
          r.Done? && r.value.category == categories[k] &&
          ListsExactly(multiset(r.value.todos), store.todos, SelectIds(store.todos, InCategoryOf(owner, k)), TodoId) &&
          SortedBy(r.value.todos, SortKey(CreatedAtColumn), Desc))
    {
      var key := ParseUuid(id);
      if key.None? {
        return StorageFailure;
      }
      var k := key.value;
      if !(k in categories && categories[k].userId == owner) {
        return Reject(404, "Category not found");
      }
      var found := CollectRows(store.todos, InCategoryOf(owner, k), TodoId);
      var rows := SortBy(found, SortKey(CreatedAtColumn), Desc);
      SortBySorted(found, SortKey(CreatedAtColumn), Desc);
      r := Done(CategoryTodos(categories[k], rows));
    }
  }
}
