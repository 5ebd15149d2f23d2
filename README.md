# Todo app core, modelled in Dafny

This project models the core of a small todo application. The backend is an Express server over a
PostgreSQL database reached through Sequelize. The frontend is a React client with a Zustand store.

The model covers the following:

- The todo handlers (`todoController.js`): listing with filters, search, sort and pages; reading;
  creating; updating; status changes; moving to the trash and back; deleting for good; bulk
  operations; the trash listing.
- The request schemas of `todoValidator.js` and the column rules of the `Todo` model.
- The category handlers, including the detaching of a deleted category's todos.
- The account handlers: registration, login, profile, password change, reset tokens and account
  deactivation.
- The error middleware that maps errors to status codes and JSON bodies.
- The client side:
  - the store's list updates and fetch parameters (`todoStore.js`);
  - the list page's filter (`TodoList.jsx`);
  - the dashboard counters and today's list (`Dashboard.jsx`);
  - the todo form's prefill, normalisation and submit (`TodoModal.jsx`).

Database tables are maps from primary key to row, held in fields of the classes `TodoStore`,
`CategoryStore` and `AccountStore`. Each handler is a method on the class that owns its tables. A
method's contract gives the reply (`Done`, `Reject(code, error)` or `StorageFailure` for a database
error that reaches the error middleware) and the new table contents. Those contents are stated through
pure functions (`CreatedTodo`, `UpdatedTodo`, `BulkResult`, `DetachAll`, …), and the lemmas prove what
the application promises about those functions.

A listing comes back as a sequence. Its contract says three things:

- Its rows are exactly the selected rows, as a multiset (`Selection.ListsExactly`).
- It is sorted the way PostgreSQL would order it (`Sorting.SortedBy`).
- The page is the right window of that order (`Paging.Window`).

The client store is a class whose fields are the store's state. Each store action is a method that
takes the server's answer (or its failure) as a parameter.

Times are integers (milliseconds) passed in as `now`. The database's random UUIDs are passed in as
fresh ids, in canonical text. Text is `seq<char>`.

Stored ids are the text PostgreSQL prints for a uuid: lower-case 8-4-4-4-12 hexadecimal groups
(`UuidText.IsCanonical`). An id that arrives as request text is read the way PostgreSQL reads it
(`UuidText.ParseUuid`). So two spellings of the same uuid find the same row, and text the database
cannot read makes the query fail. The foreign key from a todo to its category is checked against the
set of existing category ids, which the handlers take as a parameter.

## Model

| member | source | states |
|---|---|---|
| Text.LowerChar | todo-app/frontend/src/pages/TodoList.jsx:17 | maps each capital letter A–Z to the letter 32 code points later, its lower-case form, and leaves every other character alone |
| Text.Utf16Length | todo-app/backend/src/validators/todoValidator.js:4-8 | the length JavaScript and Joi measure is between the character count and twice it, equal to the count exactly when no character lies beyond U+FFFF, and twice it exactly when every character does |
| Text.Lower | todo-app/frontend/src/pages/TodoList.jsx:17 | lower-casing keeps the length and folds each character in place |
| Text.ContainsIffOccurs | todo-app/backend/src/controllers/todoController.js:22-27 | the substring test holds exactly when the needle occurs at some position of the text |
| Text.ContainsEmpty | todo-app/frontend/src/pages/TodoList.jsx:17 | the empty search term is found in every title |
| Text.LowerIdempotent | todo-app/frontend/src/pages/TodoList.jsx:17 | lower-casing twice is lower-casing once |
| Text.IgnoringCaseIgnoresCase | todo-app/backend/src/controllers/todoController.js:24-25 | a case-insensitive match gives the same answer after either side is lower-cased |
| Text.BeforeFirst | todo-app/frontend/src/components/todos/TodoModal.jsx:28 | the result is a prefix of the text, holds no separator, and is followed by the separator if it stops early |
| UuidText.ReadGroups | todo-app/backend/src/models/Todo.js:5-9 | the database reads eight groups of four hexadecimal digits, each of the first seven optionally followed by `-`, and yields 32 digits |
| UuidText.Hyphenate | todo-app/backend/src/models/Todo.js:5-9 | 32 lower-case digits written out in 8-4-4-4-12 groups are the text the database prints for a uuid |
| UuidText.ParseUuid | todo-app/backend/src/models/Todo.js:5-9 | whatever text the database reads as a uuid, the value it denotes is printed as canonical lower-case 8-4-4-4-12 text |
| UuidText.CanonicalReadsAsItself | todo-app/backend/src/models/Todo.js:5-9 | every stored uuid is read back from the text it is printed as |
| UuidText.ReadGroupsIgnoresCase | todo-app/backend/src/models/Todo.js:5-9 | the digit reading gives the same digits and leftover, lower-cased, on lower-cased text |
| UuidText.ParseIgnoresCase | todo-app/backend/src/controllers/todoController.js:60-63 | an id text denotes the same uuid, or is refused alike, whatever its letter case |
| UuidText.HyphenatedReadsAsLower | todo-app/backend/src/controllers/todoController.js:60-63 | the usual hyphenated spelling in either case denotes the uuid printed as its lower-cased form |
| UuidText.GroupedPassesJoi | todo-app/backend/src/validators/todoValidator.js:12 | Joi accepts the 8-4-4-4-12 spellings with `-` or `:` between the groups |
| UuidText.JoiSpellingsPostgresReads | todo-app/backend/src/validators/todoValidator.js:12 | every spelling Joi accepts without `:`, `[]` or `()` is one the database reads |
| UuidText.ColonSpellingIsRefused | todo-app/backend/src/validators/todoValidator.js:12 | Joi accepts the colon-separated spelling, and the database refuses it |
| Sorting.LexLeTotal | todo-app/backend/src/controllers/todoController.js:39 | any two texts are comparable in code-point order |
| Sorting.LexLeTransitive | todo-app/backend/src/controllers/todoController.js:39 | code-point text order is transitive |
| Sorting.ValueLeTotal | todo-app/backend/src/controllers/todoController.js:39 | the column order (numbers, then text, then NULL) relates any two values |
| Sorting.ValueLeTransitive | todo-app/backend/src/controllers/todoController.js:39 | the column order is transitive |
| Sorting.InOrderTotal | todo-app/backend/src/controllers/todoController.js:39 | every direction, ascending or descending with NULLs first or last, orders any two values |
| Sorting.InOrderTransitive | todo-app/backend/src/controllers/todoController.js:39 | every direction's order is transitive |
| Sorting.DefaultNullsAreGreatest | todo-app/backend/src/controllers/todoController.js:39 | with PostgreSQL's default placement NULL comes after every other value in `ASC` and before every other value in `DESC` |
| Sorting.Insert | todo-app/backend/src/controllers/todoController.js:39 | inserting adds exactly one copy of the element to the rows |
| Sorting.SortBy | todo-app/backend/src/controllers/todoController.js:39 | an ORDER BY returns the same rows, as a multiset |
| Sorting.InsertSorted | todo-app/backend/src/controllers/todoController.js:39 | inserting into ordered rows keeps them ordered |
| Sorting.SortBySorted | todo-app/backend/src/controllers/todoController.js:39 | an ORDER BY yields rows ordered by the column and direction that are a permutation of the input |
| Paging.Window | todo-app/backend/src/controllers/todoController.js:40-41 | LIMIT/OFFSET returns at most `limit` rows, the rows from position `offset` on, and none past the end |
| Paging.CeilDivIsLeastCover | todo-app/backend/src/controllers/todoController.js:50 | `totalPages` is the least number of pages of `limit` rows that cover `total` |
| Paging.FirstPagesIsPrefix | todo-app/backend/src/controllers/todoController.js:29-41 | pages 1..k, concatenated, are the first k·limit rows of the order |
| Paging.AllPagesReassemble | todo-app/backend/src/controllers/todoController.js:29-50 | reading pages 1..totalPages of one fixed ordering of the rows gives back every row of that ordering exactly once, in order |
| Selection.SelectIds | todo-app/backend/src/controllers/todoController.js:12-27 | a WHERE clause picks exactly the keys whose rows satisfy it |
| Selection.ListsExactlyCount | todo-app/backend/src/controllers/todoController.js:44-48 | a result that lists exactly the selected rows has as many rows as the selection has keys (the count) |
| Selection.ListsExactlyAdd | todo-app/backend/src/controllers/todoController.js:31-42 | adding one more selected row to an exact listing keeps it exact |
| Selection.ListedRowsSelected | todo-app/backend/src/controllers/todoController.js:12-27 | every row of an exact listing satisfies the WHERE clause |
| Selection.CollectRows | todo-app/backend/src/controllers/todoController.js:31-42 | a scan returns each selected row once and nothing else |
| TodoModel.ParseStatus | todo-app/backend/src/models/Todo.js:23-26 | a text parses as a status only if it is that status's enum label |
| TodoModel.ParseStatusName | todo-app/backend/src/models/Todo.js:23-26 | each status's label parses back to that status |
| TodoModel.ParsePriority | todo-app/backend/src/models/Todo.js:27-30 | a text parses as a priority only if it is that priority's enum label |
| TodoModel.ParsePriorityName | todo-app/backend/src/models/Todo.js:27-30 | each priority's label parses back to that priority |
| TodoModel.StatusRank | todo-app/backend/src/models/Todo.js:23-26 | a status's rank is the position of its label in `ENUM('to_do', 'in_progress', 'completed')` |
| TodoModel.PriorityRank | todo-app/backend/src/models/Todo.js:27-30 | a priority's rank is the position of its label in `ENUM('low', 'medium', 'high', 'urgent')` |
| TodoModel.EnumDeclarationOrder | todo-app/backend/src/models/Todo.js:23-30 | to_do < in_progress < completed and low < medium < high < urgent, and distinct values have distinct ranks |
| TodoModel.DefaultTodo | todo-app/backend/src/models/Todo.js:4-59 | a row built from the column defaults: to_do, medium, not deleted, position 0, no optional values |
| TodoModel.DefaultTodoConsistent | todo-app/backend/src/models/Todo.js:15-18 | a default row is trash-consistent, and storable exactly when its title fits 200 characters |
| TodoValidator.CreateBodyRules | todo-app/backend/src/validators/todoValidator.js:3-13 | a valid create body has a title of 1–200 UTF-16 code units, and so of at most 200 characters, a description of at most 2000 code units (or none), enum values, a UUID category, and no other keys |
| TodoValidator.AstralTitleRefused | todo-app/backend/src/validators/todoValidator.js:4 | a title of more than 100 characters beyond U+FFFF fits the 200-character column but is refused by Joi's `max(200)` |
| TodoValidator.CreateBodyIsUpdateBody | todo-app/backend/src/validators/todoValidator.js:15-22 | every valid create body is a valid update body; an update body is a create body exactly when it has a title |
| TodoValidator.EmptyDescriptionAllowed | todo-app/backend/src/validators/todoValidator.js:4-16 | an empty description is accepted by both schemas, an empty title by neither |
| TodoValidator.BulkOperationOf | todo-app/backend/src/validators/todoValidator.js:24-36 | a valid bulk body names a handled operation; each of the five names selects its own operation, and the value is the priority label or the category id it sets |
| TodoValidator.BulkValuePresence | todo-app/backend/src/validators/todoValidator.js:27-35 | a bulk body carries a value exactly when it sets a priority or a category, and never a null one |
| TodoQuery.DefaultQuery | todo-app/backend/src/controllers/todoController.js:6-10 | the defaults: sort by createdAt DESC, page 1, 50 rows, no filter, no search, trash hidden |
| TodoQuery.SelectedMeans | todo-app/backend/src/controllers/todoController.js:12-27 | a selected todo is the caller's, live unless includeDeleted is truthy, has the status and priority the given labels name and the uuid the given category text denotes, and matches the search |
| TodoQuery.CategoryFilterIgnoresCase | todo-app/backend/src/controllers/todoController.js:20 | a category filter selects the same todos whatever the letter case of its text |
| TodoQuery.TagIdIgnored | todo-app/backend/src/controllers/todoController.js:6-27 | the tagId parameter never changes which todos are selected |
| TodoQuery.IncludeDeletedIsTruthiness | todo-app/backend/src/controllers/todoController.js:14-16 | `includeDeleted=false` is a non-empty string and so shows trashed todos; leaving it out hides them |
| TodoQuery.SearchIgnoresCase | todo-app/backend/src/controllers/todoController.js:22-27 | the search hit does not change when the term, the title or the description is lower-cased |
| TodoQuery.ParseDirection | todo-app/backend/src/controllers/todoController.js:7-39 | a sort order is accepted exactly when, in any letter case, it is one of Sequelize's eight order options; it is descending exactly when it starts with DESC, and puts NULLs first exactly when it ends with FIRST or is a bare DESC |
| TodoQuery.DirectionKeywordRoundTrip | todo-app/backend/src/controllers/todoController.js:39 | every direction has an order option that reads back as itself |
| TodoQuery.ShortDirectionSpellings | todo-app/backend/src/controllers/todoController.js:7-39 | `ASC` means NULLS LAST, `DESC` means NULLS FIRST, and a bare `NULLS FIRST` or `NULLS LAST` is ascending, in any letter case |
| TodoController.OptionOf | todo-app/backend/src/controllers/todoController.js:84 | a key left out or null stores NULL; a given value is stored as given |
| TodoController.TagSet | todo-app/backend/src/controllers/todoController.js:121-122 | `setTags` makes the tag set exactly the given ids; null clears it |
| TodoController.StatusOf | todo-app/backend/src/controllers/todoController.js:84-85 | a missing status key keeps the current value, `null` stores null, and a label stores the status it names |
| TodoController.PriorityOf | todo-app/backend/src/controllers/todoController.js:84-85 | a missing priority key keeps the current value, `null` stores null, and a label stores the priority it names |
| TodoController.CategoryOf | todo-app/backend/src/controllers/todoController.js:84-85 | a missing category key keeps the current value, `null` stores null, and a text stores the canonical uuid it denotes |
| TodoController.ValidatedBodiesAreStorable | todo-app/backend/src/validators/todoValidator.js:3-22 | a body the schemas accept has no null enum and no tags, and fits the columns exactly when the database reads its category id, which it does for every accepted spelling without `:`, `[]` or `()` |
| TodoController.ValidatedColonIdIsRefused | todo-app/backend/src/validators/todoValidator.js:12 | a create body with a colon-separated category id passes the schema and is refused by the database |
| TodoController.CreatedTodo | todo-app/backend/src/controllers/todoController.js:84-85 | a created todo belongs to the caller, takes the body's values and the column defaults for missing keys (an explicit null enum stores null, the category is the uuid its text denotes), starts live and uncompleted, and is storable exactly when its id is uuid text |
| TodoController.CreateIgnoresBodyOwner | todo-app/backend/src/controllers/todoController.js:84 | a `userId` in the body cannot assign the todo to someone else |
| TodoController.CreateCompletedHasNoCompletedAt | todo-app/backend/src/controllers/todoController.js:84-85 | a todo created as completed has no completion time |
| TodoController.UpdatedTodo | todo-app/backend/src/controllers/todoController.js:119 | an update keeps id, creation time, trash state, completion time and position, and keeps a storable row storable |
| TodoController.UpdateChangesOnlyGivenKeys | todo-app/backend/src/controllers/todoController.js:119 | each column changes exactly when its key is in the body: to the body's value, to null for `null`, and a category to the uuid its text denotes; this holds for title, description, priority, status, due date, category and owner |
| TodoController.UpdateIdempotent | todo-app/backend/src/controllers/todoController.js:119 | applying the same body twice is applying it once; an empty body changes nothing |
| TodoController.UpdateStatusKeepsCompletedAt | todo-app/backend/src/controllers/todoController.js:119 | completing a todo through the general update sets no completion time |
| TodoController.Saved | todo-app/backend/src/controllers/todoController.js:161 | an instance save stamps updatedAt only when a column changed |
| TodoController.WithStatus | todo-app/backend/src/controllers/todoController.js:155-160 | a status change, possibly to null, sets a completion time exactly when the new status is completed, and touches nothing else |
| TodoController.RequestedStatus | todo-app/backend/src/controllers/todoController.js:145-155 | the status stored is the one the body names, and null when the body gives none or `null` |
| TodoController.CompleteThenReopen | todo-app/backend/src/controllers/todoController.js:155-160 | completing stamps the time, reopening clears it |
| TodoController.MissingStatusClears | todo-app/backend/src/controllers/todoController.js:145-161 | a status change without a status stores a null status and clears the completion time |
| TodoController.Trashed | todo-app/backend/src/controllers/todoController.js:183-185 | a soft delete marks the todo deleted at `now` and changes nothing else |
| TodoController.Untrashed | todo-app/backend/src/controllers/todoController.js:204-206 | a restore clears the deleted mark and time and changes nothing else |
| TodoController.RestoreUndoesDelete | todo-app/backend/src/controllers/todoController.js:183-206 | deleting then restoring gives back the original todo, except for updatedAt |
| TodoController.BulkApplied | todo-app/backend/src/controllers/todoController.js:251-282 | each bulk operation's effect on one todo (setCategory stores the uuid the value denotes); an unhandled operation changes nothing |
| TodoController.IdKeys | todo-app/backend/src/controllers/todoController.js:240-245 | the listed ids denote canonical uuids |
| TodoController.IdKeysIgnoreCase | todo-app/backend/src/controllers/todoController.js:240-245 | a listed id denotes the same row whatever its letter case |
| TodoController.BulkTargets | todo-app/backend/src/controllers/todoController.js:240-245 | the bulk targets are exactly the rows that exist, are denoted by a listed id and are the caller's |
| TodoController.BulkResult | todo-app/backend/src/controllers/todoController.js:251-282 | a bulk operation removes no row and adds none |
| TodoController.BulkTouchesOnlyOwnedListed | todo-app/backend/src/controllers/todoController.js:253-281 | rows that are not listed or not the caller's are untouched; the targets get the operation; no owner changes |
| TodoController.BulkCompletionConsistent | todo-app/backend/src/controllers/todoController.js:258-269 | after bulk complete or uncomplete, a target has a completion time exactly when it is completed |
| TodoController.AppliedAll | todo-app/backend/src/controllers/todoController.js:251-282 | applying the operation to every target one at a time yields the bulk result |
| TodoController.BulkResultWellFormed | todo-app/backend/src/controllers/todoController.js:251-282 | a bulk operation keeps the table keyed, storable and trash-consistent |
| TodoController.ListingIsOwnerScoped | todo-app/backend/src/controllers/todoController.js:12 | every listed todo belongs to the caller and matches the query |
| TodoController.TodoStore.GetTodos | todo-app/backend/src/controllers/todoController.js:4-56 | fails when a filter value is one the database cannot read, the sort column or direction is unknown, or the page size or offset is negative; otherwise the total is the count of selected todos, the page is the window of them in the requested order, and totalPages covers the total |
| TodoController.TodoStore.GetTodo | todo-app/backend/src/controllers/todoController.js:58-80 | fails in the database on id text that is not a uuid; otherwise returns the row exactly when the uuid the id denotes, in any spelling, is the caller's todo, and 404 otherwise |
| TodoController.TodoStore.CreateTodo | todo-app/backend/src/controllers/todoController.js:82-106 | fails with nothing written when a column refuses a value or the category id names no existing category (the foreign key); otherwise inserts the created todo and its tag set |
| TodoController.TodoStore.UpdateTodo | todo-app/backend/src/controllers/todoController.js:108-140 | fails on id text that is not a uuid; 404 for another's or a missing todo; fails with nothing written when a value does not fit or the category does not exist; otherwise saves the updated row and replaces the tags when they are given |
| TodoController.TodoStore.UpdateTodoStatus | todo-app/backend/src/controllers/todoController.js:142-170 | fails on id text that is not a uuid; 404 for another's todo; an unknown status fails in the database; a missing or null status stores null; otherwise saves the status with its completion time |
| TodoController.TodoStore.DeleteTodo | todo-app/backend/src/controllers/todoController.js:172-191 | fails on id text that is not a uuid; moves the caller's todo to the trash; 404 otherwise |
| TodoController.TodoStore.RestoreTodo | todo-app/backend/src/controllers/todoController.js:193-215 | fails on id text that is not a uuid; restores only the caller's trashed todo; 404 "Todo not found in trash" otherwise |
| TodoController.TodoStore.PermanentlyDeleteTodo | todo-app/backend/src/controllers/todoController.js:217-234 | fails on id text that is not a uuid; removes the caller's todo row, trashed or not, and keeps every other row; 404 otherwise |
| TodoController.TodoStore.BulkOperation | todo-app/backend/src/controllers/todoController.js:236-288 | fails when a listed id is not uuid text; 404 when no listed id is the caller's; fails with nothing written when setCategory names no existing category; otherwise the table becomes the bulk result |
| TodoController.TodoStore.ApplyEach | todo-app/backend/src/controllers/todoController.js:250-281 | the `UPDATE … WHERE id IN (…) AND userId = …`, applied one selected row at a time, leaves every selected row changed by the operation and every other row as it was |
| TodoController.TodoStore.GetTrash | todo-app/backend/src/controllers/todoController.js:290-308 | lists exactly the caller's trashed todos, most recently deleted first |
| CategoryController.CreatedColor | todo-app/backend/src/models/Category.js:19-22 | a missing color takes the default `#3B82F6`; an explicit null stores NULL |
| CategoryController.CreatedCategory | todo-app/backend/src/controllers/categoryController.js:19-23 | a new category belongs to the caller, with the body's name and color, and fits its columns |
| CategoryController.UpdatedCategory | todo-app/backend/src/controllers/categoryController.js:45 | an update keeps id and creation time |
| CategoryController.UpdateAppliesBodyAsGiven | todo-app/backend/src/controllers/categoryController.js:45 | each given key replaces its column, the others stay, an empty body changes nothing, and the row stays storable |
| CategoryController.Detached | todo-app/backend/src/controllers/categoryController.js:67-70 | a todo of the deleted category loses its category and is stamped; any other is unchanged |
| CategoryController.DetachedMatchesUuidValue | todo-app/backend/src/controllers/categoryController.js:67-70 | a stored todo is detached exactly when its category id denotes the same uuid as the path's id text, in whatever spelling |
| CategoryController.DetachAll | todo-app/backend/src/controllers/categoryController.js:67-70 | detaching keeps every todo row |
| CategoryController.DetachAllClearsEveryReference | todo-app/backend/src/controllers/categoryController.js:67-72 | after detaching, no todo refers to the category; only those that did were changed; the table stays well-formed |
| CategoryController.NoReferenceSurvives | todo-app/backend/src/controllers/categoryController.js:67-72 | after deleting through any spelling of the id, no todo refers to that uuid |
| CategoryController.DetachedAll | todo-app/backend/src/controllers/categoryController.js:67-70 | detaching row by row yields the bulk detach |
| CategoryController.CategoryStore.GetCategories | todo-app/backend/src/controllers/categoryController.js:3-14 | lists exactly the caller's categories, by name ascending |
| CategoryController.CategoryStore.CreateCategory | todo-app/backend/src/controllers/categoryController.js:16-32 | inserts the created category, or fails with nothing written |
| CategoryController.CategoryStore.UpdateCategory | todo-app/backend/src/controllers/categoryController.js:34-54 | fails on id text that is not a uuid; 404 "Category not found" for another's category; fails with nothing written on a null name or owner or a name or colour too long; otherwise stores the updated row |
| CategoryController.CategoryStore.DeleteCategory | todo-app/backend/src/controllers/categoryController.js:56-78 | fails on id text that is not a uuid; 404 for another's category; otherwise detaches every todo of any owner whose category is the uuid the id denotes, then removes the category |
| CategoryController.CategoryStore.GetCategoryTodos | todo-app/backend/src/controllers/categoryController.js:80-104 | fails on id text that is not a uuid; lists exactly the caller's live todos in the category, newest first; 404 for another's category |
| AuthController.NewUser | todo-app/backend/src/controllers/authController.js:14 | a registered account is active and has never logged in |
| AuthController.RegisterKeepsEmailsUnique | todo-app/backend/src/controllers/authController.js:9-14 | registering an unused email keeps emails unique |
| AuthController.ProfileUpdated | todo-app/backend/src/controllers/authController.js:78-86 | a truthy name or email replaces the old one, and nothing else changes |
| AuthController.ProfileUpdateKeepsEmailsUnique | todo-app/backend/src/controllers/authController.js:78-86 | the conflict check is enough to keep emails unique |
| AuthController.NewReset | todo-app/backend/src/controllers/authController.js:127-134 | a reset row expires one hour after it is issued and is unused |
| AuthController.Redeemed | todo-app/backend/src/controllers/authController.js:162-163 | redeeming marks that row used at `now` and keeps all rows |
| AuthController.ResetValidForOneHour | todo-app/backend/src/controllers/authController.js:128-156 | a fresh token is accepted exactly up to and including one hour after issue |
| AuthController.RedeemedTokenIsSpent | todo-app/backend/src/controllers/authController.js:149-163 | a used token is never accepted again |
| AuthController.AccountStore.Register | todo-app/backend/src/controllers/authController.js:5-30 | 409 "Email already exists" for a taken email; otherwise inserts the new account |
| AuthController.AccountStore.Login | todo-app/backend/src/controllers/authController.js:32-63 | the same 401 for an unknown email and a wrong password; on success only lastLogin changes |
| AuthController.AccountStore.UpdateProfile | todo-app/backend/src/controllers/authController.js:73-97 | 409 "Email already in use" for another account's email; otherwise stores the updated profile |
| AuthController.AccountStore.ChangePassword | todo-app/backend/src/controllers/authController.js:99-116 | 401 when the current password does not match; otherwise only the password changes |
| AuthController.AccountStore.ForgotPassword | todo-app/backend/src/controllers/authController.js:118-143 | the same answer for known and unknown emails; only a known one gets a reset row |
| AuthController.AccountStore.ResetPassword | todo-app/backend/src/controllers/authController.js:145-169 | 400 for an unknown, used or expired token; otherwise sets the password and spends the token |
| AuthController.AccountStore.DeleteAccount | todo-app/backend/src/controllers/authController.js:171-181 | only deactivates the account; no row is removed |
| ErrorHandler.StatusOr500 | todo-app/backend/src/middleware/errorHandler.js:25 | a set, non-zero status is kept; a missing or zero one becomes 500 |
| ErrorHandler.DetailMessages | todo-app/backend/src/middleware/errorHandler.js:7 | one message per detail, in order |
| ErrorHandler.FieldErrors | todo-app/backend/src/middleware/errorHandler.js:21 | one `{ field, message }` per entry, in order |
| ErrorHandler.ClassifyStatus | todo-app/backend/src/middleware/errorHandler.js:4-27 | 400 for both validation errors, 409 for a unique-constraint error, and the error's own status (or 500) for anything else |
| ErrorHandler.ValidationErrorDetails | todo-app/backend/src/middleware/errorHandler.js:4-9 | a validation error answers 400 with one message per detail, in order, or with its own message when it has no details |
| ErrorHandler.DuplicateNamesFirstPath | todo-app/backend/src/middleware/errorHandler.js:11-16 | a duplicate answers 409 naming the first entry's path, or no field at all |
| ErrorHandler.SequelizeValidationFields | todo-app/backend/src/middleware/errorHandler.js:18-23 | a Sequelize validation error reports every entry, in order |
| ErrorHandler.FallbackResponse | todo-app/backend/src/middleware/errorHandler.js:25-27 | other errors keep a truthy status and message, and fall back to 500 and "Internal server error" |
| ListOps.Keep | todo-app/frontend/src/pages/TodoList.jsx:16 | a filter keeps only passing elements of the list, and every passing one |
| ListOps.KeepMultiplicity | todo-app/frontend/src/pages/TodoList.jsx:16 | a filter keeps each passing element exactly as often as the list holds it, and nothing else |
| ListOps.KeepCountsPositions | todo-app/frontend/src/pages/Dashboard.jsx:20-24 | the length of a filtered list is the number of positions whose element passes |
| ListOps.KeepIsSubsequence | todo-app/frontend/src/pages/TodoList.jsx:16-27 | a filter keeps the order of what it keeps |
| ListOps.KeepEverything | todo-app/frontend/src/store/todoStore.js:82 | a filter that every element passes changes nothing |
| ListOps.KeepDisjointBound | todo-app/frontend/src/pages/Dashboard.jsx:20-24 | two filters that never both pass keep at most the list's length between them |
| ListOps.KeepPartition | todo-app/frontend/src/pages/Dashboard.jsx:20-21 | two complementary filters split the list exactly |
| ClientStore.InitialFilters | todo-app/frontend/src/store/todoStore.js:11-16 | the store starts with every filter at "all" and no search |
| ClientStore.UnlessAll | todo-app/frontend/src/store/todoStore.js:27-29 | a filter is sent exactly when it is not "all", with its value |
| ClientStore.FetchParamsRoundTrip | todo-app/frontend/src/store/todoStore.js:24-31 | the request parameters lose nothing: filters and sort can be read back, and each key is sent exactly when its filter is set |
| ClientStore.InitialParams | todo-app/frontend/src/store/todoStore.js:8-31 | the first fetch asks for everything, newest first |
| ClientStore.ReplaceById | todo-app/frontend/src/store/todoStore.js:57 | an update replaces each element with that id, keeps all others and the length |
| ClientStore.RemoveById | todo-app/frontend/src/store/todoStore.js:82 | a delete removes exactly the elements with that id and keeps every other element as often as it occurs, in order; the new length is the number of positions with another id |
| ClientStore.RemoveAbsentId | todo-app/frontend/src/store/todoStore.js:82 | deleting an id that is not in the list changes nothing |
| ClientStore.CreateThenDelete | todo-app/frontend/src/store/todoStore.js:44-82 | deleting a just-created todo leaves the list as it would be without it |
| ClientStore.ReplaceThenRemove | todo-app/frontend/src/store/todoStore.js:57-83 | an update keeps every id in place, so a later delete removes the same entries |
| ClientStore.ReplaceIdempotent | todo-app/frontend/src/store/todoStore.js:57 | applying the same update twice is applying it once |
| ClientStore.TodoListState.constructor | todo-app/frontend/src/store/todoStore.js:8-18 | the store starts empty, not loading, with the initial filters and createdAt DESC |
| ClientStore.TodoListState.FetchTodos | todo-app/frontend/src/store/todoStore.js:20-39 | sends the current filters and sort; an answer replaces both lists, a failure keeps them; loading ends either way |
| ClientStore.TodoListState.CreateTodo | todo-app/frontend/src/store/todoStore.js:41-51 | the created todo goes first and the rest follow |
| ClientStore.TodoListState.UpdateTodo | todo-app/frontend/src/store/todoStore.js:53-65 | the server's copy replaces the todo with that id |
| ClientStore.TodoListState.UpdateTodoStatus | todo-app/frontend/src/store/todoStore.js:67-76 | the server's copy replaces the todo with that id |
| ClientStore.TodoListState.DeleteTodo | todo-app/frontend/src/store/todoStore.js:78-88 | on success the todo leaves the list; on failure nothing changes |
| ClientStore.TodoListState.SetFilters | todo-app/frontend/src/store/todoStore.js:90-93 | stores the filters and fetches with them and the current sort |
| ClientStore.TodoListState.SetSort | todo-app/frontend/src/store/todoStore.js:95-98 | stores the sort and fetches with it and the current filters |
| TodoListView.FilteredTodos | todo-app/frontend/src/pages/TodoList.jsx:16-27 | the shown list is the live todos that pass the filters, in the store's order, each as often as it occurs; the count shown is the number of visible positions |
| TodoListView.VisibleMeans | todo-app/frontend/src/pages/TodoList.jsx:17-26 | with no filter every live todo shows; a shown todo matches each set filter and the search term in its title |
| TodoListView.SearchIsTitleOnly | todo-app/frontend/src/pages/TodoList.jsx:17 | the description and the category filter do not affect what the page shows |
| TodoListView.UnfilteredShowsLive | todo-app/frontend/src/pages/TodoList.jsx:16-27 | with no filter and no search a list of live todos is shown whole |
| Dashboard.StatsOf | todo-app/frontend/src/pages/Dashboard.jsx:19-31 | total is the list's length; completed counts the completed todos, trashed or not; pending the todos neither completed nor trashed; overdue the uncompleted todos past their due date; so completed and pending never exceed the total |
| Dashboard.CompletedAndPendingCoverLiveTodos | todo-app/frontend/src/pages/Dashboard.jsx:20-21 | over live todos, completed plus pending is the total |
| Dashboard.OverdueAreNotCompleted | todo-app/frontend/src/pages/Dashboard.jsx:22-24 | an overdue todo is uncompleted and has a due date |
| Dashboard.TodayTodos | todo-app/frontend/src/pages/Dashboard.jsx:34-36 | today's list is exactly the uncompleted todos due today, in order, each as often as it occurs |
| TodoModal.DefaultForm | todo-app/frontend/src/components/todos/TodoModal.jsx:11-18 | a new todo's form is empty, medium priority, to_do |
| TodoModal.Prefill | todo-app/frontend/src/components/todos/TodoModal.jsx:22-31 | an edited todo fills the form with nulls as empty text and the due date's calendar part |
| TodoModal.PrefillKeepsPlainDate | todo-app/frontend/src/components/todos/TodoModal.jsx:28 | a due date without a time part is prefilled unchanged |
| TodoModal.Normalize | todo-app/frontend/src/components/todos/TodoModal.jsx:46-50 | an empty date or category is sent as null, a filled one as typed, the rest unchanged |
| TodoModal.EditRoundTrip | todo-app/frontend/src/components/todos/TodoModal.jsx:22-50 | saving an edit unchanged sends the category, title and missing due date back as they were, but a null description as "" |
| TodoModal.Submit | todo-app/frontend/src/components/todos/TodoModal.jsx:52-56 | updates the todo being edited, otherwise creates one, with the normalised data |
| TodoModal.FilledFormPassesSchemas | todo-app/frontend/src/components/todos/TodoModal.jsx:46-56 | a filled form within its input caps passes both server schemas |
| TodoModal.DefaultFormNeedsTitle | todo-app/frontend/src/components/todos/TodoModal.jsx:11-18 | the empty form is refused by the server until a title is typed |

## Left out

- The `User` model file is not part of this model. Account rows hold only the fields the handlers read
  and write. Password hashing is modelled as plain equality.
- Signing and checking JWTs, `getMe`, and the `authenticate` middleware are not modelled. Its
  `isActive` check appears as the `requires users[me].isActive` of the signed-in handlers.
- The random reset token is passed in. `AuthController.AccountStore.ForgotPassword` requires that no
  existing row holds that token, and no collision is modelled.
- Time, random UUIDs and the client's date parsing (`new Date`, `isToday`, `isPast`) are parameters.
- Routes, HTTP framing and response envelopes are not modelled. Only the status codes, messages and
  data are.
- Toasts, rendering, loading spinners and concurrent requests on the client are not modelled.
- Eager-loaded associations (category, tags, subtasks) in responses are not modelled.
- The schema check of the `validate` middleware is modelled as predicates. Its 400 reply is not.
- `TodoQuery.SearchHit`: `%` and `_` in a search term are wildcards for `ILIKE`, and `\` escapes the
  character after it. The model treats all three as plain characters.
- `Text.LowerChar`: only ASCII letters are folded. JavaScript's `toLowerCase`, PostgreSQL's `ILIKE` and
  the `toUpperCase` with which Sequelize matches a sort order fold more (Sequelize reads `deſc` as
  `DESC`, for example).
- `TodoQuery.ParseDirection` follows the order options of Sequelize 6. The modelled files do not fix
  the Sequelize release.
- `Sorting.LexLe`: text is ordered by code point. The database's collation is not modelled.
- `TodoController.TodoStore.GetTodos`:
  - `total` is the number of distinct selected todos. The count that `findAndCountAll` returns with
    joined includes can be larger.
  - `page` and `limit` are integers. Non-numeric query text (NaN) is not modelled.
- `UuidText.IsUuid` follows the GUID rule of Joi 17 with no options. The modelled files do not fix the
  Joi release.
- Owner ids come from the signed token. They are held as canonical uuid text and are never read from
  request text.
- `TodoController.UpdatedTodo` and `CategoryController.UpdatedCategory`: a non-null `userId` in the
  body is stored as given. Its reading as a uuid and its foreign key to `users` are not modelled. A
  `null` one fails, because the column is `allowNull: false`.
- `TodoController.UpdatedTodo`: body keys outside the schema, other than `userId` and `tags`, are not
  modelled. The route's validator refuses them.
- Tag rows (`TodoTag`) are a set of tag id texts per todo. Whether a tag exists (the foreign key) and
  the reading of tag ids as uuids are not modelled.
- The database's cascades when a todo is deleted for good are not modelled. Its entry in the tag map
  is left in place.
- `TodoController.TodoStore.UpdateTodoStatus`: this route has no validator. An unknown status is
  modelled as the database's enum error, without telling which error it is. That is true of every
  `StorageFailure`.
- Category body keys other than `name`, `color` and `userId` are not modelled.
- `TodoModal.BodyOf`: the date input's text becomes an instant through a parameter.
- `Paging.AllPagesReassemble` is about one fixed ordering. Each page of `GET /todos` is its own query,
  ordered only by the sort column. Rows with equal values may come back in a different order on each
  query. Todos created together by `Todo.bulkCreate` (database/seed.js:35) share a `createdAt`. Reading
  page by page can then repeat or skip such rows, and that is not modelled.
- The client's todo holds status and priority as text. A null status or priority from the server is
  not modelled on the client.
