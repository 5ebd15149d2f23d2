/** The todo form (frontend/src/components/todos/TodoModal.jsx): its default contents, the
    prefill from a todo being edited, and the data it submits. */
module TodoModal {
  import opened Wrappers
  import opened Text
  import opened UuidText
  import opened TodoModel
  import opened TodoValidator
  import opened ClientStore

  /** The form's fields, all text as the inputs hold them. */
  datatype Form = Form(title: string, description: string, priority: string, status: string,
                       dueDate: string, categoryId: string)

  /** The data sent on submit: an empty date or category becomes `null`. */
  datatype Submission = Submission(title: string, description: string, priority: string, status: string,
                                   dueDate: Option<string>, categoryId: Option<string>)

  /** Which store action a submit calls. */
  datatype SubmitAction = UpdateAction(id: string, data: Submission) | CreateAction(data: Submission)

  /** The inputs' `maxLength` caps, which count UTF-16 code units as JavaScript does. */
  predicate WithinInputLimits(f: Form) {
    Utf16Length(f.title) <= MaxTitleLength && Utf16Length(f.description) <= MaxDescriptionLength
  }

  /** The form a new todo starts from. */
  function DefaultForm(): (f: Form)
    ensures f.title == "" && f.description == "" && f.dueDate == "" && f.categoryId == ""
    ensures f.priority == PriorityName(Medium) && f.status == StatusName(ToDo)
  {
    Form("", "", "medium", "to_do", "", "")
  }

  /** The form an edited todo starts from: null description and category become empty,
      and a due date keeps only its text before the first `T` (its calendar date). */
  function Prefill(t: ClientTodo): (f: Form)
    ensures f.title == t.title && f.priority == t.priority && f.status == t.status
    ensures t.description.Some? ==> f.description == t.description.value
    ensures t.description.None? ==> f.description == ""
    ensures t.categoryId.Some? ==> f.categoryId == t.categoryId.value
    ensures t.categoryId.None? ==> f.categoryId == ""
    ensures !Truthy(t.dueDate) ==> f.dueDate == ""
    ensures Truthy(t.dueDate) ==> f.dueDate <= t.dueDate.value && 'T' !in f.dueDate
    ensures Truthy(t.dueDate) && 'T' in t.dueDate.value ==> t.dueDate.value[|f.dueDate|] == 'T'
  {
    Form(t.title,
         if t.description.Some? then t.description.value else "",
         t.priority,
         t.status,
         if Truthy(t.dueDate) then BeforeFirst(t.dueDate.value, 'T') else "",
         if t.categoryId.Some? then t.categoryId.value else "")
  }

  /** A date without a time part is prefilled as it is. */
  lemma PrefillKeepsPlainDate(t: ClientTodo)
    requires Truthy(t.dueDate) && 'T' !in t.dueDate.value
    ensures Prefill(t).dueDate == t.dueDate.value
  {
  }

  /** `handleSubmit`'s data: the form as it is, with an empty category or date sent as `null`. */
  function Normalize(f: Form): (d: Submission)
    ensures d.title == f.title && d.description == f.description
    ensures d.priority == f.priority && d.status == f.status
    ensures d.dueDate.None? <==> f.dueDate == ""
    ensures d.dueDate.Some? ==> d.dueDate.value == f.dueDate
    ensures d.categoryId.None? <==> f.categoryId == ""
    ensures d.categoryId.Some? ==> d.categoryId.value == f.categoryId
  {
    Submission(f.title, f.description, f.priority, f.status,
               if f.dueDate == "" then None else Some(f.dueDate),
               if f.categoryId == "" then None else Some(f.categoryId))
  }

  /** Saving an edited todo unchanged sends its category back as it was, but a null
      description goes back as the empty text. */
  lemma EditRoundTrip(t: ClientTodo)
    requires t.categoryId != Some("")
    ensures Normalize(Prefill(t)).categoryId == t.categoryId
    ensures Normalize(Prefill(t)).title == t.title
    ensures t.description.None? ==> Normalize(Prefill(t)).description == ""
    ensures !Truthy(t.dueDate) ==> Normalize(Prefill(t)).dueDate == None
  {
  }

  /** Update for the todo being edited, create otherwise; both send the normalised form. */
  function Submit(editing: Option<ClientTodo>, f: Form): (a: SubmitAction)
    ensures editing.Some? <==> a.UpdateAction?
    ensures editing.Some? ==> a.id == editing.value.id
    ensures a.data == Normalize(f)
  {
    if editing.Some? then UpdateAction(editing.value.id, Normalize(f)) else CreateAction(Normalize(f))
  }

  /** The JSON body the server receives for a submission; the date input's text is read as
      an instant by `toInstant`. */
  function BodyOf(d: Submission, toInstant: string -> int): TodoBody {
    TodoBody(Present(d.title), Present(d.description), Present(d.priority), Present(d.status),
             if d.dueDate.Some? then Present(toInstant(d.dueDate.value)) else Null,
             if d.categoryId.Some? then Present(d.categoryId.value) else Null,
             Absent, Absent)
  }

  /** A form filled within its input caps, with a title, a choice from each select and a
      category picked from the list (or none), passes both server schemas. */
  lemma FilledFormPassesSchemas(f: Form, toInstant: string -> int)
    requires WithinInputLimits(f) && f.title != ""
    requires ParsePriority(f.priority).Some? && ParseStatus(f.status).Some?
    requires f.categoryId == "" || IsUuid(f.categoryId)
    ensures ValidCreateBody(BodyOf(Normalize(f), toInstant))
    ensures ValidUpdateBody(BodyOf(Normalize(f), toInstant))
  {
  }

  /** The default form is within its caps but is refused until a title is typed in. */
  lemma DefaultFormNeedsTitle(toInstant: string -> int)
    ensures WithinInputLimits(DefaultForm())
    ensures !ValidCreateBody(BodyOf(Normalize(DefaultForm()), toInstant))
    ensures ValidCreateBody(BodyOf(Normalize(DefaultForm().(title := "x")), toInstant))
  {
    ParsePriorityName(Medium);
    ParseStatusName(ToDo);
  }
}
