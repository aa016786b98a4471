/** The task form (src/components/TaskForm.tsx): six input fields, prefilled from the task
    being edited, validated and turned into a draft on submit, and reset after a create. */
module TaskForm {
  import opened Wrappers
  import opened TaskCard
  import Text

  /** The six `useState` fields; `dueDate` is `None` when the calendar has no selection. */
  datatype FormFields = FormFields(
    title: string,
    description: string,
    dueDate: Option<int>,
    priority: Priority,
    attachments: int,
    collaborators: int)

  /** The initial `useState` values, with `new Date()` taken as `now`. */
  function InitialFields(now: int): FormFields {
    FormFields("", "", Some(now), Medium, 0, 0)
  }

  /** The prefill effect: an edited task's six fields replace the form's. */
  function Prefilled(f: FormFields, editTask: Option<Task>): (g: FormFields)
    ensures editTask.None? ==> g == f
    ensures editTask.Some? ==>
      var e := editTask.value;
      g.title == e.title && g.description == e.description && g.dueDate == Some(e.dueDate)
      && g.priority == e.priority && g.attachments == e.attachments && g.collaborators == e.collaborators
  {
    match editTask
    case None => f
    case Some(e) => FormFields(e.title, e.description, Some(e.dueDate), e.priority, e.attachments, e.collaborators)
  }

  /** `editTask?.status || "todo"`: the edited task's status unless it is missing or empty. */
  function SubmittedStatus(editTask: Option<Task>): (s: Status)
    ensures editTask.None? ==> s == Todo
    ensures editTask.Some? ==> s == if editTask.value.status == "" then Todo else editTask.value.status
  {
    if editTask.Some? && editTask.value.status != "" then editTask.value.status else Todo
  }

  /** What `handleSubmit` passes to `onSubmit`: nothing for a blank title, otherwise the
      current fields (no id), the due date defaulting to `now` and the status as above. */
  function Submission(f: FormFields, editTask: Option<Task>, now: int): (r: Option<Draft>)
    ensures r.None? <==> Text.AllWhitespace(f.title)
    ensures r.Some? ==> r.value == Draft(f.title, f.description, f.priority, f.dueDate.GetOr(now),
                                         f.attachments, f.collaborators, SubmittedStatus(editTask))
  {
    Text.TrimEmptyIffBlank(f.title);
    if Text.Trim(f.title) == "" then None
    else Some(Draft(f.title, f.description, f.priority, f.dueDate.GetOr(now),
                    f.attachments, f.collaborators, SubmittedStatus(editTask)))
  }

  /** The fields after `handleSubmit`: reset after a create, untouched after an edit or a
      rejected (blank) submission. */
  function AfterSubmit(f: FormFields, editTask: Option<Task>, now: int): (g: FormFields)
    ensures Text.AllWhitespace(f.title) || editTask.Some? ==> g == f
    ensures !Text.AllWhitespace(f.title) && editTask.None? ==> g == InitialFields(now)
  {
    Text.TrimEmptyIffBlank(f.title);
    if Text.Trim(f.title) == "" || editTask.Some? then f else InitialFields(now)
  }

  /** Opening the form on a task and submitting it unchanged gives back that task's draft,
      and leaves the fields as they were. */
  lemma UnchangedEditResubmits(f: FormFields, e: Task, now: int)
    requires !Text.AllWhitespace(e.title) && e.status != ""
    ensures Submission(Prefilled(f, Some(e)), Some(e), now) == Some(DraftOf(e))
    ensures AfterSubmit(Prefilled(f, Some(e)), Some(e), now) == Prefilled(f, Some(e))
  {
  }

  /** A blank title is rejected for every field state, creating or editing. */
  lemma BlankTitleRejected(f: FormFields, editTask: Option<Task>, now: int)
    requires forall i :: 0 <= i < |f.title| ==> f.title[i] == ' '
    ensures Submission(f, editTask, now).None?
    ensures AfterSubmit(f, editTask, now) == f
  {
  }

  /** The mounted form: its six fields and the `editTask` prop. */
  class TaskFormState {
    var title: string
    var description: string
    var dueDate: Option<int>
    var priority: Priority
    var attachments: int
    var collaborators: int
    var editTask: Option<Task>

    function Current(): FormFields
      reads this
    {
      FormFields(title, description, dueDate, priority, attachments, collaborators)
    }

    /** Mounting the form: the `useState` initial values, then the prefill effect. */
    constructor (editTask: Option<Task>, now: int)
      ensures this.editTask == editTask
      ensures Current() == Prefilled(InitialFields(now), editTask)
    {
      title := "";
      description := "";
      dueDate := Some(now);
      priority := Medium;
      attachments := 0;
      collaborators := 0;
      this.editTask := editTask;
      if editTask.Some? {
        var e := editTask.value;
        title := e.title;
        description := e.description;
        dueDate := Some(e.dueDate);
        priority := e.priority;
        attachments := e.attachments;
        collaborators := e.collaborators;
      }
    }

    /** A new `editTask` prop, and the prefill effect that it triggers. */
    method SetEditTask(e: Option<Task>)
      modifies this
      ensures editTask == e
      ensures Current() == Prefilled(old(Current()), e)
    {
      editTask := e;
      if e.Some? {
        title := e.value.title;
        description := e.value.description;
        dueDate := Some(e.value.dueDate);
        priority := e.value.priority;
        attachments := e.value.attachments;
        collaborators := e.value.collaborators;
      }
    }

    /** `handleSubmit` at instant `now`: returns what is passed to `onSubmit` (`None` when
        nothing is called) and updates the fields as the source does. */
    method Submit(now: int) returns (submitted: Option<Draft>)
      modifies this
      ensures submitted == Submission(old(Current()), editTask, now)
      ensures Current() == AfterSubmit(old(Current()), editTask, now)
      ensures editTask == old(editTask)
    {
      if Text.Trim(title) == "" {
        return None;
      }
      var status := if editTask.Some? && editTask.value.status != "" then editTask.value.status else Todo;
      submitted := Some(Draft(title, description, priority, dueDate.GetOr(now), attachments, collaborators, status));
      if editTask.None? {
        title := "";
        description := "";
        dueDate := Some(now);
        priority := Medium;
        attachments := 0;
        collaborators := 0;
      }
    }
  }
}
