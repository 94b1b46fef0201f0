/**
 * The task dialog's form: its field values and per-field error messages,
 * loaded when the dialog opens, edited field by field, validated on submit,
 * and reset on close. Submitting a valid form asks for a create or an update
 * with the title and description trimmed, then closes the dialog.
 */
module TaskModalForm {
  import opened Wrappers
  import opened Constants
  import opened JsString
  import opened TaskSlice
  import opened UiSlice
  import ColumnView

  datatype Field = TitleField | DescriptionField | ColumnField

  /** The form's `formData` state. */
  datatype FormData = FormData(title: string, description: string, column: Column)

  /** One change event from one of the three inputs. */
  datatype FieldEdit = EditTitle(title: string) | EditDescription(description: string) | EditColumn(column: Column)

  /** The `taskData` sent to the server. */
  datatype TaskData = TaskData(title: string, description: string, column: Column)

  /** The mutation a submit calls: `createTask(taskData)` or `updateTask({id, task: taskData})`. */
  datatype SubmitRequest = CreateRequest(data: TaskData) | UpdateRequest(id: Option<int>, data: TaskData)

  /**
   * How a submit ends: the form was invalid; it was valid but edit mode had no
   * task, so reading its identifier throws; or a request was made.
   */
  datatype SubmitOutcome = Rejected | Faulted | Submitted(request: SubmitRequest)

  const BlankForm: FormData := FormData("", "", Backlog)
  const TitleRequired: string := "Title is required"
  const DescriptionRequired: string := "Description is required"

  function EditedField(e: FieldEdit): Field {
    match e
    case EditTitle(_) => TitleField
    case EditDescription(_) => DescriptionField
    case EditColumn(_) => ColumnField
  }

  /** `setFormData(prev => ({...prev, [field]: value}))`: the edited field takes the new value, the others stay. */
  function ApplyEdit(f: FormData, e: FieldEdit): (r: FormData)
    ensures e.EditTitle? ==> r.title == e.title
    ensures e.EditDescription? ==> r.description == e.description
    ensures e.EditColumn? ==> r.column == e.column
    ensures EditedField(e) != TitleField ==> r.title == f.title
    ensures EditedField(e) != DescriptionField ==> r.description == f.description
    ensures EditedField(e) != ColumnField ==> r.column == f.column
  {
    match e
    case EditTitle(t) => f.(title := t)
    case EditDescription(d) => f.(description := d)
    case EditColumn(c) => f.(column := c)
  }

  /** `errors[field]` is truthy: there is a non-empty message for the field. */
  predicate HasError(errs: map<Field, string>, f: Field) {
    f in errs && errs[f] != ""
  }

  /** Clearing the message of a field that has one (by setting it to ''); other fields' messages stay. */
  function ClearError(errs: map<Field, string>, f: Field): (r: map<Field, string>)
    ensures !HasError(r, f)
    ensures !HasError(errs, f) ==> r == errs
    ensures forall g :: g != f ==> (g in r <==> g in errs)
    ensures forall g :: g != f && g in errs ==> r[g] == errs[g]
  {
    if HasError(errs, f) then errs[f := ""] else errs
  }

  /** The errors `validateForm` finds: one message per blank field, none for the column. */
  function ValidationErrors(f: FormData): (errs: map<Field, string>)
    ensures TitleField in errs <==> IsBlank(f.title)
    ensures DescriptionField in errs <==> IsBlank(f.description)
    ensures ColumnField !in errs
    ensures TitleField in errs ==> errs[TitleField] == TitleRequired
    ensures DescriptionField in errs ==> errs[DescriptionField] == DescriptionRequired
    ensures |errs| == 0 <==> !IsBlank(f.title) && !IsBlank(f.description)
  {
    var withTitle := if IsBlank(f.title) then map[TitleField := TitleRequired] else map[];
    var all := if IsBlank(f.description) then withTitle[DescriptionField := DescriptionRequired] else withTitle;
    assert TitleField in all ==> |all| > 0;
    all
  }

  predicate IsValid(f: FormData) {
    !IsBlank(f.title) && !IsBlank(f.description)
  }

  /**
   * The `taskData` of a submit: the form's own title and description, trimmed
   * (`TrimShape` says which slice of the text that is), and the chosen column.
   */
  function ToTaskData(f: FormData): (d: TaskData)
    ensures d.title == Trim(f.title) && d.description == Trim(f.description)
    ensures Trim(d.title) == d.title && Trim(d.description) == d.description
    ensures |d.title| <= |f.title| && |d.description| <= |f.description|
    ensures d.column == f.column
  {
    TrimIdempotent(f.title);
    TrimIdempotent(f.description);
    TaskData(Trim(f.title), Trim(f.description), f.column)
  }

  /** A valid form's data has a non-empty title and description with no white space around them. */
  lemma SubmittedDataIsTrimmed(f: FormData)
    requires IsValid(f)
    ensures var d := ToTaskData(f);
            d.title != "" && !IsWhitespace(d.title[0]) && !IsWhitespace(d.title[|d.title| - 1])
            && d.description != "" && !IsWhitespace(d.description[0])
            && !IsWhitespace(d.description[|d.description| - 1])
            && d.column == f.column
            && Trim(d.title) == d.title && Trim(d.description) == d.description
  {
    TrimShape(f.title);
    TrimShape(f.description);
    TrimIdempotent(f.title);
    TrimIdempotent(f.description);
  }

  /**
   * The form the open effect loads: the task's fields when editing a task,
   * otherwise blanks with the handed-over task's column or the backlog.
   */
  function FormOnOpen(m: TaskModal): (r: FormData)
    ensures m.mode == EditMode && m.task.Some? ==>
              r.title == m.task.value.title && r.description == m.task.value.description
              && r.column == m.task.value.column
    ensures !(m.mode == EditMode && m.task.Some?) ==>
              r.title == "" && r.description == ""
              && r.column == (if m.task.Some? then m.task.value.column else Backlog)
  {
    if m.mode == EditMode && m.task.Some? then
      FormData(m.task.value.title, m.task.value.description, m.task.value.column)
    else
      FormData("", "", match m.task case Some(t) => t.column case None => Backlog)
  }

  /** What `handleSubmit` asks for, given the form and the dialog state. */
  function SubmitDecision(f: FormData, m: TaskModal): (o: SubmitOutcome)
    ensures o.Submitted? <==> IsValid(f) && (m.mode == EditMode ==> m.task.Some?)
    ensures o == Faulted <==> IsValid(f) && m.mode == EditMode && m.task.None?
    ensures o.Submitted? ==> o.request.data == ToTaskData(f) && (o.request.UpdateRequest? <==> m.mode == EditMode)
  {
    if !IsValid(f) then Rejected
    else if m.mode == EditMode then
      match m.task
      case None => Faulted
      case Some(t) => Submitted(UpdateRequest(t.id, ToTaskData(f)))
    else Submitted(CreateRequest(ToTaskData(f)))
  }

  /** A form with a blank title or description makes no request. */
  lemma InvalidFormMakesNoRequest(f: FormData, m: TaskModal)
    requires IsBlank(f.title) || IsBlank(f.description)
    ensures SubmitDecision(f, m) == Rejected
  {
  }

  /**
   * A valid form makes exactly one request: an update of the dialog's task
   * in edit mode, a create otherwise, with the trimmed data.
   */
  lemma ValidFormMakesOneRequest(f: FormData, m: TaskModal)
    requires IsValid(f)
    requires m.mode == EditMode ==> m.task.Some?
    ensures SubmitDecision(f, m).Submitted?
    ensures m.mode == EditMode ==> SubmitDecision(f, m).request == UpdateRequest(m.task.value.id, ToTaskData(f))
    ensures m.mode == CreateMode ==> SubmitDecision(f, m).request == CreateRequest(ToTaskData(f))
  {
  }

  /** The column's "Add Task" button opens a blank form for that column. */
  lemma AddTaskOpensBlankForm(m: TaskModal, c: Column)
    ensures var p := ColumnView.AddTaskPayload(c);
            FormOnOpen(Opened(m, p.0, p.1)) == FormData("", "", c)
  {
  }

  /** Editing a stored task loads its fields; submitting them unchanged asks to update that task with them. */
  lemma EditRoundTrip(m: TaskModal, t: Task)
    requires IsValid(FormData(t.title, t.description, t.column))
    requires Trim(t.title) == t.title && Trim(t.description) == t.description
    ensures var dialog := Opened(m, EditMode, Some(FromTask(t)));
            FormOnOpen(dialog) == FormData(t.title, t.description, t.column)
            && SubmitDecision(FormOnOpen(dialog), dialog)
               == Submitted(UpdateRequest(Some(t.id), TaskData(t.title, t.description, t.column)))
  {
  }

  /** The dialog's form state. */
  class TaskForm {
    var formData: FormData
    var errors: map<Field, string>

    constructor ()
      ensures formData == BlankForm && errors == map[]
    {
      formData := BlankForm;
      errors := map[];
    }

    /** The effect that runs when the dialog state changes: an open dialog reloads the form and clears the errors. */
    method OnTaskModalChange(m: TaskModal)
      modifies this
      ensures m.isOpen ==> formData == FormOnOpen(m) && errors == map[]
      ensures !m.isOpen ==> formData == old(formData) && errors == old(errors)
    {
      if m.isOpen {
        if m.mode == EditMode && m.task.Some? {
          formData := FormData(m.task.value.title, m.task.value.description, m.task.value.column);
        } else {
          formData := FormData("", "", if m.task.Some? then m.task.value.column else Backlog);
        }
        errors := map[];
      }
    }

    /** `handleInputChange(field)(event)`: set the field; clear its message if it has one. */
    method HandleInputChange(e: FieldEdit)
      modifies this
      ensures formData == ApplyEdit(old(formData), e)
      ensures errors == ClearError(old(errors), EditedField(e))
    {
      formData := ApplyEdit(formData, e);
      var field := EditedField(e);
      if field in errors && errors[field] != "" {
        errors := errors[field := ""];
      }
    }

    /** `validateForm`: collect a message per blank field, store them, and succeed when there are none. */
    method ValidateForm() returns (ok: bool)
      modifies this
      ensures formData == old(formData)
      ensures errors == ValidationErrors(formData)
      ensures ok <==> IsValid(formData)
    {
      var newErrors: map<Field, string> := map[];
      if IsBlank(formData.title) {
        newErrors := newErrors[TitleField := TitleRequired];
      }
      if IsBlank(formData.description) {
        newErrors := newErrors[DescriptionField := DescriptionRequired];
      }
      errors := newErrors;
      ok := |newErrors| == 0;
    }

    /** `handleClose`: close the dialog, blank the form, clear the errors. */
    method HandleClose(ui: UiStore)
      modifies this, ui
      ensures formData == BlankForm && errors == map[]
      ensures ui.Snapshot() == Closed(old(ui.Snapshot()))
    {
      ui.CloseTaskModal();
      formData := BlankForm;
      errors := map[];
    }

    /**
     * `handleSubmit`: validate; on success build the trimmed data, ask for an
     * update (edit mode) or a create, and close.
     */
    method HandleSubmit(ui: UiStore) returns (outcome: SubmitOutcome)
      modifies this, ui
      ensures outcome == SubmitDecision(old(formData), old(ui.Snapshot()))
      ensures !outcome.Submitted? ==>
                formData == old(formData) && errors == ValidationErrors(old(formData))
                && ui.Snapshot() == old(ui.Snapshot())
      ensures outcome.Submitted? ==>
                formData == BlankForm && errors == map[] && ui.Snapshot() == InitialTaskModal()
    {
      var ok := ValidateForm();
      if !ok {
        return Rejected;
      }
      var taskData := ToTaskData(formData);
      if ui.mode == EditMode {
        if ui.task.None? {
          return Faulted;
        }
        outcome := Submitted(UpdateRequest(ui.task.value.id, taskData));
      } else {
        outcome := Submitted(CreateRequest(taskData));
      }
      HandleClose(ui);
    }
  }
}
