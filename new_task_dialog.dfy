/**
 * frontend/src/components/NewTaskDialog.jsx: the title check shown under the
 * title field, and the dialog's form state. The dialog holds the form, the
 * set of touched fields, and records each call it makes to its `onSubmit`
 * and `onClose` callbacks.
 */
module NewTaskDialog {
  import opened Wrappers
  import opened Text
  import TaskModel
  import TasksValidator

  datatype FormField = TitleField | DescriptionField | StatusField | PriorityField | DueDateField

  /** The form; `dueDate` is the date input's `yyyy-mm-dd` text. */
  datatype Form = Form(title: string, description: string, status: string, priority: string, dueDate: string)

  /** `initialForm`. */
  const InitialForm: Form := Form("", "", "todo", "medium", "")

  function FieldValue(form: Form, name: FormField): string
  {
    match name
    case TitleField => form.title
    case DescriptionField => form.description
    case StatusField => form.status
    case PriorityField => form.priority
    case DueDateField => form.dueDate
  }

  /** `{ ...prev, [name]: value }`. */
  function WithField(form: Form, name: FormField, value: string): (r: Form)
    ensures FieldValue(r, name) == value
    ensures forall other :: other != name ==> FieldValue(r, other) == FieldValue(form, other)
  {
    match name
    case TitleField => form.(title := value)
    case DescriptionField => form.(description := value)
    case StatusField => form.(status := value)
    case PriorityField => form.(priority := value)
    case DueDateField => form.(dueDate := value)
  }

  const RequiredMessage: string := "Title is required."
  const TooLongMessage: string := "Title is too long (max 120)."
  const TooShortMessage: string := "Title is too short (min 3)."

  /** `errors.title`: the three checks run in order on the trimmed title and the last one that fires wins. */
  function TitleError(title: string): (r: Option<string>)
    ensures r == Some(RequiredMessage) <==> Trim(title) == []
    ensures r == Some(TooShortMessage) <==> 1 <= |Trim(title)| < 3
    ensures r == Some(TooLongMessage) <==> |Trim(title)| > 120
    ensures r.None? <==> 3 <= |Trim(title)| <= 120
  {
    var t := Trim(title);
    var e := if t == [] then Some(RequiredMessage) else None;
    var e := if |t| > 120 then Some(TooLongMessage) else e;
    if t != [] && |t| < 3 then Some(TooShortMessage) else e
  }

  /** `isValid`: no error is recorded, that is, the trimmed title has 3 to 120 characters. */
  predicate IsValid(form: Form)
  {
    3 <= |Trim(form.title)| <= 120
  }

  /** `isValid` holds exactly when the title check records no error. */
  lemma ValidIffNoError(form: Form)
    ensures IsValid(form) <==> TitleError(form.title).None?
  {
  }

  /** The object handed to `onSubmit`. */
  datatype Payload = Payload(title: string, description: string, status: string, priority: string, dueDate: string)

  function PayloadOf(form: Form): Payload
  {
    Payload(Trim(form.title), form.description, form.status, form.priority, form.dueDate)
  }

  /** The fields `handleSubmit` marks as touched; the description is not among them. */
  const SubmitTouched: set<FormField> := {TitleField, StatusField, PriorityField, DueDateField}

  class Dialog {
    var form: Form
    var touched: set<FormField>
    /** The payloads passed to `onSubmit`, in order. */
    var submitted: seq<Payload>
    /** How many times `onClose` was called. */
    var closeRequests: nat

    constructor()
      ensures form == InitialForm && touched == {} && submitted == [] && closeRequests == 0
    {
      form := InitialForm;
      touched := {};
      submitted := [];
      closeRequests := 0;
    }

    /** The effect run when `open` becomes true: a fresh form with nothing touched. */
    method Open()
      modifies this
      ensures form == InitialForm && touched == {}
      ensures submitted == old(submitted) && closeRequests == old(closeRequests)
    {
      form := InitialForm;
      touched := {};
    }

    /** `updateField(name, value)`: only the named field changes. */
    method UpdateField(name: FormField, value: string)
      modifies this
      ensures FieldValue(form, name) == value
      ensures forall other :: other != name ==> FieldValue(form, other) == FieldValue(old(form), other)
      ensures touched == old(touched) && submitted == old(submitted) && closeRequests == old(closeRequests)
    {
      form := WithField(form, name, value);
    }

    /** `markTouched(name)`. */
    method MarkTouched(name: FormField)
      modifies this
      ensures touched == old(touched) + {name}
      ensures form == old(form) && submitted == old(submitted) && closeRequests == old(closeRequests)
    {
      touched := touched + {name};
    }

    /** `handleCancel`: asks the owner to close the dialog. */
    method HandleCancel()
      modifies this
      ensures closeRequests == old(closeRequests) + 1
      ensures form == old(form) && touched == old(touched) && submitted == old(submitted)
    {
      closeRequests := closeRequests + 1;
    }

    /**
     * `handleSubmit`: marks the fields touched; an invalid form stops there,
     * a valid one is submitted once, with the title trimmed, and then the
     * dialog asks to be closed.
     */
    method HandleSubmit()
      modifies this
      ensures touched == SubmitTouched && form == old(form)
      ensures !IsValid(old(form)) ==> submitted == old(submitted) && closeRequests == old(closeRequests)
      ensures IsValid(old(form)) ==> submitted == old(submitted) + [PayloadOf(old(form))]
                                     && closeRequests == old(closeRequests) + 1
    {
      touched := SubmitTouched;
      // an invalid form returns here, after focusing the title input
      if IsValid(form) {
        submitted := submitted + [PayloadOf(form)];
        closeRequests := closeRequests + 1;
      }
    }
  }

  /**
   * A payload the dialog submits has a title that is already trimmed, 3 to
   * 120 characters long, and accepted by the backend's create schema and by
   * the Task document's own title constraint.
   */
  lemma SubmittedTitleAccepted(form: Form)
    requires IsValid(form)
    ensures Trim(PayloadOf(form).title) == PayloadOf(form).title
    ensures 3 <= |PayloadOf(form).title| <= 120
    ensures TasksValidator.TitleAccepted(Some(TasksValidator.Str(PayloadOf(form).title)))
    ensures TaskModel.TitleErrors(Some(PayloadOf(form).title)) == []
  {
    TrimIdempotent(form.title);
  }

  /** Whitespace around a title makes no difference to the check. */
  lemma TitleErrorIgnoresPadding(title: string)
    ensures TitleError(Trim(title)) == TitleError(title)
  {
    TrimIdempotent(title);
  }

  /** The form the dialog opens with is invalid (empty title) and carries the backend's default status and priority. */
  lemma InitialFormDefaults()
    ensures !IsValid(InitialForm) && TitleError(InitialForm.title) == Some(RequiredMessage)
    ensures TaskModel.ParseStatus(InitialForm.status) == Some(TaskModel.Todo)
    ensures TaskModel.ParsePriority(InitialForm.priority) == Some(TaskModel.Medium)
  {
    assert Trim("") == [];
  }
}
