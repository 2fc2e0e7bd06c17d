/** The create/edit dialog (`TaskDialogComponent`): a two-field form whose
    validity rules come from Angular's `required` and `maxLength`
    validators, prefilled in edit mode, closed with the form value on save
    and with nothing on cancel. */
module TaskDialog {
  import opened Domain

  const TitleMaxLength: nat := 100
  const DescriptionMaxLength: nat := 500

  /** The errors a text control can report. */
  datatype ControlError =
    | Required                                          // the value is empty
    | MaxLength(requiredLength: nat, actualLength: nat) // the value is longer than allowed

  /** What `Validators.required` and `Validators.maxLength(max)` report for a
      text value: the empty string is missing, a longer one is too long. */
  function ControlErrors(value: string, max: nat): set<ControlError> {
    (if |value| == 0 then {Required} else {})
    + (if |value| > max then {MaxLength(max, |value|)} else {})
  }

  /** `taskForm.valid`: neither control reports an error. */
  function FormValid(title: string, description: string): (valid: bool)
    ensures valid <==> 0 < |title| <= TitleMaxLength && 0 < |description| <= DescriptionMaxLength
  {
    ControlErrors(title, TitleMaxLength) == {} && ControlErrors(description, DescriptionMaxLength) == {}
  }

  datatype Mode = Create | Edit

  /** `TaskDialogData`: the task to edit, if any, and the mode. */
  datatype DialogData = DialogData(task: Option<Task>, mode: Mode)

  /** `taskForm.value`. */
  datatype FormValue = FormValue(title: string, description: string)

  /** Open, or closed with the value handed to `dialogRef.close`. */
  datatype DialogState = Open | Closed(result: Option<FormValue>)

  /** `x || ''` for a string field of an optional task. */
  function Prefill(field: Option<string>): string {
    field.GetOr("")
  }

  class TaskDialogComponent {
    const data: DialogData
    var title: string
    var description: string
    var state: DialogState

    /** Opening the dialog runs `initForm`: the fields start from the task
        handed in (edit mode) or empty (create mode, which is therefore not
        yet valid). */
    constructor (data: DialogData)
      ensures this.data == data && state == Open
      ensures data.task.Some? ==> title == data.task.value.title && description == data.task.value.description
      ensures data.task.None? ==> title == "" && description == "" && !FormValid(title, description)
    {
      this.data := data;
      title := Prefill(if data.task.Some? then Some(data.task.value.title) else None);
      description := Prefill(if data.task.Some? then Some(data.task.value.description) else None);
      state := Open;
    }

    /** The user types into the title field. */
    method EditTitle(value: string)
      requires state.Open?
      modifies this`title
      ensures title == value
    {
      title := value;
    }

    /** The user types into the description field. */
    method EditDescription(value: string)
      requires state.Open?
      modifies this`description
      ensures description == value
    {
      description := value;
    }

    /** `onSave`: closes with the form value when the form is valid;
        otherwise the dialog stays open. */
    method OnSave()
      requires state.Open?
      modifies this`state
      ensures FormValid(title, description) ==> state == Closed(Some(FormValue(title, description)))
      ensures !FormValid(title, description) ==> state == Open
    {
      if FormValid(title, description) {
        state := Closed(Some(FormValue(title, description)));
      }
    }

    /** `onCancel`: closes with no value. */
    method OnCancel()
      requires state.Open?
      modifies this`state
      ensures state == Closed(None)
    {
      state := Closed(None);
    }
  }
}
