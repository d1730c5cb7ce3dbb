/** The submission form (components/FormFrame.tsx): four fields, a
    submitting flag that disables the button while the save is in flight,
    and a success flag that swaps the form for a confirmation panel. */
module SubmissionForm {
  import opened Types
  import opened Storage

  /** The form's fields when it is first shown and after a successful save. */
  const INITIAL_FORM: ResponseInput := ResponseInput("", "", General, "")

  datatype FormState = FormState(formData: ResponseInput, isSubmitting: bool, isSuccess: bool)

  function InitialState(): (s: FormState)
    ensures s.formData.name == "" && s.formData.email == "" && s.formData.message == ""
    ensures s.formData.category == General
    ensures !s.isSubmitting && !s.isSuccess
  {
    FormState(INITIAL_FORM, false, false)
  }

  /** The start of handleSubmit: the button turns into the spinner. */
  function BeginSubmit(s: FormState): (r: FormState)
    ensures r.isSubmitting
    ensures r.formData == s.formData && r.isSuccess == s.isSuccess
  {
    s.(isSubmitting := true)
  }

  /** The end of handleSubmit, and the alert it raises, if any. */
  datatype Settled = Settled(next: FormState, alert: Option<string>)

  /** The end of handleSubmit: on success the confirmation is shown and the
      fields reset; on failure the fields are kept and the adapter's message
      is alerted; either way the spinner stops. */
  function FinishSubmit(s: FormState, result: StorageResult): (r: Settled)
    ensures !r.next.isSubmitting
    ensures result.success ==> r.next.isSuccess && r.next.formData == INITIAL_FORM && r.alert == None
    ensures !result.success ==>
      r.next.formData == s.formData && r.next.isSuccess == s.isSuccess && r.alert == Some(result.message)
  {
    if result.success then Settled(FormState(INITIAL_FORM, false, true), None)
    else Settled(s.(isSubmitting := false), Some(result.message))
  }

  /** "Submit Another": back to the form, nothing else touched. */
  function SubmitAnother(s: FormState): (r: FormState)
    ensures !r.isSuccess
    ensures r.formData == s.formData && r.isSubmitting == s.isSubmitting
  {
    s.(isSuccess := false)
  }

  /** The three text fields. */
  datatype TextField = Name | Email | Message

  /** A text field's change handler: that field takes the new text, the
      other fields and both flags are kept. */
  function EditText(s: FormState, field: TextField, text: string): (r: FormState)
    ensures r.isSubmitting == s.isSubmitting && r.isSuccess == s.isSuccess
    ensures r.formData.category == s.formData.category
    ensures r.formData.name == (if field == Name then text else s.formData.name)
    ensures r.formData.email == (if field == Email then text else s.formData.email)
    ensures r.formData.message == (if field == Message then text else s.formData.message)
  {
    match field
    case Name => s.(formData := s.formData.(name := text))
    case Email => s.(formData := s.formData.(email := text))
    case Message => s.(formData := s.formData.(message := text))
  }

  /** The category selector's change handler. */
  function EditCategory(s: FormState, c: Category): (r: FormState)
    ensures r.formData == ResponseInput(s.formData.name, s.formData.email, c, s.formData.message)
    ensures r.isSubmitting == s.isSubmitting && r.isSuccess == s.isSuccess
  {
    s.(formData := s.formData.(category := c))
  }

  /** A submission whose write succeeds, followed by "Submit Another",
      brings the form back to exactly its initial state. */
  lemma SuccessThenAnotherIsFresh(s: FormState, write: WriteOutcome)
    requires write.WriteOk?
    ensures SubmitAnother(FinishSubmit(BeginSubmit(s), SaveResult(write)).next) == InitialState()
  {
  }

  /** A submission whose write fails alerts the adapter's failure message
      and keeps the fields, so submitting again sends the same four values. */
  lemma FailureKeepsInput(s: FormState, write: WriteOutcome)
    requires !write.WriteOk?
    ensures var settled := FinishSubmit(BeginSubmit(s), SaveResult(write));
      settled.alert == Some(SYNC_FAILED_MESSAGE) &&
      settled.next.formData == s.formData &&
      BeginSubmit(settled.next).formData == s.formData
  {
  }

  class FormFrame {
    var formData: ResponseInput
    var isSubmitting: bool
    var isSuccess: bool

    function State(): FormState
      reads this
    {
      FormState(formData, isSubmitting, isSuccess)
    }

    constructor ()
      ensures State() == InitialState()
    {
      formData := INITIAL_FORM;
      isSubmitting := false;
      isSuccess := false;
    }

    /** The first half of handleSubmit, before the save is awaited. */
    method StartSubmit()
      modifies this
      ensures State() == BeginSubmit(old(State()))
    {
      isSubmitting := true;
    }

    /** The second half of handleSubmit, once the save has answered.
        `alert` is the message shown in a dialog, if any. */
    method Settle(result: StorageResult) returns (alert: Option<string>)
      modifies this
      ensures Settled(State(), alert) == FinishSubmit(old(State()), result)
    {
      alert := None;
      if result.success {
        isSuccess := true;
        formData := INITIAL_FORM;
      } else {
        alert := Some(result.message);
      }
      isSubmitting := false;
    }

    /** handleSubmit: the current fields are saved through the adapter while
        the spinner shows; the form then settles on the adapter's result. */
    method HandleSubmit(service: StorageService, read: ReadOutcome, write: WriteOutcome,
                        id: string, now: int, userAgent: string) returns (alert: Option<string>)
      modifies this, service
      ensures service.cloud == SavedCloud(old(service.cloud), NewRecord(old(formData), id, now, userAgent), read, write)
      ensures Settled(State(), alert) == FinishSubmit(BeginSubmit(old(State())), SaveResult(write))
    {
      StartSubmit();
      var result := service.SaveResponse(formData, read, write, id, now, userAgent);
      alert := Settle(result);
    }

    method SubmitAnotherClick()
      modifies this
      ensures State() == SubmitAnother(old(State()))
    {
      isSuccess := false;
    }

    method OnTextChange(field: TextField, text: string)
      modifies this
      ensures State() == EditText(old(State()), field, text)
    {
      match field
      case Name => formData := formData.(name := text);
      case Email => formData := formData.(email := text);
      case Message => formData := formData.(message := text);
    }

    method OnCategoryChange(c: Category)
      modifies this
      ensures State() == EditCategory(old(State()), c)
    {
      formData := formData.(category := c);
    }
  }
}
