/** opinion-hub-frontend/components/ParticipateModal.tsx: the dialog in which a
    participant picks one choice of an active survey and submits it. While a
    submission is in flight the choices, the cancel button and the dialog's
    closing are all disabled. */
module ParticipateModal {
  import opened Base

  const FallbackError := "Failed to submit response"

  /** What a rejected `onSubmit` can throw: an `Error` object, whose message
      is shown, or any other value. */
  datatype Thrown = ErrorObject(message: string) | OtherValue

  /** The message the dialog shows for a failure (line 51). */
  function ErrorMessage(thrown: Thrown): (m: string)
    ensures thrown.ErrorObject? ==> m == thrown.message
    ensures thrown.OtherValue? ==> m == FallbackError && m != ""
  {
    match thrown
    case ErrorObject(message) => message
    case OtherValue => FallbackError
  }

  /** A failure leaves the error banner empty only when it threw an `Error`
      with an empty message: any other thrown value shows the fallback. */
  lemma SilentFailureNeedsEmptyMessage(thrown: Thrown)
    ensures ErrorMessage(thrown) == "" <==> thrown == ErrorObject("")
  {
    if thrown.OtherValue? {
      assert FallbackError[0] == 'F';
    }
  }

  /** The response handed to `onSubmit(survey.id, selectedChoice)`. */
  datatype Response = Response(surveyId: nat, choice: nat)

  /** The submit button is enabled when a choice is selected and nothing is
      in flight (line 215). */
  predicate SubmitEnabled(selectedChoice: Option<nat>, isSubmitting: bool) {
    !(selectedChoice.None? || isSubmitting)
  }

  class Dialog {
    const surveyId: nat
    const choiceCount: nat
    var selectedChoice: Option<nat>
    var isSubmitting: bool
    var submitError: string

    /** The selection, when there is one, names one of the survey's choices:
        only the choice buttons (lines 124-130) set it. */
    ghost predicate Valid()
      reads this
    {
      selectedChoice.Some? ==> selectedChoice.value < choiceCount
    }

    /** The initial state (lines 36-38). */
    constructor (surveyId: nat, choiceCount: nat)
      ensures Valid()
      ensures this.surveyId == surveyId && this.choiceCount == choiceCount
      ensures selectedChoice == None && !isSubmitting && submitError == ""
    {
      this.surveyId := surveyId;
      this.choiceCount := choiceCount;
      selectedChoice := None;
      isSubmitting := false;
      submitError := "";
    }

    /** A click on the choice at `index`; the buttons are disabled while a
        submission is in flight. */
    method SelectChoice(index: nat)
      requires Valid() && index < choiceCount
      modifies this`selectedChoice
      ensures Valid()
      ensures old(isSubmitting) ==> selectedChoice == old(selectedChoice)
      ensures !old(isSubmitting) ==> selectedChoice == Some(index)
    {
      if !isSubmitting {
        selectedChoice := Some(index);
      }
    }

    /** `handleSubmit` up to `await onSubmit(...)`: nothing without a
        selection; otherwise the flag is raised, the previous error cleared
        and the selected choice handed on. The handler itself does not look
        at the flag: the disabled button keeps a second click away. */
    method BeginSubmit() returns (call: Option<Response>)
      requires Valid()
      modifies this`isSubmitting, this`submitError
      ensures Valid()
      ensures old(selectedChoice).None? ==> call == None && unchanged(this)
      ensures old(selectedChoice).Some? ==>
        && call == Some(Response(surveyId, old(selectedChoice).value))
        && call.value.choice < choiceCount
        && isSubmitting && submitError == ""
    {
      if selectedChoice.None? {
        return None;
      }
      isSubmitting := true;
      submitError := "";
      call := Some(Response(surveyId, selectedChoice.value));
    }

    /** The rest of `handleSubmit`: on success the dialog closes and forgets
        the selection; on failure it stays open with the error shown and the
        selection kept. Either way the flag is lowered. */
    method FinishSubmit(thrown: Option<Thrown>) returns (closed: bool)
      requires Valid()
      modifies this`selectedChoice, this`isSubmitting, this`submitError
      ensures Valid()
      ensures !isSubmitting
      ensures closed <==> thrown.None?
      ensures thrown.None? ==> selectedChoice == None && submitError == old(submitError)
      ensures thrown.Some? ==> selectedChoice == old(selectedChoice) && submitError == ErrorMessage(thrown.value)
    {
      if thrown.None? {
        closed := true;
        selectedChoice := None;
      } else {
        closed := false;
        submitError := ErrorMessage(thrown.value);
      }
      isSubmitting := false;
    }

    /** `handleClose`: ignored while a submission is in flight; otherwise the
        dialog closes with its selection and error cleared. */
    method HandleClose() returns (closed: bool)
      requires Valid()
      modifies this`selectedChoice, this`submitError
      ensures Valid()
      ensures closed <==> !isSubmitting
      ensures closed ==> selectedChoice == None && submitError == ""
      ensures !closed ==> unchanged(this)
    {
      closed := !isSubmitting;
      if closed {
        selectedChoice := None;
        submitError := "";
      }
    }
  }

  /** One complete participation: a choice picked, submitted and accepted
      closes the dialog with nothing left selected and the submit button
      disabled again; a rejected submission keeps the choice so that it can
      be submitted again at once. */
  method SubmitOnce(d: Dialog, index: nat, thrown: Option<Thrown>) returns (call: Option<Response>, closed: bool)
    requires d.Valid() && !d.isSubmitting && index < d.choiceCount
    modifies d
    ensures d.Valid()
    ensures call == Some(Response(d.surveyId, index))
    ensures closed <==> thrown.None?
    ensures closed ==> !SubmitEnabled(d.selectedChoice, d.isSubmitting)
    ensures !closed ==> SubmitEnabled(d.selectedChoice, d.isSubmitting) && d.selectedChoice == Some(index)
  {
    d.SelectChoice(index);
    call := d.BeginSubmit();
    closed := d.FinishSubmit(thrown);
  }
}
