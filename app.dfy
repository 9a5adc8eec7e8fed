/**
 * The `App` component of App.tsx as an object: the form state and the three
 * result fields (`response`, `isLoading`, `error`) that `handleSubmit`
 * updates one after another around the call to the generative API.
 */
module Controller {
  import opened Wrappers
  import opened Types
  import opened Constants
  import opened QueryUpdates
  import opened Composer
  import opened Preview

  /** What the API call ends with: the returned text, or a thrown error's message. */
  datatype ApiOutcome = Success(text: string) | Failure(message: string)

  const FailurePrefix: string := "Failed to get response from AI. "

  /**
   * The form starts with the Code of Civil Procedure ticked, the layperson
   * audience and the general focus, so its prompt carries no focus clause; with
   * its empty query, submitting it straight away is refused.
   */
  lemma InitialStateDefaults()
    ensures InitialQueryState().selectedLaws == [CPC]
    ensures InitialQueryState().audience == "Layperson (in simple terms)"
    ensures FocusInstruction(InitialQueryState().queryFocus) == ""
    ensures Validate(InitialQueryState()) == Some(ValidationMessage)
    ensures Get(InitialQueryState(), OutputLanguageKey) == Undefined
  {
    DefaultFocusIsGeneral();
  }

  class App {
    var queryState: QueryState
    var response: string
    var isLoading: bool
    var error: Option<string>

    constructor ()
      ensures queryState == InitialQueryState()
      ensures response == "" && !isLoading && error == None
    {
      queryState := InitialQueryState();
      response := "";
      isLoading := false;
      error := None;
    }

    /** What the result panel shows for the current fields. */
    function Shown(): Content
      reads this
    {
      RenderContent(response, isLoading, error)
    }

    /** `handleStateChange(key, value)`: one form field changes, nothing else does. */
    method HandleStateChange(k: Key, v: Value)
      requires Fits(k, v)
      modifies this
      ensures queryState == SetField(old(queryState), k, v)
      ensures response == old(response) && isLoading == old(isLoading) && error == old(error)
    {
      queryState := SetField(queryState, k, v);
    }

    /** `handleLawChange(law)`: the law's checkbox is toggled, nothing else changes. */
    method HandleLawChange(law: Law)
      modifies this
      ensures queryState == ToggleLawIn(old(queryState), law)
      ensures response == old(response) && isLoading == old(isLoading) && error == old(error)
    {
      queryState := ToggleLawIn(queryState, law);
    }

    /**
     * The synchronous part of `handleSubmit`: the guard, then the reset of the
     * result fields and the prompt to send. A refused submission only sets the
     * error; nothing is sent and loading is untouched.
     */
    method BeginSubmit() returns (prompt: Option<string>)
      modifies this
      ensures queryState == old(queryState)
      ensures prompt.None? <==> Validate(queryState).Some?
      ensures prompt.None? ==> error == Some(ValidationMessage)
                               && isLoading == old(isLoading) && response == old(response)
      ensures prompt.Some? ==> prompt.value == ComposePrompt(queryState)
                               && isLoading && response == "" && error == None
      ensures prompt.Some? ==> Shown() == Spinner
    {
      var refusal := Validate(queryState);
      if refusal.Some? {
        error := refusal;
        return None;
      }
      isLoading := true;
      response := "";
      error := None;
      prompt := Some(ComposePrompt(queryState));
    }

    /**
     * The end of `handleSubmit`: the returned text becomes the response, or the
     * failure message, after the fixed prefix, becomes the error; either way
     * loading ends.
     */
    method Settle(outcome: ApiOutcome)
      modifies this
      ensures queryState == old(queryState) && !isLoading
      ensures outcome.Success? ==> response == outcome.text && error == old(error)
      ensures outcome.Failure? ==> error == Some(FailurePrefix + outcome.message) && response == old(response)
    {
      match outcome {
        case Success(text) =>
          response := text;
        case Failure(message) =>
          error := Some(FailurePrefix + message);
      }
      isLoading := false;
    }

    /**
     * A whole submission with the API's outcome as an input: a refused one
     * sends nothing and shows the validation message once loading is over; an
     * accepted one sends the composed prompt and ends showing the failure,
     * the returned text, or the placeholder when that text is empty.
     */
    method HandleSubmit(outcome: ApiOutcome) returns (prompt: Option<string>)
      modifies this
      ensures queryState == old(queryState)
      ensures prompt == if Validate(queryState).Some? then None else Some(ComposePrompt(queryState))
      ensures prompt.None? ==> error == Some(ValidationMessage)
                               && isLoading == old(isLoading) && response == old(response)
      ensures prompt.None? && !isLoading ==> Shown() == ErrorDisplay(ValidationMessage)
      ensures prompt.Some? && outcome.Success? ==> !isLoading && response == outcome.text && error == None
      ensures prompt.Some? && outcome.Failure? ==>
                !isLoading && response == "" && error == Some(FailurePrefix + outcome.message)
      ensures prompt.Some? ==> Shown() == match outcome
                                           case Failure(m) => ErrorDisplay(FailurePrefix + m)
                                           case Success(t) => if t != "" then ResponseText(t) else Placeholder
    {
      prompt := BeginSubmit();
      if prompt.Some? {
        Settle(outcome);
      }
    }
  }
}
