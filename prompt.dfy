/**
 * The password gate component: it holds the typed password and the error
 * message, and on submission compares the typed password with the configured
 * one.
 */
module Prompt {

  import opened Wrappers

  /** The one error message the gate shows after a failed submission. */
  const IncorrectPassword: string := "Incorrect password. Please try again."

  /**
   * Strict equality of the typed password with the configured one. An unset
   * configuration entry is `undefined`, which no string equals.
   */
  predicate Accepts(entered: string, expected: Option<string>)
    ensures Accepts(entered, expected) <==> expected == Some(entered)
  {
    expected.Some? && expected.value == entered
  }

  /** The component's two pieces of state. */
  datatype PromptState = PromptState(password: string, error: string)

  /** Both pieces of state start as the empty string. */
  const InitialPrompt: PromptState := PromptState("", "")

  /** The input's change handler: the password becomes the input's value. */
  function Change(st: PromptState, value: string): (r: PromptState)
    ensures r.password == value
    ensures r.error == st.error
  {
    st.(password := value)
  }

  /** What a submission does: whether the grant callback fires, and the new state. */
  datatype SubmitResult = SubmitResult(granted: bool, after: PromptState)

  /** The form's submit handler. */
  function Submit(st: PromptState, expected: Option<string>): (r: SubmitResult)
    ensures r.granted <==> Accepts(st.password, expected)
    ensures r.after.password == st.password
    ensures r.granted ==> r.after.error == st.error
    ensures !r.granted ==> r.after.error == IncorrectPassword
  {
    if Accepts(st.password, expected) then
      SubmitResult(true, st)
    else
      SubmitResult(false, st.(error := IncorrectPassword))
  }

  /** The error paragraph is rendered only when the error string is non-empty. */
  predicate ErrorShown(st: PromptState)
    ensures ErrorShown(st) <==> |st.error| > 0
  {
    st.error != ""
  }

  /** The error is either still empty or the one fixed message. */
  predicate ErrorWellFormed(st: PromptState)
  {
    st.error == "" || st.error == IncorrectPassword
  }

  /** With an exact expected password, exactly that string is accepted. */
  lemma AcceptsExactly(entered: string, password: string)
    ensures Accepts(entered, Some(password)) <==> entered == password
  {
  }

  /** With the expected password unset, no string is accepted, not even "". */
  lemma UnsetPasswordNeverAccepts(entered: string)
    ensures !Accepts(entered, None)
    ensures !Submit(PromptState(entered, ""), None).granted
  {
  }

  /** No trimming and no case folding happen before the comparison. */
  lemma NoNormalisation()
    ensures !Accepts("secret ", Some("secret"))
    ensures !Accepts("Secret", Some("secret"))
    ensures Accepts("", Some(""))
  {
  }

  /** A failed submission shows exactly the fixed message and keeps the input. */
  lemma FailureShowsMessage(st: PromptState, expected: Option<string>)
    requires !Accepts(st.password, expected)
    ensures ErrorShown(Submit(st, expected).after)
    ensures Submit(st, expected).after == PromptState(st.password, IncorrectPassword)
  {
  }

  /** Typing replaces the password and leaves the error as it was. */
  lemma ChangeKeepsError(st: PromptState, value: string)
    ensures Change(st, value).password == value
    ensures Change(st, value).error == st.error
  {
  }

  /**
   * No handler ever sets the error back to "": once shown, the message stays
   * shown; and the error is always "" or the fixed message.
   */
  lemma ErrorNeverCleared(st: PromptState, value: string, expected: Option<string>)
    ensures ErrorShown(st) ==> ErrorShown(Change(st, value)) && ErrorShown(Submit(st, expected).after)
    ensures ErrorWellFormed(st) ==> ErrorWellFormed(Change(st, value)) && ErrorWellFormed(Submit(st, expected).after)
  {
  }

  /** The password gate component, its state updated in place by its handlers. */
  class PasswordPrompt {
    /** The configured password, read from the build-time environment. */
    const expected: Option<string>
    var password: string
    var error: string

    function State(): PromptState
      reads this
    {
      PromptState(password, error)
    }

    constructor (expected: Option<string>)
      ensures this.expected == expected
      ensures State() == InitialPrompt
    {
      this.expected := expected;
      password := "";
      error := "";
    }

    /** The input's onChange: stores the typed value, touches nothing else. */
    method OnChange(value: string)
      modifies this
      ensures State() == Change(old(State()), value)
      ensures password == value && error == old(error)
    {
      password := value;
    }

    /** The form's onSubmit; `granted` says whether the grant callback is invoked. */
    method HandleSubmit() returns (granted: bool)
      modifies this
      ensures SubmitResult(granted, State()) == Submit(old(State()), expected)
      ensures granted <==> Accepts(password, expected)
      ensures password == old(password)
      ensures granted ==> error == old(error)
      ensures !granted ==> error == IncorrectPassword
    {
      if Accepts(password, expected) {
        granted := true;
      } else {
        granted := false;
        error := IncorrectPassword;
      }
    }
  }
}
