/**
 * The sign-in / sign-up form: which provider call a submission makes, how
 * the call's answer or thrown error becomes a toast, and the two flags the
 * submission and the buttons update.
 */
module LoginForm {
  import opened Wrappers
  import opened Js
  import opened Feedback

  /** The provider call a submission makes, with the form's credentials. */
  datatype AuthRequest = SignUp(email: string, password: string) | SignIn(email: string, password: string)

  const SignedUpMessage := "Account created! You can now sign in."
  const SignedInMessage := "Successfully signed in!"
  const NotConfirmedMarker := "Email not confirmed"
  const NotConfirmedMessage := "Account created! You can now sign in (email confirmation disabled)."
  const BadCredentialsMarker := "Invalid login credentials"
  const BadCredentialsMessage := "Invalid email or password. Please check your credentials."
  const AuthFailedMessage := "Authentication failed"

  /** `signUp` in sign-up mode, `signIn` otherwise, with the same credentials either way. */
  function Request(isSignUp: bool, email: string, password: string): (r: AuthRequest)
    ensures r.SignUp? <==> isSignUp
    ensures r.email == email && r.password == password
  {
    if isSignUp then SignUp(email, password) else SignIn(email, password)
  }

  /** `error.message?.includes(marker)`: an absent message includes nothing. */
  predicate MessageIncludes(message: Option<string>, marker: string)
    ensures message.None? ==> !MessageIncludes(message, marker)
    ensures message.Some? ==> (MessageIncludes(message, marker) <==> exists i :: OccursAt(message.value, marker, i))
  {
    if message.None? then false
    else
      IncludesIffOccurs(message.value, marker);
      Includes(message.value, marker)
  }

  /** The toast after the call, and the mode the form is in afterwards. */
  datatype Outcome = Outcome(toast: Toast, isSignUp: bool)

  /**
   * The answer or thrown error of the call, classified. A returned error
   * shows its message; a success confirms the mode used. A thrown error
   * mentioning an unconfirmed email counts as a created account and
   * switches to sign-in; that test comes before the bad-credentials one.
   */
  function Classify(isSignUp: bool, result: ProviderResult): (r: Outcome)
    ensures r.isSignUp == (isSignUp && !(result.Threw? && MessageIncludes(result.message, NotConfirmedMarker)))
    ensures result.Answered? && result.error.Some? ==> r.toast == ErrorToast(result.error.value.message)
    ensures result == Answered(None) ==> r.toast == SuccessToast(if isSignUp then SignedUpMessage else SignedInMessage)
    ensures result.Threw? && MessageIncludes(result.message, NotConfirmedMarker) ==>
              r == Outcome(SuccessToast(NotConfirmedMessage), false)
    ensures result.Threw? && !MessageIncludes(result.message, NotConfirmedMarker) && MessageIncludes(result.message, BadCredentialsMarker) ==>
              r.toast == ErrorToast(BadCredentialsMessage)
    ensures result.Threw? && !MessageIncludes(result.message, NotConfirmedMarker) && !MessageIncludes(result.message, BadCredentialsMarker) ==>
              r.toast == ErrorToast(OrElse(result.message, AuthFailedMessage))
    ensures r.toast.SuccessToast? <==> result == Answered(None) || (result.Threw? && MessageIncludes(result.message, NotConfirmedMarker))
  {
    match result
    case Answered(Some(e)) => Outcome(ErrorToast(e.message), isSignUp)
    case Answered(None) => Outcome(SuccessToast(if isSignUp then SignedUpMessage else SignedInMessage), isSignUp)
    case Threw(m) =>
      if MessageIncludes(m, NotConfirmedMarker) then Outcome(SuccessToast(NotConfirmedMessage), false)
      else if MessageIncludes(m, BadCredentialsMarker) then Outcome(ErrorToast(BadCredentialsMessage), isSignUp)
      else Outcome(ErrorToast(OrElse(m, AuthFailedMessage)), isSignUp)
  }

  /**
   * Wherever the unconfirmed-email text occurs in a thrown message, and
   * whatever else the message says, the form reports a created account and
   * returns to sign-in mode.
   */
  lemma NotConfirmedAnywhere(isSignUp: bool, message: string, at: nat)
    requires OccursAt(message, NotConfirmedMarker, at)
    ensures Classify(isSignUp, Threw(Some(message))) == Outcome(SuccessToast(NotConfirmedMessage), false)
  {
    IncludesIffOccurs(message, NotConfirmedMarker);
  }

  /** The form's local state. */
  class Form {
    var isSignUp: bool
    var showPassword: bool
    var isLoading: bool

    constructor ()
      ensures !isSignUp && !showPassword && !isLoading
    {
      isSignUp, showPassword, isLoading := false, false, false;
    }

    /** The "Need an account? / Already have an account?" button. */
    method ToggleMode()
      modifies this`isSignUp
      ensures isSignUp == !old(isSignUp)
    {
      isSignUp := !isSignUp;
    }

    /** The eye button beside the password. */
    method TogglePassword()
      modifies this`showPassword
      ensures showPassword == !old(showPassword)
    {
      showPassword := !showPassword;
    }

    /**
     * Submits validated credentials; the provider call ends with `result`.
     * Returns the call made, the loading flag while it was awaited, and the
     * toast shown.
     */
    method OnSubmit(email: string, password: string, result: ProviderResult)
      returns (request: AuthRequest, loadingWhileAwaiting: bool, toast: Toast)
      modifies this`isLoading, this`isSignUp
      ensures request == Request(old(isSignUp), email, password)
      ensures loadingWhileAwaiting
      ensures toast == Classify(old(isSignUp), result).toast
      ensures isSignUp == Classify(old(isSignUp), result).isSignUp
      ensures !isLoading
    {
      isLoading := true;
      request := if isSignUp then SignUp(email, password) else SignIn(email, password);
      loadingWhileAwaiting := isLoading;
      match result {
        case Answered(error) =>
          if error.Some? {
            toast := ErrorToast(error.value.message);
          } else if isSignUp {
            toast := SuccessToast(SignedUpMessage);
          } else {
            toast := SuccessToast(SignedInMessage);
          }
        case Threw(message) =>
          if MessageIncludes(message, NotConfirmedMarker) {
            toast := SuccessToast(NotConfirmedMessage);
            isSignUp := false;
          } else if MessageIncludes(message, BadCredentialsMarker) {
            toast := ErrorToast(BadCredentialsMessage);
          } else {
            toast := ErrorToast(OrElse(message, AuthFailedMessage));
          }
      }
      isLoading := false;
    }
  }
}
