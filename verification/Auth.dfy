/**
 The sign-in / sign-up form: translating the authentication service's error
 messages into the texts shown to the user, the state one submission leaves
 behind, and the toggle between the two modes.
 */
module Auth {
  import opened Wrappers
  import opened Text

  const TooManyAttempts := "Too many attempts. Please try again later."
  const PasswordTooShort := "Password must be at least 6 characters long."
  const InvalidEmail := "Please enter a valid email address."
  const IncorrectCredentials := "Incorrect email or password. Please try again."
  const TooManyLoginAttempts := "Too many login attempts. Please try again later."
  const UnexpectedError := "An unexpected error occurred"

  /** The sign-up chain, rule by rule; the first key the message contains decides. */
  function SignUpErrorMessage(message: string): (r: string)
    ensures Contains(message, "Email rate limit exceeded") ==> r == TooManyAttempts
    ensures !Contains(message, "Email rate limit exceeded") && Contains(message, "Password")
      ==> r == PasswordTooShort
    ensures (!Contains(message, "Email rate limit exceeded") && !Contains(message, "Password")
             && Contains(message, "Email")) ==> r == InvalidEmail
    ensures (!Contains(message, "Email rate limit exceeded") && !Contains(message, "Password")
             && !Contains(message, "Email")) ==> r == message
  {
    if Contains(message, "Email rate limit exceeded") then TooManyAttempts
    else if Contains(message, "Password") then PasswordTooShort
    else if Contains(message, "Email") then InvalidEmail
    else message
  }

  /** The sign-in chain: an exact comparison first, then a substring test. */
  function SignInErrorMessage(message: string): (r: string)
    ensures message == "Invalid login credentials" ==> r == IncorrectCredentials
    ensures message != "Invalid login credentials" && Contains(message, "rate limit")
      ==> r == TooManyLoginAttempts
    ensures message != "Invalid login credentials" && !Contains(message, "rate limit") ==> r == message
  {
    if message == "Invalid login credentials" then IncorrectCredentials
    else if Contains(message, "rate limit") then TooManyLoginAttempts
    else message
  }

  /** The sign-up chain as a table of ordered rules. */
  const SignUpRules: seq<Rule> := [
    Rule("Email rate limit exceeded", TooManyAttempts),
    Rule("Password", PasswordTooShort),
    Rule("Email", InvalidEmail)]

  lemma SignUpIsFirstMatch(message: string)
    ensures SignUpErrorMessage(message) == Lookup(message, SignUpRules, message)
  {
    var k := FirstMatch(message, SignUpRules);
    assert k > 0 ==> !Contains(message, SignUpRules[0].key);
    assert k > 1 ==> !Contains(message, SignUpRules[1].key);
    assert k > 2 ==> !Contains(message, SignUpRules[2].key);
  }

  /**
   A message holding "Email rate limit exceeded" also holds "Email", yet the
   rate-limit rule, coming first, decides it.
   */
  lemma RateLimitBeforeEmail(message: string)
    requires Contains(message, "Email rate limit exceeded")
    ensures Contains(message, "Email")
    ensures SignUpErrorMessage(message) == TooManyAttempts
  {
    ContainsPrefix(message, "Email rate limit exceeded", "Email");
  }

  /** Only the exact text is recognised: a trailing full stop keeps the message as it is. */
  lemma SignInExactMatch()
    ensures SignInErrorMessage("Invalid login credentials.") == "Invalid login credentials."
  {
    MissingCharacter("Invalid login credentials.", "rate limit", 'm');
  }

  /** How a submission ends: the service's reply, or what the call threw. */
  datatype Outcome =
    | Succeeded
    | ReturnedError(message: string)
    | ThrewError(message: string)
    | ThrewNonError

  /** The text shown for an error the service returns, by the form's mode. */
  function ReturnedErrorText(isSignUp: bool, message: string): string {
    if isSignUp then SignUpErrorMessage(message) else SignInErrorMessage(message)
  }

  /**
   The error a submission leaves on the form: none on success, the translated
   message when the service returns an error, the message of a thrown Error,
   and the generic text for anything else thrown.
   */
  function SubmitError(isSignUp: bool, outcome: Outcome): (r: Option<string>)
    ensures r.None? <==> outcome.Succeeded?
    ensures outcome.ThrewNonError? ==> r == Some(UnexpectedError)
    ensures outcome.ThrewError? ==> r == Some(outcome.message)
    ensures outcome.ReturnedError? ==>
      r == Some(if isSignUp then SignUpErrorMessage(outcome.message) else SignInErrorMessage(outcome.message))
  {
    match outcome
    case Succeeded => None
    case ReturnedError(m) => Some(ReturnedErrorText(isSignUp, m))
    case ThrewError(m) => Some(m)
    case ThrewNonError => Some(UnexpectedError)
  }

  /** The form's state. */
  class AuthForm {
    var loading: bool
    var email: string
    var password: string
    var isSignUp: bool
    var error: Option<string>
    var showPassword: bool

    constructor()
      ensures !loading && email == "" && password == "" && !isSignUp && error == None && !showPassword
    {
      loading := false;
      email := "";
      password := "";
      isSignUp := false;
      error := None;
      showPassword := false;
    }

    /**
     `handleSubmit` with the service call's outcome as a parameter: the error is
     cleared, replaced by the outcome's error, and loading ends.
     */
    method HandleSubmit(outcome: Outcome)
      modifies this
      ensures error == SubmitError(isSignUp, outcome)
      ensures !loading
      ensures isSignUp == old(isSignUp) && email == old(email) && password == old(password)
      ensures showPassword == old(showPassword)
    {
      loading := true;
      error := None;
      match outcome {
        case Succeeded =>
        case ReturnedError(m) =>
          error := Some(ReturnedErrorText(isSignUp, m));
        case ThrewError(m) =>
          error := Some(m);
        case ThrewNonError =>
          error := Some(UnexpectedError);
      }
      loading := false;
    }

    /** The mode toggle: the other mode, with the error and both fields cleared. */
    method ToggleMode()
      modifies this
      ensures isSignUp == !old(isSignUp)
      ensures error == None && email == "" && password == ""
      ensures loading == old(loading) && showPassword == old(showPassword)
    {
      isSignUp := !isSignUp;
      error := None;
      email := "";
      password := "";
    }
  }
}
