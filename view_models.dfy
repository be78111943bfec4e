/** The sign-up, sign-in and forgot-password screens' view models. Each keeps
    one UI state (loading, success, error message) that its actions replace.
    An action validates its input; if that passes it launches a request,
    which sets the loading state at once, and the state is set again when
    the repository answers. The launch and the answer are two methods here:
    the repository's answer is the second one's input. */
module ViewModels {
  import opened Values
  import opened Text

  /** `SignUpUiState`, `SignInUiState` and `ForgotPasswordUiState` share this shape. */
  datatype UiState = UiState(isLoading: bool, isSuccess: bool, errorMessage: Option<string>)

  const InitialState: UiState := UiState(false, false, None)

  /** What the repository call returned: success, or a failure carrying an
      exception whose message may be null. */
  datatype CallResult = Succeeded | FailedWith(message: Option<string>)

  /** The state once a request is under way. */
  function Started(s: UiState): (r: UiState)
    ensures r.isLoading && r.errorMessage.None? && r.isSuccess == s.isSuccess
  {
    s.(isLoading := true, errorMessage := None)
  }

  /** The state once the repository answers: loading ends; success is set
      exactly on a successful call; a failure shows the exception's message,
      or `fallback` when it has none. */
  function Finished(s: UiState, result: CallResult, fallback: string): (r: UiState)
    ensures !r.isLoading
    ensures r.isSuccess <==> result.Succeeded?
    ensures result.Succeeded? ==> r.errorMessage.None?
    ensures result.FailedWith? ==> r.errorMessage == Some(result.message.GetOr(fallback))
  {
    match result
    case Succeeded => s.(isLoading := false, isSuccess := true, errorMessage := None)
    case FailedWith(message) => s.(isLoading := false, isSuccess := false, errorMessage := Some(message.GetOr(fallback)))
  }

  /** The checks of `signUp`, in order; `None` when every one passes. The
      password's length is Kotlin's `String.length`, in UTF-16 code units. */
  function SignUpError(username: string, email: string, password: string, confirmPassword: string): (e: Option<string>)
    ensures e.None? <==>
      !IsBlank(username) && !IsBlank(email) && !IsBlank(password) && password == confirmPassword && Utf16Length(password) >= 6
  {
    if IsBlank(username) then Some("Username is required")
    else if IsBlank(email) then Some("Email is required")
    else if IsBlank(password) then Some("Password is required")
    else if password != confirmPassword then Some("Passwords do not match")
    else if Utf16Length(password) < 6 then Some("Password must be at least 6 characters")
    else None
  }

  /** Each check is reported only when every earlier one passes: a blank
      username hides all other faults, a mismatch is reported before a short
      password, and a short password only when the two agree. */
  lemma SignUpCheckOrder(username: string, email: string, password: string, confirmPassword: string)
    ensures IsBlank(username) ==> SignUpError(username, email, password, confirmPassword) == Some("Username is required")
    ensures !IsBlank(username) && IsBlank(email) ==>
      SignUpError(username, email, password, confirmPassword) == Some("Email is required")
    ensures !IsBlank(username) && !IsBlank(email) && IsBlank(password) ==>
      SignUpError(username, email, password, confirmPassword) == Some("Password is required")
    ensures SignUpError(username, email, password, confirmPassword) == Some("Passwords do not match") <==>
      !IsBlank(username) && !IsBlank(email) && !IsBlank(password) && password != confirmPassword
    ensures SignUpError(username, email, password, confirmPassword) == Some("Password must be at least 6 characters") <==>
      !IsBlank(username) && !IsBlank(email) && !IsBlank(password) && password == confirmPassword && Utf16Length(password) < 6
  {
  }

  /** Three emoji make a six-unit password, which the length check accepts. */
  lemma SignUpEmojiPassword()
    ensures SignUpError("ada", "ada@example.com", "\U{1F600}\U{1F600}\U{1F600}",
                        "\U{1F600}\U{1F600}\U{1F600}").None?
  {
    var p := "\U{1F600}\U{1F600}\U{1F600}";
    Utf16LengthEmoji();
    assert p == "\U{1F600}\U{1F600}" + "\U{1F600}";
    Utf16LengthAppend("\U{1F600}\U{1F600}", "\U{1F600}");
    assert Utf16Length("\U{1F600}") == 2 by {
      assert "\U{1F600}"[..0] == "";
    }
    assert !KotlinWhitespace(p[0]);
    assert !KotlinWhitespace("ada"[0]);
    assert !KotlinWhitespace("ada@example.com"[0]);
  }

  /** `signIn`'s single check. */
  function SignInError(email: string, password: string): (e: Option<string>)
    ensures e.None? <==> !IsBlank(email) && !IsBlank(password)
    ensures e.Some? ==> e.value == "Email and password are required"
  {
    if IsBlank(email) || IsBlank(password) then Some("Email and password are required") else None
  }

  /** `resetPassword`'s single check. */
  function ResetPasswordError(email: string): (e: Option<string>)
    ensures e.None? <==> !IsBlank(email)
    ensures e.Some? ==> e.value == "Email is required"
  {
    if IsBlank(email) then Some("Email is required") else None
  }

  /** A failed check replaces the error message and nothing else. */
  function Rejected(s: UiState, error: string): (r: UiState)
    ensures r.errorMessage == Some(error) && r.isLoading == s.isLoading && r.isSuccess == s.isSuccess
  {
    s.(errorMessage := Some(error))
  }

  /** Clearing the error twice is clearing it once, and keeps the flags. */
  lemma ClearErrorIdempotent(s: UiState)
    ensures s.(errorMessage := None).(errorMessage := None) == s.(errorMessage := None)
    ensures s.(errorMessage := None).isLoading == s.isLoading && s.(errorMessage := None).isSuccess == s.isSuccess
  {
  }

  /** A request that fails without a message after a rejected attempt shows
      the fallback, never the stale validation message. */
  lemma FailureReplacesStaleError(s: UiState, error: string, fallback: string)
    ensures Finished(Started(Rejected(s, error)), FailedWith(None), fallback).errorMessage == Some(fallback)
    ensures Finished(Started(Rejected(s, error)), Succeeded, fallback).errorMessage.None?
  {
  }

  class SignUpViewModel {
    var uiState: UiState

    constructor()
      ensures uiState == InitialState
    {
      uiState := InitialState;
    }

    /** `signUp`: on a failed check only the error message changes and no
        request is made (`launched` is false); otherwise the request starts. */
    method SignUp(username: string, email: string, password: string, confirmPassword: string) returns (launched: bool)
      modifies this
      ensures launched <==> SignUpError(username, email, password, confirmPassword).None?
      ensures !launched ==>
        uiState == Rejected(old(uiState), SignUpError(username, email, password, confirmPassword).value)
      ensures launched ==> uiState == Started(old(uiState))
    {
      var error := SignUpError(username, email, password, confirmPassword);
      if error.Some? {
        uiState := uiState.(errorMessage := error);
        return false;
      }
      uiState := uiState.(isLoading := true, errorMessage := None);
      launched := true;
    }

    /** The answer to `register`; `notify` says whether `onSuccess` runs. */
    method Complete(result: CallResult) returns (notify: bool)
      modifies this
      ensures notify <==> result.Succeeded?
      ensures uiState == Finished(old(uiState), result, "Registration failed")
    {
      if result.Succeeded? {
        uiState := uiState.(isLoading := false, isSuccess := true, errorMessage := None);
        notify := true;
      } else {
        uiState := uiState.(isLoading := false, isSuccess := false,
                            errorMessage := Some(result.message.GetOr("Registration failed")));
        notify := false;
      }
    }

    method ClearError()
      modifies this
      ensures uiState == old(uiState).(errorMessage := None)
    {
      uiState := uiState.(errorMessage := None);
    }
  }

  class SignInViewModel {
    var uiState: UiState

    constructor()
      ensures uiState == InitialState
    {
      uiState := InitialState;
    }

    /** `signIn`: a blank email or password sets the error and makes no call. */
    method SignIn(email: string, password: string) returns (launched: bool)
      modifies this
      ensures launched <==> SignInError(email, password).None?
      ensures !launched ==> uiState == Rejected(old(uiState), "Email and password are required")
      ensures launched ==> uiState == Started(old(uiState))
    {
      if IsBlank(email) || IsBlank(password) {
        uiState := uiState.(errorMessage := Some("Email and password are required"));
        return false;
      }
      uiState := uiState.(isLoading := true, errorMessage := None);
      launched := true;
    }

    /** The answer to `login`; `notify` says whether `onSuccess` runs. */
    method Complete(result: CallResult) returns (notify: bool)
      modifies this
      ensures notify <==> result.Succeeded?
      ensures uiState == Finished(old(uiState), result, "Login failed")
    {
      if result.Succeeded? {
        uiState := uiState.(isLoading := false, isSuccess := true, errorMessage := None);
        notify := true;
      } else {
        uiState := uiState.(isLoading := false, isSuccess := false,
                            errorMessage := Some(result.message.GetOr("Login failed")));
        notify := false;
      }
    }

    method ClearError()
      modifies this
      ensures uiState == old(uiState).(errorMessage := None)
    {
      uiState := uiState.(errorMessage := None);
    }
  }

  class ForgotPasswordViewModel {
    var uiState: UiState

    constructor()
      ensures uiState == InitialState
    {
      uiState := InitialState;
    }

    /** `resetPassword`: a blank email sets the error and makes no call. */
    method ResetPassword(email: string) returns (launched: bool)
      modifies this
      ensures launched <==> ResetPasswordError(email).None?
      ensures !launched ==> uiState == Rejected(old(uiState), "Email is required")
      ensures launched ==> uiState == Started(old(uiState))
    {
      if IsBlank(email) {
        uiState := uiState.(errorMessage := Some("Email is required"));
        return false;
      }
      uiState := uiState.(isLoading := true, errorMessage := None);
      launched := true;
    }

    /** The answer to `forgotPassword`; `notify` says whether `onSuccess` runs. */
    method Complete(result: CallResult) returns (notify: bool)
      modifies this
      ensures notify <==> result.Succeeded?
      ensures uiState == Finished(old(uiState), result, "Failed to send reset email")
    {
      if result.Succeeded? {
        uiState := uiState.(isLoading := false, isSuccess := true, errorMessage := None);
        notify := true;
      } else {
        uiState := uiState.(isLoading := false, isSuccess := false,
                            errorMessage := Some(result.message.GetOr("Failed to send reset email")));
        notify := false;
      }
    }

    method ClearError()
      modifies this
      ensures uiState == old(uiState).(errorMessage := None)
    {
      uiState := uiState.(errorMessage := None);
    }

    /** `resetState`: every field back to its default. */
    method ResetState()
      modifies this
      ensures uiState == InitialState
    {
      uiState := UiState(false, false, None);
    }
  }
}
