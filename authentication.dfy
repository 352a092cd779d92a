/** `AuthenticationView`: the email/password form with its sign-in, sign-up and
    password-reset actions. Each action checks its fields locally, then issues a
    Firebase Auth request; the request's callback is an event. Navigation after a
    successful sign-in belongs to the auth listener (`ContentView`). */
module Authentication {
  import opened Basics

  /** The shortest password sign-up accepts. Lengths count Unicode scalars. */
  const MinPasswordLength: nat := 6

  /** `signIn`'s guard: the message to show, or `None` when the request may go out. */
  function SignInCheck(email: string, password: string): (r: Option<string>)
    ensures r.None? <==> email != [] && password != []
    ensures r.Some? ==> r.value == "Please enter both email and password"
  {
    if email == [] || password == [] then Some("Please enter both email and password") else None
  }

  /** `signUp`'s guards: both fields first, then the password's length. */
  function SignUpCheck(email: string, password: string): (r: Option<string>)
    ensures r.None? <==> email != [] && |password| >= MinPasswordLength
    ensures email == [] || password == [] ==> r == Some("Please enter both email and password")
    ensures email != [] && 0 < |password| < MinPasswordLength ==> r == Some("Password must be at least 6 characters")
  {
    if email == [] || password == [] then Some("Please enter both email and password")
    else if |password| < MinPasswordLength then Some("Password must be at least 6 characters")
    else None
  }

  /** Whatever sign-up accepts, sign-in accepts too; sign-up rejects a short
      password that sign-in lets through. */
  lemma SignUpStricterThanSignIn(email: string, password: string)
    ensures SignUpCheck(email, password).None? ==> SignInCheck(email, password).None?
    ensures email != [] && 0 < |password| < MinPasswordLength ==>
              SignInCheck(email, password).None? && SignUpCheck(email, password).Some?
  {
  }

  /** `resetPassword`'s guard. */
  function ResetCheck(email: string): (r: Option<string>)
    ensures r.None? <==> email != []
    ensures r.Some? ==> r.value == "Please enter your email address first"
  {
    if email == [] then Some("Please enter your email address first") else None
  }

  /** The Firebase Auth request an action issues, if any. */
  datatype AuthRequest =
    | NoAuthRequest
    | SignInRequest(email: string, password: string)
    | CreateUserRequest(email: string, password: string)
    | PasswordResetRequest(email: string)

  class AuthenticationForm {
    var email: string
    var password: string
    var isShowingSignUp: bool
    var showAlert: bool
    var alertMessage: string
    var isLoading: bool

    constructor ()
      ensures email == "" && password == "" && !isShowingSignUp
      ensures !showAlert && alertMessage == "" && !isLoading
    {
      email, password := "", "";
      isShowingSignUp, showAlert, alertMessage, isLoading := false, false, "", false;
    }

    /** `showError(_:)` */
    method ShowError(message: string)
      modifies this`alertMessage, this`showAlert
      ensures alertMessage == message && showAlert
    {
      alertMessage := message;
      showAlert := true;
    }

    /** `signIn()`: a failed guard shows its message, issues nothing and leaves
        `isLoading` alone; otherwise `isLoading` rises and the request goes out. */
    method SignIn() returns (request: AuthRequest)
      modifies this`isLoading, this`alertMessage, this`showAlert
      ensures SignInCheck(email, password).Some? ==>
                && request == NoAuthRequest && isLoading == old(isLoading)
                && showAlert && alertMessage == SignInCheck(email, password).value
      ensures SignInCheck(email, password).None? ==>
                && request == SignInRequest(email, password) && isLoading
                && showAlert == old(showAlert) && alertMessage == old(alertMessage)
    {
      var check := SignInCheck(email, password);
      if check.Some? {
        ShowError(check.value);
        return NoAuthRequest;
      }
      isLoading := true;
      request := SignInRequest(email, password);
    }

    /** `signUp()`: as `signIn`, with the length guard after the emptiness guard. */
    method SignUp() returns (request: AuthRequest)
      modifies this`isLoading, this`alertMessage, this`showAlert
      ensures SignUpCheck(email, password).Some? ==>
                && request == NoAuthRequest && isLoading == old(isLoading)
                && showAlert && alertMessage == SignUpCheck(email, password).value
      ensures SignUpCheck(email, password).None? ==>
                && request == CreateUserRequest(email, password) && isLoading
                && showAlert == old(showAlert) && alertMessage == old(alertMessage)
    {
      var check := SignUpCheck(email, password);
      if check.Some? {
        ShowError(check.value);
        return NoAuthRequest;
      }
      isLoading := true;
      request := CreateUserRequest(email, password);
    }

    /** The main button: `signUp` in sign-up mode, `signIn` otherwise. */
    method Submit() returns (request: AuthRequest)
      modifies this`isLoading, this`alertMessage, this`showAlert
      ensures isShowingSignUp && SignUpCheck(email, password).None? ==>
                request == CreateUserRequest(email, password) && isLoading
                && showAlert == old(showAlert) && alertMessage == old(alertMessage)
      ensures isShowingSignUp && SignUpCheck(email, password).Some? ==>
                request == NoAuthRequest && isLoading == old(isLoading)
                && showAlert && alertMessage == SignUpCheck(email, password).value
      ensures !isShowingSignUp && SignInCheck(email, password).None? ==>
                request == SignInRequest(email, password) && isLoading
                && showAlert == old(showAlert) && alertMessage == old(alertMessage)
      ensures !isShowingSignUp && SignInCheck(email, password).Some? ==>
                request == NoAuthRequest && isLoading == old(isLoading)
                && showAlert && alertMessage == SignInCheck(email, password).value
    {
      if isShowingSignUp {
        request := SignUp();
      } else {
        request := SignIn();
      }
    }

    /** A sign-in or sign-up callback: `isLoading` falls; an error is shown. */
    method OnAuthCallback(error: Option<string>)
      modifies this`isLoading, this`alertMessage, this`showAlert
      ensures !isLoading
      ensures error.Some? ==> showAlert && alertMessage == error.value
      ensures error.None? ==> showAlert == old(showAlert) && alertMessage == old(alertMessage)
    {
      isLoading := false;
      if error.Some? {
        ShowError(error.value);
      }
    }

    /** The mode toggle: flips the mode and clears both fields. */
    method ToggleMode()
      modifies this`isShowingSignUp, this`email, this`password
      ensures isShowingSignUp == !old(isShowingSignUp)
      ensures email == "" && password == ""
    {
      isShowingSignUp := !isShowingSignUp;
      email := "";
      password := "";
    }

    /** `resetPassword()`: an empty email shows its message and issues nothing.
        `isLoading` is not touched either way. */
    method ResetPassword() returns (request: AuthRequest)
      modifies this`alertMessage, this`showAlert
      ensures ResetCheck(email).Some? ==> request == NoAuthRequest && showAlert
                                          && alertMessage == ResetCheck(email).value
      ensures ResetCheck(email).None? ==> request == PasswordResetRequest(email)
                                          && showAlert == old(showAlert) && alertMessage == old(alertMessage)
    {
      var check := ResetCheck(email);
      if check.Some? {
        ShowError(check.value);
        return NoAuthRequest;
      }
      request := PasswordResetRequest(email);
    }

    /** The reset callback raises the alert on both outcomes. */
    method OnPasswordResetCallback(error: Option<string>)
      modifies this`alertMessage, this`showAlert
      ensures showAlert
      ensures alertMessage == if error.Some? then error.value else "Password reset email sent!"
    {
      if error.Some? {
        ShowError(error.value);
      } else {
        ShowError("Password reset email sent!");
      }
    }
  }

  /** Toggling twice returns to the first mode with both fields empty. */
  method ToggleTwice(form: AuthenticationForm)
    modifies form
  {
    var mode := form.isShowingSignUp;
    form.ToggleMode();
    form.ToggleMode();
    assert form.isShowingSignUp == mode && form.email == "" && form.password == "";
  }
}
