/**
 * The login screen: email, password and one error flag for each. Editing a field clears its own
 * flag; pressing login sets both flags from the validation and calls back only when both are clear.
 * The platform's e-mail pattern is the predicate `emailPattern` given at construction.
 */
module LoginForm {

  /** `isValidEmail`: the pattern matches and the text is not empty. */
  predicate IsValidEmail(emailPattern: string -> bool, email: string)
    ensures IsValidEmail(emailPattern, email) ==> email != [] && emailPattern(email)
  {
    emailPattern(email) && email != []
  }

  /** Whatever the pattern accepts, the empty e-mail is never valid. */
  lemma EmptyEmailIsNeverValid(emailPattern: string -> bool)
    ensures !IsValidEmail(emailPattern, [])
  {
  }

  /** Whether the login callback ran, and with which arguments. */
  datatype LoginCall = NotCalled | Called(email: string, password: string)

  class LoginScreen {
    const emailPattern: string -> bool
    var email: string
    var password: string
    var isEmailError: bool
    var isPasswordError: bool

    /** The initial state: both fields empty, no error shown. */
    constructor (emailPattern: string -> bool)
      ensures this.emailPattern == emailPattern
      ensures email == [] && password == [] && !isEmailError && !isPasswordError
    {
      this.emailPattern := emailPattern;
      email := [];
      password := [];
      isEmailError := false;
      isPasswordError := false;
    }

    method OnEmailChange(value: string)
      modifies this
      ensures email == value && !isEmailError
      ensures password == old(password) && isPasswordError == old(isPasswordError)
    {
      email := value;
      isEmailError := false;
    }

    method OnPasswordChange(value: string)
      modifies this
      ensures password == value && !isPasswordError
      ensures email == old(email) && isEmailError == old(isEmailError)
    {
      password := value;
      isPasswordError := false;
    }

    /** The login button: validates both fields and calls back exactly when both flags end up clear. */
    method OnLoginClick() returns (call: LoginCall)
      modifies this
      ensures email == old(email) && password == old(password)
      ensures isEmailError == !IsValidEmail(emailPattern, email)
      ensures isPasswordError == (password == [])
      ensures call.Called? <==> !isEmailError && !isPasswordError
      ensures call.Called? ==> call == Called(email, password)
      ensures call.Called? ==> email != [] && password != []
    {
      isEmailError := !IsValidEmail(emailPattern, email);
      isPasswordError := password == [];
      if !isEmailError && !isPasswordError {
        call := Called(email, password);
      } else {
        call := NotCalled;
      }
    }
  }

  /** Typing an e-mail and a password into a fresh screen and pressing login. */
  method TypeAndLogin(emailPattern: string -> bool, email: string, password: string) returns (call: LoginCall)
    ensures call == if IsValidEmail(emailPattern, email) && password != [] then Called(email, password) else NotCalled
  {
    var screen := new LoginScreen(emailPattern);
    screen.OnEmailChange(email);
    screen.OnPasswordChange(password);
    call := screen.OnLoginClick();
  }
}
