/**
 * The registration page's submit handler: the two password checks, in
 * order, and the loading flag around the `signUp` call.  Toasts, the sign-up
 * calls and the router are recorded as fields; `signUp`'s outcome is a
 * parameter.
 */
module RegisterPage {
  import opened Wrappers
  import opened Entities

  const MismatchMessage := "As senhas n\U{e3}o coincidem"
  const TooShortMessage := "A senha deve ter pelo menos 6 caracteres"
  const CreatedMessage := "Conta criada com sucesso!"
  const FallbackErrorMessage := "Erro ao criar conta"
  const DashboardRoute := "/dashboard"
  const MinPasswordLength := 6

  /** JavaScript's `length`: UTF-16 code units, two for a character outside the Basic Multilingual Plane. */
  function Utf16Length(s: string): (n: nat)
    ensures |s| <= n <= 2 * |s|
  {
    if s == [] then 0 else (if s[0] as int > 0xFFFF then 2 else 1) + Utf16Length(s[1..])
  }

  /** The first check that fails, if any: the mismatch is checked before the length. */
  function PasswordError(password: string, confirmPassword: string): Option<string> {
    if password != confirmPassword then Some(MismatchMessage)
    else if Utf16Length(password) < MinPasswordLength then Some(TooShortMessage)
    else None
  }

  /**
   * The checks pass exactly when the passwords match and are at least six
   * UTF-16 units long; a mismatch is reported as such even when the
   * password is also too short; every password of six characters or more passes the length check.
   */
  lemma PasswordChecks(password: string, confirmPassword: string)
    ensures PasswordError(password, confirmPassword).None? <==>
      password == confirmPassword && Utf16Length(password) >= MinPasswordLength
    ensures password != confirmPassword ==> PasswordError(password, confirmPassword) == Some(MismatchMessage)
    ensures password == confirmPassword && Utf16Length(password) < MinPasswordLength ==>
      PasswordError(password, confirmPassword) == Some(TooShortMessage)
    ensures password == confirmPassword && |password| >= MinPasswordLength ==> PasswordError(password, confirmPassword).None?
  {
  }

  datatype Toast = ErrorToast(message: string) | SuccessToast(message: string)

  /** How `signUp` ended: resolved, or rejected with an error whose `message` may be missing or empty. */
  datatype SignUpOutcome = SignedUp | Rejected(message: Option<string>)

  datatype SignUpCall = SignUpCall(name: string, email: string, password: string)

  /** `error.message || 'Erro ao criar conta'`. */
  function FailureMessage(message: Option<string>): (m: string)
    ensures Truthy(message) ==> m == message.value
    ensures !Truthy(message) ==> m == FallbackErrorMessage
    ensures m != ""
  {
    if Truthy(message) then message.value else FallbackErrorMessage
  }

  /** The page's state and what it has done so far. */
  class RegisterForm {
    var name: string
    var email: string
    var password: string
    var confirmPassword: string
    var isLoading: bool
    var toasts: seq<Toast>
    var signUpCalls: seq<SignUpCall>
    var route: Option<string>
    /** The loading flag as it stood while the last `signUp` call ran. */
    ghost var loadingDuringSignUp: bool

    constructor ()
      ensures name == "" && email == "" && password == "" && confirmPassword == ""
      ensures !isLoading && toasts == [] && signUpCalls == [] && route == None
    {
      name, email, password, confirmPassword := "", "", "", "";
      isLoading, toasts, signUpCalls, route := false, [], [], None;
      loadingDuringSignUp := false;
    }

    /**
     * `handleSubmit`.  A failed check shows its error and calls nothing;
     * otherwise `signUp` runs with the loading flag set, success shows a
     * toast and goes to the dashboard, failure shows the error's message,
     * and either way the flag is cleared afterwards.
     */
    method HandleSubmit(outcome: SignUpOutcome)
      modifies this
      ensures name == old(name) && email == old(email)
      ensures password == old(password) && confirmPassword == old(confirmPassword)
      ensures PasswordError(password, confirmPassword).Some? ==>
        && toasts == old(toasts) + [ErrorToast(PasswordError(password, confirmPassword).value)]
        && signUpCalls == old(signUpCalls) && isLoading == old(isLoading) && route == old(route)
      ensures PasswordError(password, confirmPassword).None? ==>
        && signUpCalls == old(signUpCalls) + [SignUpCall(name, email, password)]
        && loadingDuringSignUp && !isLoading
        && (outcome.SignedUp? ==> toasts == old(toasts) + [SuccessToast(CreatedMessage)] && route == Some(DashboardRoute))
        && (outcome.Rejected? ==> toasts == old(toasts) + [ErrorToast(FailureMessage(outcome.message))] && route == old(route))
    {
      if password != confirmPassword {
        toasts := toasts + [ErrorToast(MismatchMessage)];
        return;
      }
      if Utf16Length(password) < MinPasswordLength {
        toasts := toasts + [ErrorToast(TooShortMessage)];
        return;
      }
      isLoading := true;
      signUpCalls := signUpCalls + [SignUpCall(name, email, password)];
      loadingDuringSignUp := isLoading;
      if outcome.SignedUp? {
        toasts := toasts + [SuccessToast(CreatedMessage)];
        route := Some(DashboardRoute);
      } else {
        toasts := toasts + [ErrorToast(FailureMessage(outcome.message))];
      }
      isLoading := false;
    }
  }
}
