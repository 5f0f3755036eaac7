/**
 * The login and registration screens: their input checks and what they hand
 * to the identity provider. The provider's answer is a parameter.
 */
module AuthForms {
  import opened Wrappers
  import opened Domain

  /** The arguments of a `login` or `register` call. */
  datatype Credentials = Credentials(email: string, password: string)

  /** The identity provider's answer: success, or an error whose message may be empty or missing. */
  datatype ProviderAnswer = Accepted | Rejected(message: Option<string>)

  /**
   * What one press of the submit button leaves behind: the provider call made
   * (if any), the alert shown (if any) and the loading flag.
   */
  datatype Attempt = Attempt(call: Option<Credentials>, alert: Option<Alert>, loading: bool)

  const MinPasswordLength := 6

  datatype RegisterError = EmptyField | PasswordMismatch | PasswordTooShort

  function RegisterMessage(e: RegisterError): Alert {
    match e
    case EmptyField => Alert("Virhe", "Täytä kaikki kentät")
    case PasswordMismatch => Alert("Virhe", "Salasanat eivät täsmää")
    case PasswordTooShort => Alert("Virhe", "Salasanan tulee olla vähintään 6 merkkiä")
  }

  /**
   * The registration checks in their order: every field filled, then the two
   * passwords equal, then the password long enough. The name is checked but
   * not part of what is sent.
   */
  function CheckRegistration(email: string, password: string, confirmPassword: string, name: string)
    : (r: Result<Credentials, RegisterError>)
    ensures r == Failure(EmptyField) <==> email == "" || password == "" || confirmPassword == "" || name == ""
    ensures r == Failure(PasswordMismatch) <==>
              email != "" && password != "" && confirmPassword != "" && name != "" && password != confirmPassword
    ensures r == Failure(PasswordTooShort) <==>
              email != "" && password != "" && confirmPassword != "" && name != ""
              && password == confirmPassword && Utf16Length(password) < MinPasswordLength
    ensures r.Success? <==>
              email != "" && name != "" && password == confirmPassword && Utf16Length(password) >= MinPasswordLength
    ensures r.Success? ==> r.value == Credentials(email, password)
  {
    if email == "" || password == "" || confirmPassword == "" || name == "" then Failure(EmptyField)
    else if password != confirmPassword then Failure(PasswordMismatch)
    else if Utf16Length(password) < MinPasswordLength then Failure(PasswordTooShort)
    else Success(Credentials(email, password))
  }

  /** A short password that also differs from its confirmation is reported as a mismatch. */
  lemma MismatchReportedBeforeLength(email: string, name: string, password: string, confirmPassword: string)
    requires email != "" && name != "" && password != "" && confirmPassword != ""
    requires password != confirmPassword && Utf16Length(password) < MinPasswordLength
    ensures CheckRegistration(email, password, confirmPassword, name) == Failure(PasswordMismatch)
  {
  }

  /**
   * The length limit counts UTF-16 code units: three emoji make a six-unit
   * password, which passes.
   */
  lemma EmojiPasswordLongEnough()
    ensures Utf16Length("\U{1F600}\U{1F600}\U{1F600}") == 6
    ensures CheckRegistration("a@b.c", "\U{1F600}\U{1F600}\U{1F600}", "\U{1F600}\U{1F600}\U{1F600}", "n").Success?
  {
  }

  /**
   * Every credential pair the registration form accepts is handed to login
   * unchanged, so an account registered through the form can sign in with
   * what was typed.
   */
  lemma RegisteredCredentialsReachLogin(email: string, password: string, name: string,
                                        loading: bool, answer: ProviderAnswer)
    requires CheckRegistration(email, password, password, name).Success?
    ensures HandleLogin(email, password, loading, answer).call
         == Some(CheckRegistration(email, password, password, name).value)
  {
  }

  /** `error.message || fallback` */
  function FailureAlert(answer: ProviderAnswer, fallback: string): (a: Alert)
    requires answer.Rejected?
    ensures a.title == "Virhe"
    ensures Filled(answer.message) ==> a.message == answer.message.value
    ensures !Filled(answer.message) ==> a.message == fallback
  {
    Alert("Virhe", OrElse(answer.message, fallback))
  }

  /**
   * `handleRegister`: `loading` is the flag before the press and `answer` what
   * the provider would reply to the call.
   */
  function HandleRegister(email: string, password: string, confirmPassword: string, name: string,
                          loading: bool, answer: ProviderAnswer): (a: Attempt)
    ensures a.call.Some? <==> CheckRegistration(email, password, confirmPassword, name).Success?
    ensures a.call.Some? ==> a.call.value == Credentials(email, password) && !a.loading
    ensures a.call.None? ==>
              a.loading == loading
              && a.alert == Some(RegisterMessage(CheckRegistration(email, password, confirmPassword, name).error))
    ensures a.call.Some? && answer.Accepted? ==> a.alert.None?
    ensures a.call.Some? && answer.Rejected? ==> a.alert == Some(FailureAlert(answer, "Rekisteröinti epäonnistui"))
  {
    match CheckRegistration(email, password, confirmPassword, name)
    case Failure(e) => Attempt(None, Some(RegisterMessage(e)), loading)
    case Success(credentials) =>
      var alert := if answer.Rejected? then Some(FailureAlert(answer, "Rekisteröinti epäonnistui")) else None;
      Attempt(Some(credentials), alert, false)
  }

  const LoginEmpty := Alert("Virhe", "Täytä kaikki kentät")

  /** `handleLogin`: both fields required, then one call with exactly what was typed. */
  function HandleLogin(email: string, password: string, loading: bool, answer: ProviderAnswer): (a: Attempt)
    ensures a.call.None? <==> email == "" || password == ""
    ensures a.call.None? ==> a.alert == Some(LoginEmpty) && a.loading == loading
    ensures a.call.Some? ==> a.call.value == Credentials(email, password) && !a.loading
    ensures a.call.Some? && answer.Accepted? ==> a.alert.None?
    ensures a.call.Some? && answer.Rejected? ==> a.alert == Some(FailureAlert(answer, "Kirjautuminen epäonnistui"))
  {
    if email == "" || password == "" then Attempt(None, Some(LoginEmpty), loading)
    else
      var alert := if answer.Rejected? then Some(FailureAlert(answer, "Kirjautuminen epäonnistui")) else None;
      Attempt(Some(Credentials(email, password)), alert, false)
  }
}
