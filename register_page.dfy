/**
 * The register page: the email prefill, the password checks that run before any request,
 * the request body, and what the page does with the server's answer.
 */
module RegisterPage {
  import opened Wrappers
  import opened JsString
  import opened UiFeedback

  const MinPasswordLength: nat := 6

  /** `searchParams.get("email") || ""`. */
  function PrefillEmail(param: Option<string>): (r: string)
    ensures IsFalsy(param) ==> r == ""
    ensures !IsFalsy(param) ==> r == param.value
  {
    OrElse(param, "")
  }

  /** The body posted to `/auth/register`: the email and password only. */
  datatype RegisterBody = RegisterBody(email: string, password: string)

  const MismatchMessage := "Passwords do not match"
  const TooShortMessage := "Password must be at least 6 characters"

  /** The checks in `handleSubmit`, in order: confirmation first, then length. */
  function PasswordError(password: string, confirmPassword: string): (r: Option<string>)
    ensures r.None? <==> password == confirmPassword && |password| >= MinPasswordLength
    ensures password != confirmPassword ==> r == Some(MismatchMessage)
    ensures password == confirmPassword && |password| < MinPasswordLength ==> r == Some(TooShortMessage)
  {
    if password != confirmPassword then Some(MismatchMessage)
    else if |password| < MinPasswordLength then Some(TooShortMessage)
    else None
  }

  /** The visible result of one submission: the request sent, if any, the notification and the navigation. */
  datatype RegisterOutcome = RegisterOutcome(request: Option<RegisterBody>, toast: Toast, navigateTo: Option<string>)

  /**
   * `handleSubmit` for the given form fields, with `post` standing for the server's answer:
   * a request is sent exactly when both checks pass, and only success goes to "/login".
   */
  function SubmitOutcome(email: string, password: string, confirmPassword: string,
                         post: RegisterBody -> ApiResult): (o: RegisterOutcome)
    ensures o.request.Some? <==> PasswordError(password, confirmPassword).None?
    ensures o.request.Some? ==> o.request.value == RegisterBody(email, password)
    ensures o.navigateTo.Some? <==> o.request.Some? && post(o.request.value) == ApiOk
    ensures o.navigateTo.Some? ==> o.navigateTo.value == "/login"
    ensures o.request.None? ==> o.toast == ToastError(PasswordError(password, confirmPassword).value)
    ensures o.navigateTo.Some? ==> o.toast == ToastSuccess("Account created successfully! Please sign in.")
    ensures o.request.Some? && post(o.request.value).ApiFailed? ==>
      o.toast == ToastError(OrElse(post(o.request.value).message, "Registration failed. Please try again."))
  {
    match PasswordError(password, confirmPassword)
    case Some(message) => RegisterOutcome(None, ToastError(message), None)
    case None =>
      var body := RegisterBody(email, password);
      match post(body)
      case ApiOk => RegisterOutcome(Some(body), ToastSuccess("Account created successfully! Please sign in."), Some("/login"))
      case ApiFailed(message) =>
        RegisterOutcome(Some(body), ToastError(OrElse(message, "Registration failed. Please try again.")), None)
  }

  /** Mismatched passwords are reported first and nothing is sent, even when they are also short. */
  lemma MismatchReportedFirst(email: string, password: string, confirmPassword: string,
                              post: RegisterBody -> ApiResult)
    requires password != confirmPassword
    ensures SubmitOutcome(email, password, confirmPassword, post)
      == RegisterOutcome(None, ToastError("Passwords do not match"), None)
  {
  }

  /** A password of five characters is refused without a request; one of exactly six is sent. */
  lemma LengthBoundary(email: string, password: string, post: RegisterBody -> ApiResult)
    ensures |password| < 6 ==>
      SubmitOutcome(email, password, password, post)
        == RegisterOutcome(None, ToastError("Password must be at least 6 characters"), None)
    ensures |password| == 6 ==>
      SubmitOutcome(email, password, password, post).request == Some(RegisterBody(email, password))
  {
  }

  datatype Field = Email | Password | ConfirmPassword

  /** The register form's component state. */
  class RegisterForm {
    var email: string
    var password: string
    var confirmPassword: string
    var isLoading: bool

    constructor (emailParam: Option<string>)
      ensures email == PrefillEmail(emailParam) && password == "" && confirmPassword == ""
      ensures !isLoading
    {
      email := PrefillEmail(emailParam);
      password, confirmPassword := "", "";
      isLoading := false;
    }

    /** `handleChange`: stores the edited field only. */
    method HandleChange(field: Field, value: string)
      modifies this
      ensures field == Email ==> email == value && password == old(password) && confirmPassword == old(confirmPassword)
      ensures field == Password ==> password == value && email == old(email) && confirmPassword == old(confirmPassword)
      ensures field == ConfirmPassword ==> confirmPassword == value && email == old(email) && password == old(password)
      ensures isLoading == old(isLoading)
    {
      match field {
        case Email => email := value;
        case Password => password := value;
        case ConfirmPassword => confirmPassword := value;
      }
    }

    /** `handleSubmit`: loading is set only once the checks pass, and is false again after the request. */
    method HandleSubmit(post: RegisterBody -> ApiResult) returns (outcome: RegisterOutcome)
      modifies this
      ensures outcome == SubmitOutcome(old(email), old(password), old(confirmPassword), post)
      ensures outcome.request.None? ==> isLoading == old(isLoading)
      ensures outcome.request.Some? ==> !isLoading
      ensures email == old(email) && password == old(password) && confirmPassword == old(confirmPassword)
    {
      if PasswordError(password, confirmPassword).Some? {
        outcome := SubmitOutcome(email, password, confirmPassword, post);
        return;
      }
      isLoading := true;
      outcome := SubmitOutcome(email, password, confirmPassword, post);
      isLoading := false;
    }
  }
}
