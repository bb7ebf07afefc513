/**
 * The login page: the `callbackUrl` default, the form state, and how the result of
 * `signIn` is turned into a notification, a sign-up prompt or a navigation.
 */
module LoginPage {
  import opened Wrappers
  import opened JsString
  import opened Auth
  import opened UiFeedback

  /** `searchParams.get("callbackUrl") || "/"`. */
  function CallbackUrl(param: Option<string>): (r: string)
    ensures r != ""
    ensures IsFalsy(param) ==> r == "/"
    ensures !IsFalsy(param) ==> r == param.value
  {
    OrElse(param, "/")
  }

  /** The three ways the page reads an error string. */
  datatype ErrorClass = AccountNotFound | BadPassword | OtherError(text: string)

  /**
   * The error classification in `handleSubmit`, on the lower-cased error text. Both phrases
   * that mean a missing account contain a "u", so only a text with one can be read that way;
   * a text read as neither kind is kept as it is.
   */
  function ClassifyError(error: string): (r: ErrorClass)
    ensures r == AccountNotFound ==> 'u' in error || 'U' in error
    ensures r == BadPassword ==> Includes(ToLowerCase(error), "password")
    ensures r.OtherError? ==> r.text == error && !Includes(ToLowerCase(error), "password")
  {
    PromptPhrasesNeedU(error);
    var lower := ToLowerCase(error);
    if Includes(lower, "no account found") || Includes(lower, "sign up") then AccountNotFound
    else if Includes(lower, "password") then BadPassword
    else OtherError(error)
  }

  /** What `signIn("credentials", …)` gave back: it threw, or it returned an `error` that may be missing. */
  datatype SignInResult = SignInThrew | SignInReturned(error: Option<string>)

  /** `signIn`'s answer to what `authorize` decided: the thrown message as `error`, none on success. */
  function SignInResultOf(r: Result<Identity, AuthError>): SignInResult {
    match r
    case Ok(_) => SignInReturned(None)
    case Err(e) => SignInReturned(Some(e.Message()))
  }

  /** The visible result of one submission. */
  datatype LoginOutcome = LoginOutcome(toast: Toast, navigateTo: Option<string>, signupPrompt: bool)

  const AccountNotFoundToast := ToastError("Account not found. Please sign up first!")
  const BadPasswordToast := ToastError("Invalid password. Please try again.")
  const UnexpectedToast := ToastError("Something went wrong. Please try again.")
  const WelcomeToast := ToastSuccess("Welcome back!")

  /**
   * The outcome of `handleSubmit` for a given `signIn` result: navigation to the callback
   * URL happens exactly when `signIn` returned without a truthy error, and the sign-up
   * prompt is shown exactly for an error classified as a missing account.
   */
  function SubmitOutcome(result: SignInResult, callbackUrl: string): (o: LoginOutcome)
    ensures o.navigateTo.Some? <==> result.SignInReturned? && IsFalsy(result.error)
    ensures o.navigateTo.Some? ==> o.navigateTo.value == callbackUrl && o.toast == WelcomeToast
    ensures o.signupPrompt <==>
      result.SignInReturned? && !IsFalsy(result.error) && ClassifyError(result.error.value) == AccountNotFound
    ensures result.SignInThrew? ==> o == LoginOutcome(ToastError("Something went wrong. Please try again."), None, false)
  {
    match result
    case SignInThrew => LoginOutcome(UnexpectedToast, None, false)
    case SignInReturned(error) =>
      if IsFalsy(error) then LoginOutcome(WelcomeToast, Some(callbackUrl), false)
      else
        match ClassifyError(error.value)
        case AccountNotFound => LoginOutcome(AccountNotFoundToast, None, true)
        case BadPassword => LoginOutcome(BadPasswordToast, None, false)
        case OtherError(text) => LoginOutcome(ToastError(text), None, false)
  }

  /** Error text with none of the three phrases is shown as it is. */
  lemma OtherErrorsVerbatim(error: string, callbackUrl: string)
    requires error != ""
    requires !Includes(ToLowerCase(error), "no account found") && !Includes(ToLowerCase(error), "sign up")
    requires !Includes(ToLowerCase(error), "password")
    ensures SubmitOutcome(SignInReturned(Some(error)), callbackUrl) == LoginOutcome(ToastError(error), None, false)
  {
  }

  /** Any text whose lower-cased form contains either prompt phrase turns on the sign-up prompt. */
  lemma PromptPhraseShowsPrompt(error: string, callbackUrl: string)
    requires Includes(ToLowerCase(error), "no account found") || Includes(ToLowerCase(error), "sign up")
    ensures SubmitOutcome(SignInReturned(Some(error)), callbackUrl) == LoginOutcome(AccountNotFoundToast, None, true)
  {
  }

  /** A text that mentions "password" in any case, and neither prompt phrase, is read as a bad password. */
  lemma PasswordWithoutPhrasesClassified(error: string, callbackUrl: string)
    requires !Includes(ToLowerCase(error), "no account found") && !Includes(ToLowerCase(error), "sign up")
    requires Includes(ToLowerCase(error), "password")
    ensures ClassifyError(error) == BadPassword
    ensures SubmitOutcome(SignInReturned(Some(error)), callbackUrl) == LoginOutcome(BadPasswordToast, None, false)
  {
  }

  /** A string with no 'u' in either case cannot contain "no account found" or "sign up" once lower-cased. */
  lemma NoULeavesNoPrompt(error: string)
    requires 'u' !in error && 'U' !in error
    ensures !Includes(ToLowerCase(error), "no account found") && !Includes(ToLowerCase(error), "sign up")
  {
    PromptPhrasesNeedU(error);
  }

  /** A text whose lower-cased form contains either prompt phrase has a 'u' in either case. */
  lemma PromptPhrasesNeedU(error: string)
    ensures Includes(ToLowerCase(error), "no account found") || Includes(ToLowerCase(error), "sign up")
      ==> 'u' in error || 'U' in error
  {
    LowerCaseOccurrence(error, 'u');
    if Includes(ToLowerCase(error), "no account found") {
      IncludedCharsOccur(ToLowerCase(error), "no account found", 'u');
    }
    if Includes(ToLowerCase(error), "sign up") {
      IncludedCharsOccur(ToLowerCase(error), "sign up", 'u');
    }
  }

  /** The no-account message `authorize` throws turns on the sign-up prompt. */
  lemma NoAccountMessageClassified()
    ensures ClassifyError(NoAccount.Message()) == AccountNotFound
  {
    var m := NoAccount.Message();
    assert forall k :: 0 <= k < 7 ==> LowerChar(m[41 + k]) == "sign up"[k];
    OccurrenceIncluded(ToLowerCase(m), "sign up", 41);
  }

  /** Text that mentions "password" but not a missing account is read as a bad password. */
  lemma PasswordMentionClassified(error: string, i: nat)
    requires 'u' !in error && 'U' !in error
    requires i + 8 <= |error| && forall k :: 0 <= k < 8 ==> LowerChar(error[i + k]) == "password"[k]
    ensures ClassifyError(error) == BadPassword
  {
    NoULeavesNoPrompt(error);
    OccurrenceIncluded(ToLowerCase(error), "password", i);
  }

  /** The wrong-password message is read as a bad password. */
  lemma WrongPasswordMessageClassified()
    ensures ClassifyError(WrongPassword.Message()) == BadPassword
  {
    var m := WrongPassword.Message();
    assert forall k :: 0 <= k < 8 ==> LowerChar(m[8 + k]) == "password"[k];
    PasswordMentionClassified(m, 8);
  }

  /** The missing-input message mentions "password", so it too is read as a bad password. */
  lemma MissingInputMessageClassified()
    ensures ClassifyError(MissingCredentials.Message()) == BadPassword
  {
    var m := MissingCredentials.Message();
    assert forall k :: 0 <= k < 8 ==> LowerChar(m[23 + k]) == "password"[k];
    PasswordMentionClassified(m, 23);
  }

  /** How the page shows a non-empty error once it is classified. */
  lemma ClassifiedErrorOutcome(error: string, callbackUrl: string)
    requires error != ""
    ensures ClassifyError(error) == AccountNotFound ==>
      SubmitOutcome(SignInReturned(Some(error)), callbackUrl) == LoginOutcome(AccountNotFoundToast, None, true)
    ensures ClassifyError(error) == BadPassword ==>
      SubmitOutcome(SignInReturned(Some(error)), callbackUrl) == LoginOutcome(BadPasswordToast, None, false)
  {
  }

  /** End to end: what the page shows for each decision of `authorize`. */
  lemma SignInOutcomes(credentials: Option<Credentials>, users: UserStore,
                       compare: (string, string) -> bool, callbackUrl: string)
    ensures var r := Authorize(credentials, users, compare);
      var o := SubmitOutcome(SignInResultOf(r), callbackUrl);
      && (r.Ok? ==> o == LoginOutcome(ToastSuccess("Welcome back!"), Some(callbackUrl), false))
      && (r == Err(NoAccount) ==>
            o == LoginOutcome(ToastError("Account not found. Please sign up first!"), None, true))
      && (r == Err(WrongPassword) || r == Err(MissingCredentials) ==>
            o == LoginOutcome(ToastError("Invalid password. Please try again."), None, false))
  {
    var r := Authorize(credentials, users, compare);
    if r.Err? {
      var m := r.error.Message();
      match r.error {
        case NoAccount => NoAccountMessageClassified();
        case WrongPassword => WrongPasswordMessageClassified();
        case MissingCredentials => MissingInputMessageClassified();
      }
      ClassifiedErrorOutcome(m, callbackUrl);
    }
  }

  datatype Field = Email | Password

  /** The login form's component state. */
  class LoginForm {
    const callbackUrl: string
    var email: string
    var password: string
    var isLoading: bool
    var showSignupPrompt: bool

    constructor (callbackParam: Option<string>)
      ensures callbackUrl == CallbackUrl(callbackParam)
      ensures email == "" && password == "" && !isLoading && !showSignupPrompt
    {
      callbackUrl := CallbackUrl(callbackParam);
      email, password := "", "";
      isLoading, showSignupPrompt := false, false;
    }

    /** `handleChange`: stores the edited field only and hides the sign-up prompt. */
    method HandleChange(field: Field, value: string)
      modifies this
      ensures field == Email ==> email == value && password == old(password)
      ensures field == Password ==> password == value && email == old(email)
      ensures !showSignupPrompt && isLoading == old(isLoading)
    {
      match field {
        case Email => email := value;
        case Password => password := value;
      }
      showSignupPrompt := false;
    }

    /**
     * `handleSubmit`: sends the current email and password to `signIn` and applies the
     * outcome; the prompt is reset first and loading always ends false.
     */
    method HandleSubmit(signIn: (string, string) -> SignInResult) returns (outcome: LoginOutcome)
      modifies this
      ensures outcome == SubmitOutcome(signIn(old(email), old(password)), callbackUrl)
      ensures showSignupPrompt == outcome.signupPrompt
      ensures !isLoading
      ensures email == old(email) && password == old(password)
    {
      isLoading := true;
      showSignupPrompt := false;
      var result := signIn(email, password);
      outcome := SubmitOutcome(result, callbackUrl);
      if outcome.signupPrompt {
        showSignupPrompt := true;
      }
      isLoading := false;
    }
  }
}
