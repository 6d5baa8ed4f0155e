/**
 * The login form (src/app/login/page.tsx): the page's own configuration
 * check on the two environment values, and the submit handler that maps the
 * identity provider's error text to the message shown.
 */
module Login {
  import opened Text
  import SupabaseCredentials

  const ConfigError := "⚙️ Supabase não configurado. Configure em: Configurações → Integrações → Supabase"
  const EmailNotConfirmed := "Email not confirmed"
  const InvalidCredentials := "Invalid login credentials"
  const ConfirmEmailMessage := "📧 Confirme seu e-mail antes de fazer login. Verifique sua caixa de entrada e spam."
  const InvalidCredentialsMessage := "E-mail ou senha inválidos. Verifique se confirmou seu e-mail."
  const UnexpectedError := "Erro ao fazer login. Tente novamente."
  const DashboardRoute := "/dashboard"

  /** The page's `isSupabaseConfigured`: `url && key && url !== '' && key !== ''`. */
  predicate IsSupabaseConfigured(url: Option<string>, key: Option<string>)
  {
    Truthy(url) && Truthy(key) && url != Some("") && key != Some("")
  }

  /** The two explicit `!== ''` tests add nothing to the truthiness tests. */
  lemma ConfiguredIffBothPresent(url: Option<string>, key: Option<string>)
    ensures IsSupabaseConfigured(url, key) <==>
              url.Some? && key.Some? && url.value != "" && key.value != ""
  {
  }

  /** Whenever the validated client of src/utils/supabase.ts exists, this page counts as configured. */
  lemma ValidClientImpliesConfigured(url: Option<string>, key: Option<string>, urlParses: string -> bool)
    requires SupabaseCredentials.ExportedClient(url, key, urlParses).Some?
    ensures IsSupabaseConfigured(url, key)
  {
  }

  /** The message shown for a sign-in error. */
  function SignInErrorMessage(message: string): (r: string)
    ensures Contains(message, EmailNotConfirmed) ==> r == ConfirmEmailMessage
    ensures !Contains(message, EmailNotConfirmed) && Contains(message, InvalidCredentials) ==>
              r == InvalidCredentialsMessage
    ensures !Contains(message, EmailNotConfirmed) && !Contains(message, InvalidCredentials) ==> r == message
  {
    if Contains(message, EmailNotConfirmed) then ConfirmEmailMessage
    else if Contains(message, InvalidCredentials) then InvalidCredentialsMessage
    else message
  }

  /** Unconfirmed e-mail wins, wherever the two phrases sit in the provider's text. */
  lemma UnconfirmedWins(a: string, b: string)
    ensures SignInErrorMessage(a + EmailNotConfirmed + b) == ConfirmEmailMessage
  {
    ContainsWithin(a, EmailNotConfirmed, b);
  }

  /** Any text mentioning the credentials phrase but not the confirmation phrase gets the credentials message. */
  lemma InvalidCredentialsMapped(a: string, b: string)
    requires !Contains(a + InvalidCredentials + b, EmailNotConfirmed)
    ensures SignInErrorMessage(a + InvalidCredentials + b) == InvalidCredentialsMessage
  {
    ContainsWithin(a, InvalidCredentials, b);
  }

  /** What `signInWithPassword` did. */
  datatype SignInOutcome = SignInFailed(message: string) | SignedIn(hasUser: bool) | SignInThrew

  datatype LoginView = LoginView(error: string, loading: bool, route: Option<string>)

  /** One submit of the login form. */
  function Submit(v: LoginView, configured: bool, outcome: SignInOutcome): (r: LoginView)
    // unconfigured: only the configuration error, no sign-in attempt
    ensures !configured ==> r == v.(error := ConfigError)
    // every failure ends with loading reset
    ensures configured && !outcome.SignedIn? ==> !r.loading && r.route == v.route
    ensures configured && outcome.SignInFailed? ==> r.error == SignInErrorMessage(outcome.message)
    ensures configured && outcome.SignInThrew? ==> r.error == UnexpectedError
    // success clears the error and keeps the spinner while navigating
    ensures configured && outcome.SignedIn? ==>
              r.error == "" && r.loading &&
              r.route == (if outcome.hasUser then Some(DashboardRoute) else v.route)
  {
    var cleared := v.(error := "");
    if !configured then cleared.(error := ConfigError)
    else match outcome
      case SignInFailed(message) => cleared.(error := SignInErrorMessage(message), loading := false)
      case SignInThrew => cleared.(error := UnexpectedError, loading := false)
      case SignedIn(hasUser) =>
        cleared.(loading := true, route := if hasUser then Some(DashboardRoute) else v.route)
  }

  class Page {
    var email: string
    var password: string
    var error: string
    var loading: bool
    var route: Option<string>

    constructor ()
      ensures email == "" && password == "" && View() == LoginView("", false, None)
    {
      email, password, error, loading, route := "", "", "", false, None;
    }

    function View(): LoginView
      reads this
    {
      LoginView(error, loading, route)
    }

    /** `handleSubmit`; reports whether sign-in was attempted. */
    method HandleSubmit(envUrl: Option<string>, envKey: Option<string>, outcome: SignInOutcome)
      returns (attempted: bool)
      modifies this
      ensures email == old(email) && password == old(password)
      ensures View() == Submit(old(View()), IsSupabaseConfigured(envUrl, envKey), outcome)
      ensures attempted == IsSupabaseConfigured(envUrl, envKey)
    {
      error := "";
      attempted := false;
      if !IsSupabaseConfigured(envUrl, envKey) {
        error := ConfigError;
        return;
      }
      loading := true;
      attempted := true;
      match outcome {
        case SignInFailed(message) =>
          if Contains(message, EmailNotConfirmed) {
            error := ConfirmEmailMessage;
          } else if Contains(message, InvalidCredentials) {
            error := InvalidCredentialsMessage;
          } else {
            error := message;
          }
          loading := false;
        case SignedIn(hasUser) =>
          if hasUser {
            route := Some(DashboardRoute);
          }
        case SignInThrew =>
          error := UnexpectedError;
          loading := false;
      }
    }
  }
}
