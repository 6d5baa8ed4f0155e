/**
 * The sign-up form's submit handler (src/app/signup/page.tsx): an ordered
 * chain of checks in which the first failure is the only message, then one
 * call to the identity provider whose outcome is classified into an error,
 * a "confirm your e-mail" notice or a redirect to the contact form.
 */
module Signup {
  import opened Text

  const ConfigError := "⚠️ Supabase não está configurado. Vá em Configurações do Projeto → Integrações → Supabase para conectar."
  const RequiredError := "Todos os campos são obrigatórios"
  const PasswordError := "A senha deve ter no mínimo 6 caracteres"
  const TermsError := "Você deve aceitar os Termos de Uso para continuar"
  const DefaultSignUpError := "Erro ao criar conta. Tente novamente."
  const ConnectionError := "Erro ao criar conta. Verifique sua conexão e tente novamente."
  const ConfirmEmailSuccess := "✅ Conta criada! Verifique seu e-mail para confirmar o cadastro antes de fazer login."
  const RedirectSuccess := "✅ Conta criada com sucesso! Redirecionando..."
  const ContactRoute := "/contact"
  const MinPasswordLength: nat := 6

  datatype SignupForm = SignupForm(name: string, email: string, phone: string, password: string,
                                   acceptTerms: bool)

  /** What `supabase.auth.signUp` did: returned an error, returned data, or raised. */
  datatype SignUpOutcome =
    | SignUpFailed(message: string)
    | SignedUp(hasUser: bool, hasSession: bool)
    | SignUpThrew

  /** The page state the handler writes; `pendingRoute` is the delayed navigation it schedules. */
  datatype SignupView = SignupView(error: string, success: string, loading: bool, pendingRoute: Option<string>)

  predicate AllFilled(f: SignupForm)
  {
    f.name != "" && f.email != "" && f.phone != "" && f.password != ""
  }

  /** The guard chain: the message of the first check that fails, if any. */
  function FirstFailure(clientReady: bool, f: SignupForm): (r: Option<string>)
    // an unconfigured client wins over everything
    ensures !clientReady ==> r == Some(ConfigError)
    // each later message is reached only when every earlier check passed
    ensures r == Some(RequiredError) <==> clientReady && !AllFilled(f)
    ensures r == Some(PasswordError) <==> clientReady && AllFilled(f) && Utf16Length(f.password) < MinPasswordLength
    ensures r == Some(TermsError) <==>
              clientReady && AllFilled(f) && Utf16Length(f.password) >= MinPasswordLength && !f.acceptTerms
    // sign-up is attempted exactly when every check passes
    ensures r.None? <==> clientReady && AllFilled(f) && Utf16Length(f.password) >= MinPasswordLength && f.acceptTerms
  {
    if !clientReady then Some(ConfigError)
    else if f.name == "" || f.email == "" || f.phone == "" || f.password == "" then Some(RequiredError)
    else if Utf16Length(f.password) < MinPasswordLength then Some(PasswordError)
    else if !f.acceptTerms then Some(TermsError)
    else None
  }

  /** How the sign-up call's outcome is shown, starting from cleared messages with `loading` set. */
  function Classify(v: SignupView, outcome: SignUpOutcome): (r: SignupView)
    requires v.error == "" && v.success == ""
    ensures !r.loading
    ensures outcome.SignUpFailed? ==>
              r.error == (if outcome.message == "" then DefaultSignUpError else outcome.message)
    ensures r.error == "" || r.success == ""
    ensures r.success == ConfirmEmailSuccess <==> outcome.SignedUp? && outcome.hasUser && !outcome.hasSession
    ensures r.success == RedirectSuccess <==> outcome.SignedUp? && outcome.hasUser && outcome.hasSession
    ensures r.pendingRoute == (if r.success == RedirectSuccess then Some(ContactRoute) else v.pendingRoute)
    // an exception shows the connection error and nothing else
    ensures outcome.SignUpThrew? ==> r == v.(loading := false, error := ConnectionError)
    // a reply with no user shows no message at all
    ensures outcome.SignedUp? && !outcome.hasUser ==> r == v.(loading := false)
  {
    match outcome
    case SignUpFailed(message) =>
      v.(loading := false, error := if message == "" then DefaultSignUpError else message)
    case SignUpThrew =>
      v.(loading := false, error := ConnectionError)
    case SignedUp(hasUser, hasSession) =>
      if hasUser && !hasSession then v.(loading := false, success := ConfirmEmailSuccess)
      else if hasUser && hasSession then
        v.(loading := false, success := RedirectSuccess, pendingRoute := Some(ContactRoute))
      else v.(loading := false)
  }

  /** One submit: clear both messages, run the checks, then classify the sign-up outcome. */
  function Submit(v: SignupView, clientReady: bool, f: SignupForm, outcome: SignUpOutcome): (r: SignupView)
    ensures r.error == "" || r.success == ""
    ensures FirstFailure(clientReady, f).Some? ==>
              r == v.(error := FirstFailure(clientReady, f).value, success := "")
    ensures FirstFailure(clientReady, f).None? ==> !r.loading
    // once every check passes, the outcome of `signUp` is shown as `Classify` says
    ensures FirstFailure(clientReady, f).None? ==>
              r == Classify(v.(error := "", success := "", loading := true), outcome)
    ensures r.success != "" ==> FirstFailure(clientReady, f).None? && outcome.SignedUp? && outcome.hasUser
  {
    var cleared := v.(error := "", success := "");
    match FirstFailure(clientReady, f)
    case Some(message) => cleared.(error := message)
    case None => Classify(cleared.(loading := true), outcome)
  }

  /** No message from an earlier submit survives the next one. */
  lemma SubmitForgetsMessages(v: SignupView, error: string, success: string, clientReady: bool,
                              f: SignupForm, outcome: SignUpOutcome)
    ensures Submit(v.(error := error, success := success), clientReady, f, outcome)
            == Submit(v, clientReady, f, outcome)
  {
  }

  /** A six-character password passes the length check. */
  lemma SixCharactersSuffice(f: SignupForm)
    requires AllFilled(f) && |f.password| == MinPasswordLength && f.acceptTerms
    ensures FirstFailure(true, f).None?
  {
  }

  /**
   * The length check counts UTF-16 code units: three characters outside the
   * Basic Multilingual Plane (emoji, say) already make six.
   */
  lemma ThreeAstralCharactersSuffice(f: SignupForm)
    requires AllFilled(f) && f.acceptTerms
    requires |f.password| == 3 && forall i :: 0 <= i < 3 ==> IsAstral(f.password[i])
    ensures FirstFailure(true, f).None?
  {
    var p := f.password;
    assert p[1..][0] == p[1] && p[1..][1..][0] == p[2] && p[1..][1..][1..] == [];
    assert Utf16Length(p) == 6;
  }

  /** A password of five BMP characters is too short. */
  lemma FiveBmpCharactersAreTooShort(f: SignupForm)
    requires AllFilled(f)
    requires |f.password| == 5 && forall i :: 0 <= i < 5 ==> !IsAstral(f.password[i])
    ensures FirstFailure(true, f) == Some(PasswordError)
  {
  }

  class Page {
    var name: string
    var email: string
    var phone: string
    var password: string
    var acceptTerms: bool
    var error: string
    var success: string
    var loading: bool
    var pendingRoute: Option<string>

    constructor ()
      ensures Form() == SignupForm("", "", "", "", false)
      ensures View() == SignupView("", "", false, None)
    {
      name, email, phone, password, acceptTerms := "", "", "", "", false;
      error, success, loading, pendingRoute := "", "", false, None;
    }

    function Form(): SignupForm
      reads this
    {
      SignupForm(name, email, phone, password, acceptTerms)
    }

    function View(): SignupView
      reads this
    {
      SignupView(error, success, loading, pendingRoute)
    }

    /** `handleSubmit`; reports whether `signUp` was called. */
    method HandleSubmit(clientReady: bool, outcome: SignUpOutcome) returns (signUpCalled: bool)
      modifies this
      ensures Form() == old(Form())
      ensures View() == Submit(old(View()), clientReady, Form(), outcome)
      ensures signUpCalled <==> FirstFailure(clientReady, Form()).None?
    {
      error := "";
      success := "";
      signUpCalled := false;
      if !clientReady {
        error := ConfigError;
        return;
      }
      if name == "" || email == "" || phone == "" || password == "" {
        error := RequiredError;
        return;
      }
      if Utf16Length(password) < MinPasswordLength {
        error := PasswordError;
        return;
      }
      if !acceptTerms {
        error := TermsError;
        return;
      }
      loading := true;
      signUpCalled := true;
      match outcome {
        case SignUpThrew =>
          loading := false;
          error := ConnectionError;
        case SignUpFailed(message) =>
          loading := false;
          error := if message == "" then DefaultSignUpError else message;
        case SignedUp(hasUser, hasSession) =>
          loading := false;
          if hasUser && !hasSession {
            success := ConfirmEmailSuccess;
          } else if hasUser && hasSession {
            success := RedirectSuccess;
            pendingRoute := Some(ContactRoute);
          }
      }
    }
  }
}
