/**
 * The password-reset request (src/app/forgot-password/page.tsx). Once the
 * reset call is made the page reports success whatever the call returned, so
 * the response never reveals whether an account exists for the address.
 */
module ForgotPassword {

  const EmailMissing := "Por favor, informe seu e-mail"
  const ConfigError := "⚠️ Supabase não configurado. Vá em Configurações → Integrações → Supabase"

  /** What `resetPasswordForEmail` did. */
  datatype ResetOutcome = ResetOk | ResetFailed | ResetThrew

  datatype ForgotView = ForgotView(error: string, success: bool, loading: bool)

  /** The reset call is made exactly when an address was typed and the client exists. */
  predicate ResetRequested(email: string, clientReady: bool)
  {
    email != "" && clientReady
  }

  /** One submit of the form. */
  function Submit(v: ForgotView, email: string, clientReady: bool, outcome: ResetOutcome): (r: ForgotView)
    // the empty-address check comes first, even without a client
    ensures email == "" ==> r == v.(error := EmailMissing, success := false)
    ensures email != "" && !clientReady ==> r == v.(error := ConfigError, success := false)
    // after the call: the same neutral success on every outcome
    ensures ResetRequested(email, clientReady) ==> r == ForgotView("", true, false)
    ensures r.success <==> ResetRequested(email, clientReady)
  {
    var cleared := v.(error := "", success := false);
    if email == "" then cleared.(error := EmailMissing)
    else if !clientReady then cleared.(error := ConfigError)
    else
      match outcome
      case ResetOk => cleared.(loading := false, success := true)
      case ResetFailed => cleared.(loading := false, success := true)
      case ResetThrew => cleared.(loading := false, success := true)
  }

  /** Two different outcomes of the reset call cannot be told apart on the page. */
  lemma ResponseIsNeutral(v: ForgotView, email: string, clientReady: bool, o1: ResetOutcome, o2: ResetOutcome)
    ensures Submit(v, email, clientReady, o1) == Submit(v, email, clientReady, o2)
  {
  }

  class Page {
    var email: string
    var loading: bool
    var success: bool
    var error: string

    constructor ()
      ensures email == "" && View() == ForgotView("", false, false)
    {
      email, loading, success, error := "", false, false, "";
    }

    function View(): ForgotView
      reads this
    {
      ForgotView(error, success, loading)
    }

    /** `handleSubmit`; reports whether the reset call was made. */
    method HandleSubmit(clientReady: bool, outcome: ResetOutcome) returns (resetCalled: bool)
      modifies this
      ensures email == old(email)
      ensures View() == Submit(old(View()), email, clientReady, outcome)
      ensures resetCalled == ResetRequested(email, clientReady)
    {
      error := "";
      success := false;
      resetCalled := false;
      if email == "" {
        error := EmailMissing;
        return;
      }
      if !clientReady {
        error := ConfigError;
        return;
      }
      loading := true;
      resetCalled := true;
      match outcome {
        case ResetOk =>
          loading := false;
          success := true;
        case ResetFailed =>
          loading := false;
          success := true;
        case ResetThrew =>
          loading := false;
          success := true;
      }
    }
  }
}
