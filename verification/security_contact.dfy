/**
 * The security-contact editor's save (src/app/security-contact/page.tsx):
 * two guards, a fresh look-up of the signed-in user, then one upsert of the
 * user's contact row followed by an alert and, on success, navigation back to
 * the settings screen.
 */
module SecurityContact {
  import opened Text

  const NotConfiguredAlert := "Supabase não está configurado."
  const MissingFieldsAlert := "Por favor, preencha pelo menos nome e telefone."
  const SavedAlert := "Contato de segurança salvo com sucesso!"
  const FailedAlert := "Erro ao salvar contato de segurança. Tente novamente."
  const LoginRoute := "/login"
  const SettingsRoute := "/configuracoes"

  /** What `supabase.auth.getUser` gave: a user, no user, or an exception. */
  datatype AuthOutcome = Authenticated(userId: string) | NoUser | AuthThrew

  /** What the upsert did; an error is rethrown, so both failures are handled alike. */
  datatype UpsertOutcome = UpsertOk | UpsertFailed | UpsertThrew

  /** The row sent to `contatos_seguranca`; `updatedAt` is the save time. */
  datatype ContactRow = ContactRow(userId: string, nome: string, telefone: string,
                                   email: Option<string>, updatedAt: int)

  /** The row `handleSave` builds: `email || null`. */
  function BuildRow(userId: string, nome: string, telefone: string, email: string, now: int): (r: ContactRow)
    ensures r.email.None? <==> email == ""
    ensures r.email.Some? ==> r.email.value == email
    ensures r.userId == userId && r.nome == nome && r.telefone == telefone && r.updatedAt == now
  {
    ContactRow(userId, nome, telefone, if email == "" then None else Some(email), now)
  }

  datatype SaveView = SaveView(loading: bool, route: Option<string>, alerts: seq<string>)

  /** The effect of one save: the new page state and the row written, if the upsert was issued. */
  datatype SaveStep = SaveStep(view: SaveView, sent: Option<ContactRow>)

  function Save(v: SaveView, configured: bool, nome: string, telefone: string, email: string,
                auth: AuthOutcome, now: int, upsert: UpsertOutcome): (r: SaveStep)
    // the configuration guard comes first, then the two required fields
    ensures !configured ==> r == SaveStep(v.(alerts := v.alerts + [NotConfiguredAlert]), None)
    ensures configured && (nome == "" || telefone == "") ==>
              r == SaveStep(v.(alerts := v.alerts + [MissingFieldsAlert]), None)
    // an upsert is issued exactly when both guards pass and a user is signed in
    ensures r.sent.Some? <==> configured && nome != "" && telefone != "" && auth.Authenticated?
    ensures r.sent.Some? ==> r.sent.value == BuildRow(auth.userId, nome, telefone, email, now)
    // past the guards, loading always ends false
    ensures configured && nome != "" && telefone != "" ==> !r.view.loading
    // no user: back to the login page, with no alert
    ensures configured && nome != "" && telefone != "" && auth.NoUser? ==>
              r.view == v.(loading := false, route := Some(LoginRoute))
    // `getUser` raised: the failure alert, and the page stays
    ensures configured && nome != "" && telefone != "" && auth.AuthThrew? ==>
              r.view == v.(loading := false, alerts := v.alerts + [FailedAlert])
    // success alerts and goes to settings; a failure alerts and stays
    ensures r.sent.Some? && upsert.UpsertOk? ==>
              r.view.alerts == v.alerts + [SavedAlert] && r.view.route == Some(SettingsRoute)
    ensures r.sent.Some? && !upsert.UpsertOk? ==>
              r.view.alerts == v.alerts + [FailedAlert] && r.view.route == v.route
  {
    if !configured then SaveStep(v.(alerts := v.alerts + [NotConfiguredAlert]), None)
    else if nome == "" || telefone == "" then SaveStep(v.(alerts := v.alerts + [MissingFieldsAlert]), None)
    else
      match auth
      case NoUser => SaveStep(v.(loading := false, route := Some(LoginRoute)), None)
      case AuthThrew => SaveStep(v.(loading := false, alerts := v.alerts + [FailedAlert]), None)
      case Authenticated(uid) =>
        var row := BuildRow(uid, nome, telefone, email, now);
        if upsert.UpsertOk? then
          SaveStep(v.(loading := false, alerts := v.alerts + [SavedAlert], route := Some(SettingsRoute)), Some(row))
        else
          SaveStep(v.(loading := false, alerts := v.alerts + [FailedAlert]), Some(row))
  }

  /** The e-mail field is optional: leaving it empty never blocks a save. */
  lemma EmailIsOptional(v: SaveView, nome: string, telefone: string, uid: string, now: int)
    requires nome != "" && telefone != ""
    ensures Save(v, true, nome, telefone, "", Authenticated(uid), now, UpsertOk).sent
            == Some(ContactRow(uid, nome, telefone, None, now))
  {
  }

  class Page {
    var nome: string
    var telefone: string
    var email: string
    var loading: bool
    var route: Option<string>
    var alerts: seq<string>

    constructor ()
      ensures nome == "" && telefone == "" && email == ""
      ensures View() == SaveView(false, None, [])
    {
      nome, telefone, email := "", "", "";
      loading, route, alerts := false, None, [];
    }

    function View(): SaveView
      reads this
    {
      SaveView(loading, route, alerts)
    }

    /** `handleSave`; returns the row handed to the upsert, if one was. */
    method HandleSave(configured: bool, auth: AuthOutcome, now: int, upsert: UpsertOutcome)
      returns (sent: Option<ContactRow>)
      modifies this
      ensures nome == old(nome) && telefone == old(telefone) && email == old(email)
      ensures var r := Save(old(View()), configured, nome, telefone, email, auth, now, upsert);
              View() == r.view && sent == r.sent
    {
      sent := None;
      if !configured {
        alerts := alerts + [NotConfiguredAlert];
        return;
      }
      if nome == "" || telefone == "" {
        alerts := alerts + [MissingFieldsAlert];
        return;
      }
      loading := true;
      match auth {
        case NoUser =>
          route := Some(LoginRoute);
        case AuthThrew =>
          alerts := alerts + [FailedAlert];
        case Authenticated(uid) =>
          var row := ContactRow(uid, nome, telefone, if email == "" then None else Some(email), now);
          sent := Some(row);
          if upsert.UpsertOk? {
            alerts := alerts + [SavedAlert];
            route := Some(SettingsRoute);
          } else {
            alerts := alerts + [FailedAlert];
          }
      }
      loading := false;
    }
  }
}
