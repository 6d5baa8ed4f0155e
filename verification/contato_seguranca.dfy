/**
 * The trusted-contact form (src/app/contato-seguranca/page.tsx): the phone
 * field is re-masked on every keystroke, and submitting looks the signed-in
 * user's contact up in the `contatos_seguranca` table, then updates it or
 * inserts a new one. The table is a map keyed by user id; each backend call
 * is an outcome supplied by the caller.
 */
module ContatoSeguranca {
  import opened Text
  import PhoneMask

  type UserId = string

  /** The form's fields, as the page keeps them in `formData`. */
  datatype ContactForm = ContactForm(nome: string, email: string, telefone: string)

  /** A row of `contatos_seguranca`; an inserted row leaves `updated_at` to the table's default (`None`). */
  datatype ContactRow = ContactRow(nome: string, email: string, telefone: string, updatedAt: Option<int>)

  /** What the look-up of an existing contact returned. */
  datatype SelectOutcome =
    | SelectOk      // the answer reflects the table
    | SelectFailed  // the call returned an error: `existingContact` is null
    | SelectThrew   // the call raised

  /** What the update or insert returned. */
  datatype WriteOutcome = WriteOk | WriteFailed | WriteThrew

  datatype SaveResult = SaveResult(rows: map<UserId, ContactRow>, success: bool)

  /** Whether `handleSubmit` takes the update branch: the look-up answered and found a row. */
  predicate FindsExisting(rows: map<UserId, ContactRow>, uid: UserId, select: SelectOutcome)
  {
    select.SelectOk? && uid in rows
  }

  /** The effect of one submit on the table, and whether the success message is shown. */
  function Save(rows: map<UserId, ContactRow>, userId: Option<UserId>, form: ContactForm, now: int,
                select: SelectOutcome, write: WriteOutcome): (r: SaveResult)
    // without a signed-in user (`!userId`: null or "") nothing happens
    ensures !Truthy(userId) ==> r == SaveResult(rows, false)
    // success exactly when a write was issued and went through
    ensures r.success <==> Truthy(userId) && !select.SelectThrew? && write.WriteOk?
    // a failed or skipped save leaves the table alone
    ensures !r.success ==> r.rows == rows
    // other users' contacts are never touched
    ensures Truthy(userId) ==> forall u :: u != userId.value ==>
              (u in r.rows <==> u in rows) && (u in rows ==> r.rows[u] == rows[u])
    // after a successful save the user's contact holds what the form holds
    ensures r.success ==> userId.value in r.rows
    ensures r.success ==> var row := r.rows[userId.value];
              row.nome == form.nome && row.email == form.email && row.telefone == form.telefone
    // an update stamps the time, an insert leaves it to the table
    ensures r.success ==>
              r.rows[userId.value].updatedAt ==
              (if FindsExisting(rows, userId.value, select) then Some(now) else None)
  {
    if !Truthy(userId) then SaveResult(rows, false)
    else
      var uid := userId.value;
      if select.SelectThrew? || !write.WriteOk? then SaveResult(rows, false)
      else if FindsExisting(rows, uid, select) then
        SaveResult(rows[uid := rows[uid].(nome := form.nome, email := form.email,
                                          telefone := form.telefone, updatedAt := Some(now))], true)
      else
        SaveResult(rows[uid := ContactRow(form.nome, form.email, form.telefone, None)], true)
  }

  /** For a signed-in user, saving the same form twice leaves the user's contact with the form's values and the later time. */
  lemma SaveTwice(rows: map<UserId, ContactRow>, uid: UserId, form: ContactForm, t1: int, t2: int)
    requires uid != ""
    ensures var once := Save(rows, Some(uid), form, t1, SelectOk, WriteOk);
            var twice := Save(once.rows, Some(uid), form, t2, SelectOk, WriteOk);
            twice.rows == rows[uid := ContactRow(form.nome, form.email, form.telefone, Some(t2))]
  {
  }

  /** The `contatos_seguranca` table. */
  class ContactsTable {
    var rows: map<UserId, ContactRow>

    constructor (initial: map<UserId, ContactRow>)
      ensures rows == initial
    {
      rows := initial;
    }
  }

  /** The page's state: the signed-in user, the form, and the two flags `handleSubmit` drives. */
  class Page {
    var userId: Option<UserId>
    var form: ContactForm
    var saving: bool
    var successMessage: bool

    constructor ()
      ensures userId == None && form == ContactForm("", "", "") && !saving && !successMessage
    {
      userId := None;
      form := ContactForm("", "", "");
      saving := false;
      successMessage := false;
    }

    /** `handlePhoneChange`: the phone field takes the masked value; nothing else changes. */
    method HandlePhoneChange(value: string)
      modifies this
      ensures form == old(form).(telefone := PhoneMask.FormatPhone(value))
      ensures PhoneMask.IsMasked(form.telefone) && |form.telefone| <= PhoneMask.MaxMaskedLength
      ensures userId == old(userId) && saving == old(saving) && successMessage == old(successMessage)
    {
      form := form.(telefone := PhoneMask.FormatPhone(value));
    }

    /** `handleSubmit`: look up the user's contact, then update it or insert one. */
    method HandleSubmit(table: ContactsTable, now: int, select: SelectOutcome, write: WriteOutcome)
      modifies this, table
      ensures !Truthy(userId) ==> unchanged(this) && unchanged(table)
      ensures Truthy(userId) ==>
                var r := Save(old(table.rows), userId, form, now, select, write);
                && table.rows == r.rows
                && successMessage == r.success
                && !saving
      ensures userId == old(userId) && form == old(form)
    {
      if !Truthy(userId) {
        return;
      }
      var uid := userId.value;
      saving := true;
      successMessage := false;
      if select.SelectThrew? {
        saving := false;
        return;
      }
      var existing := select.SelectOk? && uid in table.rows;
      if existing {
        if !write.WriteOk? {
          saving := false;
          return;
        }
        var row := table.rows[uid];
        table.rows := table.rows[uid := row.(nome := form.nome, email := form.email,
                                             telefone := form.telefone, updatedAt := Some(now))];
      } else {
        if !write.WriteOk? {
          saving := false;
          return;
        }
        table.rows := table.rows[uid := ContactRow(form.nome, form.email, form.telefone, None)];
      }
      successMessage := true;
      saving := false;
    }
  }
}
