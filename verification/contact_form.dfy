/**
 * The trusted-person form of src/app/contact/page.tsx: the e-mail pattern
 * `^[^\s@]+@[^\s@]+\.[^\s@]+$`, the per-field errors computed on submit, and
 * the field update that clears a field's error as the user types.
 */
module ContactPage {
  import opened Text

  const NameRequired := "Nome é obrigatório"
  const EmailRequired := "E-mail é obrigatório"
  const EmailInvalid := "E-mail inválido"
  const PhoneRequired := "Telefone é obrigatório"
  const SuccessAlert := "Pessoa de confiança cadastrada com sucesso."
  const CheckInRoute := "/checkin"

  /** `[^\s@]`: any character but whitespace and '@'. */
  predicate EmailChar(c: char)
  {
    !IsSpace(c) && c != '@'
  }

  /**
   * The pattern matches `s` with its '@' at index `i` and the literal '.' at
   * index `j`: three non-empty runs of `[^\s@]` around them.
   */
  predicate MatchesAt(s: string, i: int, j: int)
  {
    && 0 < i && i + 1 < j && j + 1 < |s|
    && s[i] == '@' && s[j] == '.'
    && forall k :: 0 <= k < |s| && k != i ==> EmailChar(s[k])
  }

  /** `validateEmail(email)`: the regular expression accepts the whole string. */
  predicate ValidateEmail(email: string)
  {
    exists i, j | 0 <= i < |email| && 0 <= j < |email| :: MatchesAt(email, i, j)
  }

  lemma ValidateEmailMatches(s: string)
    ensures ValidateEmail(s) <==> exists i, j :: MatchesAt(s, i, j)
  {
  }

  /** How many times `c` occurs in `s`. */
  function Count(s: string, c: char): (n: nat)
    ensures n <= |s|
  {
    if s == [] then 0 else (if s[0] == c then 1 else 0) + Count(s[1..], c)
  }

  /** `c` occurs at index `i` and nowhere else. */
  predicate OnlyAt(s: string, c: char, i: int)
  {
    0 <= i < |s| && s[i] == c && forall k :: 0 <= k < |s| && s[k] == c ==> k == i
  }

  lemma {:induction false} CountNone(s: string, c: char)
    ensures Count(s, c) == 0 <==> forall k :: 0 <= k < |s| ==> s[k] != c
    decreases |s|
  {
    if s != [] {
      CountNone(s[1..], c);
      assert forall k :: 1 <= k < |s| ==> s[k] == s[1..][k - 1];
    }
  }

  /** `c` occurs exactly once in `s` iff there is an index it occurs at and at no other. */
  lemma {:induction false} CountOne(s: string, c: char)
    ensures Count(s, c) == 1 <==> exists i :: OnlyAt(s, c, i)
    decreases |s|
  {
    if s != [] {
      var t := s[1..];
      assert forall k :: 1 <= k < |s| ==> s[k] == t[k - 1];
      CountOne(t, c);
      CountNone(t, c);
      if s[0] == c {
        if Count(s, c) == 1 {
          assert OnlyAt(s, c, 0);
        } else {
          var k :| 0 <= k < |t| && t[k] == c;
          assert s[0] == c && s[k + 1] == c;
        }
      } else {
        if Count(t, c) == 1 {
          var i :| OnlyAt(t, c, i);
          assert OnlyAt(s, c, i + 1);
        } else {
          forall i | 1 <= i < |s|
            ensures OnlyAt(s, c, i) ==> OnlyAt(t, c, i - 1)
          {
          }
        }
      }
    }
  }

  predicate NoWhitespace(s: string)
  {
    forall k :: 0 <= k < |s| ==> !IsSpace(s[k])
  }

  /** An '@' at `i` and a '.' at `j` with at least one character before, between and after. */
  predicate AtThenDot(s: string, i: int, j: int)
  {
    0 < i && i + 1 < j && j + 1 < |s| && s[i] == '@' && s[j] == '.'
  }

  /**
   * What the pattern means: no whitespace, exactly one '@', something before
   * it, and after it a '.' with something on each side.
   */
  lemma ValidateEmailIff(s: string)
    ensures ValidateEmail(s) <==>
              NoWhitespace(s) && Count(s, '@') == 1 && exists i, j :: AtThenDot(s, i, j)
  {
    CountOne(s, '@');
    ValidateEmailMatches(s);
    if ValidateEmail(s) {
      var i, j :| MatchesAt(s, i, j);
      assert AtThenDot(s, i, j);
      assert OnlyAt(s, '@', i);
    }
    if NoWhitespace(s) && Count(s, '@') == 1 && exists i, j :: AtThenDot(s, i, j) {
      var i, j :| AtThenDot(s, i, j);
      var i' :| OnlyAt(s, '@', i');
      assert i' == i;
      assert MatchesAt(s, i, j);
    }
  }

  /** An accepted address is never blank. */
  lemma ValidEmailIsNotBlank(s: string)
    requires ValidateEmail(s)
    ensures !AllSpace(s) && Trim(s) != ""
  {
    ValidateEmailMatches(s);
    var i, j :| MatchesAt(s, i, j);
    assert !IsSpace(s[i]);
  }

  datatype Field = Name | Email | Phone

  datatype FormData = FormData(name: string, email: string, phone: string)
  {
    function Get(f: Field): string
    {
      match f
      case Name => name
      case Email => email
      case Phone => phone
    }

    function Set(f: Field, value: string): (r: FormData)
      ensures r.Get(f) == value
      ensures forall g :: g != f ==> r.Get(g) == Get(g)
    {
      match f
      case Name => this.(name := value)
      case Email => this.(email := value)
      case Phone => this.(phone := value)
    }
  }

  /** The three error strings; "" means no error. */
  datatype Errors = Errors(name: string, email: string, phone: string)
  {
    function Get(f: Field): string
    {
      match f
      case Name => name
      case Email => email
      case Phone => phone
    }

    function Clear(f: Field): (r: Errors)
      ensures r.Get(f) == ""
      ensures forall g :: g != f ==> r.Get(g) == Get(g)
    {
      match f
      case Name => this.(name := "")
      case Email => this.(email := "")
      case Phone => this.(phone := "")
    }

    predicate Any()
    {
      name != "" || email != "" || phone != ""
    }
  }

  /** The errors a submit shows for `form`; nothing of the previous errors survives. */
  function SubmitErrors(form: FormData): (e: Errors)
    ensures e.name == (if AllSpace(form.name) then NameRequired else "")
    ensures e.phone == (if AllSpace(form.phone) then PhoneRequired else "")
    // a blank e-mail is "required"; otherwise the untrimmed value must match the pattern
    ensures e.email == (if AllSpace(form.email) then EmailRequired
                        else if ValidateEmail(form.email) then "" else EmailInvalid)
  {
    Errors(
      if Trim(form.name) == "" then NameRequired else "",
      if Trim(form.email) == "" then EmailRequired
      else if !ValidateEmail(form.email) then EmailInvalid else "",
      if Trim(form.phone) == "" then PhoneRequired else "")
  }

  /** A submit succeeds exactly for a non-blank name and phone and a well-formed e-mail. */
  lemma SubmitSucceedsIff(form: FormData)
    ensures !SubmitErrors(form).Any() <==>
              !AllSpace(form.name) && !AllSpace(form.phone) && ValidateEmail(form.email)
  {
    if ValidateEmail(form.email) {
      ValidEmailIsNotBlank(form.email);
    }
  }

  /** An e-mail padded with spaces is not blank, yet the untrimmed value is rejected. */
  lemma PaddedEmailIsInvalid(form: FormData)
    requires !AllSpace(form.email) && |form.email| > 0 && IsSpace(form.email[0])
    ensures SubmitErrors(form).email == EmailInvalid
  {
    ValidateEmailMatches(form.email);
  }

  class Page {
    var form: FormData
    var errors: Errors
    var route: Option<string>
    var alerts: seq<string>

    constructor ()
      ensures form == FormData("", "", "") && errors == Errors("", "", "")
      ensures route == None && alerts == []
    {
      form := FormData("", "", "");
      errors := Errors("", "", "");
      route := None;
      alerts := [];
    }

    /** `handleSubmit`: recompute every error; with none, alert and go to the check-in page. */
    method HandleSubmit()
      modifies this
      ensures form == old(form)
      ensures errors == SubmitErrors(form)
      ensures !errors.Any() ==> route == Some(CheckInRoute) && alerts == old(alerts) + [SuccessAlert]
      ensures errors.Any() ==> route == old(route) && alerts == old(alerts)
    {
      var newErrors := Errors("", "", "");
      var hasError := false;
      if Trim(form.name) == "" {
        newErrors := newErrors.(name := NameRequired);
        hasError := true;
      }
      if Trim(form.email) == "" {
        newErrors := newErrors.(email := EmailRequired);
        hasError := true;
      } else if !ValidateEmail(form.email) {
        newErrors := newErrors.(email := EmailInvalid);
        hasError := true;
      }
      if Trim(form.phone) == "" {
        newErrors := newErrors.(phone := PhoneRequired);
        hasError := true;
      }
      assert newErrors == SubmitErrors(form);
      errors := newErrors;
      if !hasError {
        alerts := alerts + [SuccessAlert];
        route := Some(CheckInRoute);
      }
    }

    /** `handleChange`: store the typed value and clear that field's error if it was set. */
    method HandleChange(field: Field, value: string)
      modifies this
      ensures form == old(form).Set(field, value)
      ensures errors == old(errors).Clear(field)
      ensures route == old(route) && alerts == old(alerts)
    {
      form := form.Set(field, value);
      if errors.Get(field) != "" {
        errors := errors.Clear(field);
      }
    }
  }
}
