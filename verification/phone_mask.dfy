/**
 * The Brazilian phone mask `(XX) XXXXX-XXXX` applied by the trusted-contact
 * form as the user types (`formatPhone` in src/app/contato-seguranca/page.tsx).
 * The input is reduced to its ASCII digits, and the digits are laid into the
 * mask according to how many there are; digits past the eleventh are dropped.
 */
module PhoneMask {
  import opened Text

  /** The full mask; '#' marks a digit position. Its length is the input field's maxLength. */
  const Template: string := "(##) #####-####"
  const MaxMaskedLength: nat := 15
  const MaxDigits: nat := 11

  function Min(a: int, b: int): int
  {
    if a <= b then a else b
  }

  /** `value.replace(/\D/g, '')`: every non-digit is removed, every digit kept in order. */
  function Digits(s: string): (r: string)
    ensures |r| <= |s|
  {
    if s == [] then []
    else (if IsDigit(s[0]) then [s[0]] else []) + Digits(s[1..])
  }

  lemma {:induction false} DigitsAreDigits(s: string)
    ensures AllDigits(Digits(s))
    decreases |s|
  {
    if s != [] {
      DigitsAreDigits(s[1..]);
    }
  }

  /** Each digit occurs in `Digits(s)` as often as in `s`; no other character occurs. */
  lemma {:induction false} DigitsKeepsExactlyTheDigits(s: string)
    ensures forall c :: multiset(Digits(s))[c] == if IsDigit(c) then multiset(s)[c] else 0
    decreases |s|
  {
    if s != [] {
      DigitsKeepsExactlyTheDigits(s[1..]);
      assert s == [s[0]] + s[1..];
    }
  }

  lemma {:induction false} DigitsAppend(a: string, b: string)
    ensures Digits(a + b) == Digits(a) + Digits(b)
    decreases |a|
  {
    if a == [] {
      assert a + b == b;
    } else {
      var h := if IsDigit(a[0]) then [a[0]] else [];
      var ab := a + b;
      assert ab[0] == a[0] && ab[1..] == a[1..] + b;
      assert Digits(ab) == h + Digits(a[1..] + b);
      DigitsAppend(a[1..], b);
      assert Digits(a) == h + Digits(a[1..]);
      assert h + (Digits(a[1..]) + Digits(b)) == (h + Digits(a[1..])) + Digits(b);
    }
  }

  lemma {:induction false} DigitsOfDigits(s: string)
    requires AllDigits(s)
    ensures Digits(s) == s
    decreases |s|
  {
    if s != [] {
      DigitsOfDigits(s[1..]);
    }
  }

  /** No character of `s` is a digit. */
  predicate NoDigits(s: string)
  {
    forall i :: 0 <= i < |s| ==> !IsDigit(s[i])
  }

  lemma {:induction false} DigitsOfPunctuation(s: string)
    requires NoDigits(s)
    ensures Digits(s) == []
    decreases |s|
  {
    if s != [] {
      DigitsOfPunctuation(s[1..]);
    }
  }

  /** The mask laid over a string of digits: the if-chain of `formatPhone`. */
  function Mask(n: string): string
  {
    if |n| <= 2 then n
    else if |n| <= 7 then "(" + n[..2] + ") " + n[2..]
    else if |n| <= 11 then "(" + n[..2] + ") " + n[2..7] + "-" + n[7..]
    else "(" + n[..2] + ") " + n[2..7] + "-" + n[7..11]
  }

  /** `s` agrees with the mask position by position, as far as it goes. */
  predicate FitsTemplate(s: string)
  {
    |s| <= |Template| &&
    forall i :: 0 <= i < |s| ==> if Template[i] == '#' then IsDigit(s[i]) else s[i] == Template[i]
  }

  /**
   * The strings the mask can produce: up to two bare digits, or a prefix of
   * the template that ends in a digit (lengths 6..10 before the hyphen,
   * 12..15 after it).
   */
  predicate IsMasked(s: string)
  {
    || (|s| <= 2 && AllDigits(s))
    || (FitsTemplate(s) && (6 <= |s| <= 10 || 12 <= |s| <= 15))
  }

  /** Length of the mask's output for `k` digits. */
  function MaskedLength(k: nat): nat
  {
    if k <= 2 then k else if k <= 7 then k + 3 else Min(k, MaxDigits) + 4
  }

  /** Up to seven digits: "(dd) " and then the rest, each at its template position. */
  lemma ShortMaskFitsTemplate(n: string)
    requires AllDigits(n) && 2 < |n| <= 7
    ensures FitsTemplate(Mask(n)) && |Mask(n)| == |n| + 3
  {
    var r := Mask(n);
    assert Template == ['(', '#', '#', ')', ' ', '#', '#', '#', '#', '#', '-', '#', '#', '#', '#'];
    forall i | 0 <= i < |r|
      ensures if Template[i] == '#' then IsDigit(r[i]) else r[i] == Template[i]
    {
      if 0 < i < 3 {
        assert r[i] == n[i - 1];
      } else if 5 <= i {
        assert r[i] == n[i - 3];
      }
    }
  }

  /** Eight or more digits: the hyphen after the seventh, and at most eleven digits. */
  lemma LongMaskFitsTemplate(n: string)
    requires AllDigits(n) && 7 < |n|
    ensures FitsTemplate(Mask(n)) && |Mask(n)| == Min(|n|, MaxDigits) + 4
  {
    var r := Mask(n);
    assert Template == ['(', '#', '#', ')', ' ', '#', '#', '#', '#', '#', '-', '#', '#', '#', '#'];
    forall i | 0 <= i < |r|
      ensures if Template[i] == '#' then IsDigit(r[i]) else r[i] == Template[i]
    {
      if 0 < i < 3 {
        assert r[i] == n[i - 1];
      } else if 5 <= i < 10 {
        assert r[i] == n[i - 3];
      } else if i > 10 {
        assert r[i] == n[i - 4];
      }
    }
  }

  /** The punctuation and digits of the mask's output sit where the template puts them. */
  lemma MaskFitsTemplate(n: string)
    requires AllDigits(n)
    ensures IsMasked(Mask(n))
    ensures |Mask(n)| == MaskedLength(|n|)
  {
    if 2 < |n| <= 7 {
      ShortMaskFitsTemplate(n);
    } else if 7 < |n| {
      LongMaskFitsTemplate(n);
    }
  }

  lemma PunctuationThenDigits(p: string, d: string)
    requires NoDigits(p)
    requires AllDigits(d)
    ensures Digits(p + d) == d
  {
    DigitsAppend(p, d);
    DigitsOfPunctuation(p);
    DigitsOfDigits(d);
  }

  lemma DigitsOfShortMask(n: string)
    requires AllDigits(n) && 2 < |n| <= 7
    ensures Digits(Mask(n)) == n
  {
    var a, b := "(" + n[..2], ") " + n[2..];
    assert Mask(n) == a + b;
    PunctuationThenDigits("(", n[..2]);
    PunctuationThenDigits(") ", n[2..]);
    DigitsAppend(a, b);
    assert n[..2] + n[2..] == n;
  }

  lemma DigitsOfLongMask(n: string)
    requires AllDigits(n) && 7 < |n|
    ensures Digits(Mask(n)) == n[..Min(|n|, MaxDigits)]
  {
    var k := Min(|n|, MaxDigits);
    var a, b, c := "(" + n[..2], ") " + n[2..7], "-" + n[7..k];
    assert Mask(n) == (a + b) + c;
    PunctuationThenDigits("(", n[..2]);
    PunctuationThenDigits(") ", n[2..7]);
    PunctuationThenDigits("-", n[7..k]);
    DigitsAppend(a, b);
    DigitsAppend(a + b, c);
    assert n[..2] + n[2..7] + n[7..k] == n[..k];
  }

  /** The digits of the mask's output are the first eleven digits of its input. */
  lemma MaskKeepsDigits(n: string)
    requires AllDigits(n)
    ensures Digits(Mask(n)) == n[..Min(|n|, MaxDigits)]
  {
    if |n| <= 2 {
      DigitsOfDigits(n);
      assert n[..|n|] == n;
    } else if |n| <= 7 {
      DigitsOfShortMask(n);
      assert n[..|n|] == n;
    } else {
      DigitsOfLongMask(n);
    }
  }

  /** `formatPhone(value)`. */
  function FormatPhone(value: string): (r: string)
    ensures |r| <= MaxMaskedLength
    ensures |r| == MaskedLength(|Digits(value)|)
    ensures IsMasked(r)
    ensures Digits(r) == Digits(value)[..Min(|Digits(value)|, MaxDigits)]
  {
    DigitsAreDigits(value);
    MaskFitsTemplate(Digits(value));
    MaskKeepsDigits(Digits(value));
    Mask(Digits(value))
  }

  /** What fitting the template says, position by position. */
  lemma TemplatePositions(s: string)
    requires FitsTemplate(s) && |s| >= 5
    ensures s[0] == '(' && IsDigit(s[1]) && IsDigit(s[2]) && s[3] == ')' && s[4] == ' '
    ensures AllDigits(s[5..Min(|s|, 10)])
    ensures |s| > 10 ==> s[10] == '-' && AllDigits(s[11..])
  {
    assert Template == ['(', '#', '#', ')', ' ', '#', '#', '#', '#', '#', '-', '#', '#', '#', '#'];
    assert forall i :: 5 <= i < |s| && i != 10 ==> IsDigit(s[i]);
  }

  /** One step of `Digits` taken at position `i` of `s`. */
  lemma DigitsSkip(s: string, i: nat)
    requires i < |s|
    ensures Digits(s[i..]) == (if IsDigit(s[i]) then [s[i]] else []) + Digits(s[i + 1..])
  {
    assert s[i..][0] == s[i];
    assert s[i..][1..] == s[i + 1..];
  }

  /** The digits of "(dd) " followed by more text. */
  lemma DigitsAfterAreaCode(s: string)
    requires |s| >= 5 && !IsDigit(s[0]) && IsDigit(s[1]) && IsDigit(s[2]) && !IsDigit(s[3]) && !IsDigit(s[4])
    ensures Digits(s) == s[1..3] + Digits(s[5..])
  {
    DigitsSkip(s, 0);
    DigitsSkip(s, 1);
    DigitsSkip(s, 2);
    DigitsSkip(s, 3);
    DigitsSkip(s, 4);
    assert s[0..] == s;
    assert s[1..3] == [s[1], s[2]];
  }

  /** The digits of the subscriber part "ddddd-dddd": the digit runs without the hyphen. */
  lemma DigitsOfSubscriber(t: string)
    requires |t| >= 7 && AllDigits(t[..5]) && !IsDigit(t[5]) && AllDigits(t[6..])
    ensures Digits(t) == t[..5] + t[6..]
  {
    var d := t[..5];
    assert IsDigit(d[0]) && IsDigit(d[1]) && IsDigit(d[2]) && IsDigit(d[3]) && IsDigit(d[4]);
    DigitsSkip(t, 0);
    DigitsSkip(t, 1);
    DigitsSkip(t, 2);
    DigitsSkip(t, 3);
    DigitsSkip(t, 4);
    DigitsSkip(t, 5);
    assert t[0..] == t;
    assert d == [t[0], t[1], t[2], t[3], t[4]];
    DigitsOfDigits(t[6..]);
  }

  /** Cutting a masked string before the hyphen: its area code and subscriber digits rebuild it. */
  lemma ShortMaskRebuilds(s: string)
    requires 6 <= |s| <= 10 && s[..1] == "(" && s[3..5] == ") "
    ensures Mask(s[1..3] + s[5..]) == s
  {
    var n := s[1..3] + s[5..];
    assert n[..2] == s[1..3] && n[2..] == s[5..];
    assert s == s[..1] + s[1..3] + s[3..5] + s[5..];
  }

  /** A masked string past the hyphen: its three digit runs rebuild it. */
  lemma LongMaskRebuilds(s: string)
    requires 12 <= |s| <= 15 && s[..1] == "(" && s[3..5] == ") " && s[10..11] == "-"
    ensures Mask(s[1..3] + s[5..10] + s[11..]) == s
  {
    var n := s[1..3] + s[5..10] + s[11..];
    assert n[..2] == s[1..3] && n[2..7] == s[5..10] && n[7..] == s[11..];
    assert s == s[..1] + s[1..3] + s[3..5] + s[5..10] + s[10..11] + s[11..];
  }

  /** A masked string cut off before the hyphen is the mask of its digits. */
  lemma ShortMaskedIsFixpoint(s: string)
    requires 6 <= |s| <= 10 && s[..1] == "(" && s[3..5] == ") "
    requires IsDigit(s[1]) && IsDigit(s[2]) && AllDigits(s[5..])
    ensures Mask(Digits(s)) == s
  {
    assert !IsDigit(s[0]) && !IsDigit(s[3]) && !IsDigit(s[4]);
    DigitsAfterAreaCode(s);
    DigitsOfDigits(s[5..]);
    ShortMaskRebuilds(s);
  }

  /** A masked string that reaches past the hyphen is the mask of its digits. */
  lemma LongMaskedIsFixpoint(s: string)
    requires 12 <= |s| <= 15 && s[..1] == "(" && s[3..5] == ") " && s[10..11] == "-"
    requires IsDigit(s[1]) && IsDigit(s[2]) && AllDigits(s[5..10]) && AllDigits(s[11..])
    ensures Mask(Digits(s)) == s
  {
    assert !IsDigit(s[0]) && !IsDigit(s[3]) && !IsDigit(s[4]);
    var t := s[5..];
    assert t[..5] == s[5..10] && t[6..] == s[11..] && t[5] == s[10] && !IsDigit(s[10]);
    DigitsAfterAreaCode(s);
    DigitsOfSubscriber(t);
    LongMaskRebuilds(s);
  }

  /** Every string the mask can produce is left unchanged by `formatPhone`. */
  lemma MaskedIsFixpoint(s: string)
    requires IsMasked(s)
    ensures FormatPhone(s) == s
  {
    if |s| <= 2 && AllDigits(s) {
      DigitsOfDigits(s);
    } else {
      TemplatePositions(s);
      assert s[..1] == "(" && s[3..5] == ") ";
      if |s| <= 10 {
        ShortMaskedIsFixpoint(s);
      } else {
        assert s[10..11] == "-";
        LongMaskedIsFixpoint(s);
      }
    }
  }

  /** Formatting an already formatted phone changes nothing. */
  lemma FormatPhoneIdempotent(value: string)
    ensures FormatPhone(FormatPhone(value)) == FormatPhone(value)
  {
    MaskedIsFixpoint(FormatPhone(value));
  }
}
