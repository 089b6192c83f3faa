/**
 * The frontend's phone helpers: validation after removing whitespace, and
 * formatting to the display form `+51 9XX XXX XXX`.
 */
module AuthService {
  import opened Common
  import opened Sms

  /** `/^(\+51\s?)?9\d{8}$/`: the optional group gives two alternatives. */
  const WithCountryCode: seq<Token> := [Lit('+'), Lit('5'), Lit('1'), OptSpace, Lit('9')] + Digits(8)
  const WithoutCountryCode: seq<Token> := [Lit('9')] + Digits(8)

  /** `validatePeruvianPhone(phone)`: the pattern matched against the phone with all whitespace removed. */
  predicate FrontValidPhone(phone: string)
  {
    var s := StripSpaces(phone);
    Match(s, WithCountryCode) || Match(s, WithoutCountryCode)
  }

  /** Nine digits, the first a `9`. */
  predicate MobileDigits(m: string)
  {
    |m| == 9 && m[0] == '9' && forall i :: 0 <= i < 9 ==> IsDigit(m[i])
  }

  /** What the pattern accepts: after removing whitespace, an optional `+51`, then `9`, then eight digits. */
  lemma FrontValidMeaning(phone: string)
    ensures FrontValidPhone(phone) <==>
      (MobileDigits(StripSpaces(phone))
       || (|StripSpaces(phone)| == 12 && StripSpaces(phone)[..3] == "+51" && MobileDigits(StripSpaces(phone)[3..])))
  {
    var s := StripSpaces(phone);
    ErasedPatterns();
    MatchSpaceless(s, WithCountryCode);
    MatchSpaceless(s, WithoutCountryCode);
    var q := Erase(WithCountryCode);
    if |s| == 12 && s[..3] == "+51" && MobileDigits(s[3..]) {
      assert s[0] == '+' && s[1] == '5' && s[2] == '1';
      assert forall i :: 3 <= i < 12 ==> s[i] == s[3..][i - 3];
    }
    if |s| == 12 && forall i :: 0 <= i < 12 ==> Accepts(q[i], s[i]) {
      assert s[..3] == [s[0], s[1], s[2]];
      assert forall i :: 0 <= i < 9 ==> s[3..][i] == s[i + 3];
    }
  }

  lemma ErasedPatterns()
    ensures Erase(WithCountryCode) == [Lit('+'), Lit('5'), Lit('1'), Lit('9')] + Digits(8)
    ensures Erase(WithoutCountryCode) == WithoutCountryCode
  {
    var pre := [Lit('+'), Lit('5'), Lit('1'), OptSpace, Lit('9')];
    EraseConcat(pre, Digits(8));
    EraseDigits(8);
    assert Erase(pre) == [Lit('+'), Lit('5'), Lit('1'), Lit('9')] by {
      assert pre[1..][1..][1..] == [OptSpace, Lit('9')];
    }
    EraseConcat([Lit('9')], Digits(8));
  }

  /** Inserting whitespace anywhere does not change the verdict. */
  lemma WhitespaceDoesNotMatter(a: string, b: string, c: char)
    requires IsSpace(c)
    ensures FrontValidPhone(a + [c] + b) == FrontValidPhone(a + b)
  {
    StripSpacesConcat(a + [c], b);
    StripSpacesConcat(a, [c]);
    StripSpacesConcat(a, b);
    assert StripSpaces([c]) == [] by { assert [c][1..] == []; }
    assert StripSpaces(a + [c] + b) == StripSpaces(a + b);
  }

  // ---------------------------------------------------------------------------
  // formatPeruvianPhone

  /** The display form of nine mobile digits. */
  function Display(m: string): (r: string)
    requires |m| == 9
    ensures |r| == 15
  {
    "+51 " + m[..3] + " " + m[3..6] + " " + m[6..]
  }

  /** `formatPeruvianPhone(phone)`: regrouped from the digits when they start with `51` or `9`, else unchanged. */
  function FormatPeruvianPhone(phone: string): (r: string)
    ensures var d := DigitsOnly(phone); StartsWith(d, "51") && |d| == 11 ==> r == Display(d[2..])
    ensures var d := DigitsOnly(phone); !StartsWith(d, "51") && StartsWith(d, "9") && |d| == 9 ==> r == Display(d)
    ensures var d := DigitsOnly(phone); StartsWith(d, "51") || StartsWith(d, "9") ==> StartsWith(r, "+51 ")
    ensures var d := DigitsOnly(phone); !StartsWith(d, "51") && !StartsWith(d, "9") ==> r == phone
  {
    var d := DigitsOnly(phone);
    if StartsWith(d, "51") then "+51 " + JsSlice(d, 2, 5) + " " + JsSlice(d, 5, 8) + " " + JsSlice(d, 8, |d|)
    else if StartsWith(d, "9") then "+51 " + JsSlice(d, 0, 3) + " " + JsSlice(d, 3, 6) + " " + JsSlice(d, 6, |d|)
    else phone
  }

  /** Whitespace is not a digit, so removing it first does not change the digits. */
  lemma {:induction false} DigitsIgnoreSpaces(s: string)
    ensures DigitsOnly(StripSpaces(s)) == DigitsOnly(s)
  {
    if s != [] {
      DigitsIgnoreSpaces(s[1..]);
      if !IsSpace(s[0]) {
        DigitsOnlyConcat([s[0]], StripSpaces(s[1..]));
      }
    }
  }

  /** Digit groups separated by single spaces lose only the spaces. */
  lemma DigitsOfGroups(x: string, y: string, z: string)
    requires forall i :: 0 <= i < |x| ==> IsDigit(x[i])
    requires forall i :: 0 <= i < |y| ==> IsDigit(y[i])
    requires forall i :: 0 <= i < |z| ==> IsDigit(z[i])
    ensures DigitsOnly(x + " " + y + " " + z) == x + y + z
  {
    DigitsSkipSpace(x + " " + y, z);
    DigitsSkipSpace(x, y);
    DigitsOnlyNoop(x);
    DigitsOnlyNoop(y);
    DigitsOnlyNoop(z);
  }

  lemma DigitsSkipSpace(a: string, b: string)
    ensures DigitsOnly(a + " " + b) == DigitsOnly(a) + DigitsOnly(b)
  {
    DigitsOnlyConcat(a + " ", b);
    DigitsOnlyConcat(a, " ");
    assert DigitsOnly(" ") == [];
  }

  /** The digits of the display form are `51` and the nine mobile digits. */
  lemma DisplayDigits(m: string)
    requires MobileDigits(m)
    ensures DigitsOnly(Display(m)) == "51" + m
  {
    var x, y, z := m[..3], m[3..6], m[6..];
    assert Display(m) == "+51 " + (x + " " + y + " " + z);
    DigitsOnlyConcat("+51 ", x + " " + y + " " + z);
    DigitsOfGroups(x, y, z);
    assert DigitsOnly("+51 ") == "51" by {
      assert "+51 "[1..] == "51 ";
      assert "51 "[1..] == "1 ";
      assert "1 "[1..] == " ";
      assert DigitsOnly(" ") == [];
    }
    assert x + y + z == m;
  }

  /** The digits of an accepted phone: the mobile digits, preceded by `51` when the country code was written. */
  lemma AcceptedDigits(phone: string) returns (m: string)
    requires FrontValidPhone(phone)
    ensures MobileDigits(m)
    ensures DigitsOnly(phone) == m || DigitsOnly(phone) == "51" + m
  {
    FrontValidMeaning(phone);
    var s := StripSpaces(phone);
    DigitsIgnoreSpaces(phone);
    if MobileDigits(s) {
      m := s;
      DigitsOnlyNoop(s);
    } else {
      m := s[3..];
      assert s == "+51" + m;
      DigitsOnlyConcat("+51", m);
      DigitsOnlyNoop(m);
      assert DigitsOnly("+51") == "51" by {
        assert "+51"[1..] == "51";
        assert "51"[1..] == "1";
      }
    }
  }

  /** An accepted phone formats to the display form of its mobile digits. */
  lemma FormatAccepted(phone: string) returns (m: string)
    requires FrontValidPhone(phone)
    ensures MobileDigits(m) && FormatPeruvianPhone(phone) == Display(m)
  {
    m := AcceptedDigits(phone);
    var d := DigitsOnly(phone);
    if d == "51" + m {
      assert StartsWith(d, "51");
      assert d[2..] == m;
    } else {
      assert !StartsWith(d, "51") by { assert d[0] == '9'; }
      assert StartsWith(d, "9");
    }
  }

  /** Formatting an accepted phone gives a number the backend accepts. */
  lemma FormattedIsBackendValid(phone: string)
    requires FrontValidPhone(phone)
    ensures ValidPeruvianPhone(FormatPeruvianPhone(phone))
  {
    var m := FormatAccepted(phone);
    assert Display(m) == "+51 " + m[..3] + " " + m[3..6] + " " + m[6..];
    SpacedFormIsValid(m[..3], m[3..6], m[6..]);
  }

  /** Formatting is idempotent on accepted phones. */
  lemma FormatIdempotent(phone: string)
    requires FrontValidPhone(phone)
    ensures FormatPeruvianPhone(FormatPeruvianPhone(phone)) == FormatPeruvianPhone(phone)
  {
    var m := FormatAccepted(phone);
    DisplayDigits(m);
    var d := DigitsOnly(Display(m));
    assert StartsWith(d, "51");
    assert d[2..] == m;
  }

  /** Every phone the backend accepts the frontend accepts too. */
  lemma BackendValidIsFrontValid(phone: string)
    requires ValidPeruvianPhone(phone)
    ensures FrontValidPhone(phone)
  {
    NormalisedPhoneIsCanonical(phone);
    var s := StripSpaces(phone);
    assert CanonicalPhone(s);
    FrontValidMeaning(phone);
    assert s[..3] == s[..4][..3];
    assert forall i :: 0 <= i < 9 ==> s[3..][i] == s[i + 3];
  }
}
