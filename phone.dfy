/** The phone-number normaliser of the WhatsApp dispatcher: keep the digits,
    then put the number in the Indonesian international form "62...". */
module Phone {

  const CountryCode: string := "62"

  /** `\d` of a JavaScript regular expression without the `u` flag: ASCII digits. */
  predicate IsDigit(c: char) {
    '0' <= c <= '9'
  }

  predicate AllDigits(s: string) {
    forall i :: 0 <= i < |s| ==> IsDigit(s[i])
  }

  /** The form every normalised number has: digits only, beginning with the country code. */
  predicate Canonical(s: string) {
    AllDigits(s) && |s| >= |CountryCode| && s[..|CountryCode|] == CountryCode
  }

  /** `phoneNumber.replace(/\D/g, "")`: drop every character that is not a digit. */
  function StripNonDigits(s: string): (r: string)
    ensures AllDigits(r)
    ensures |r| <= |s|
  {
    if s == [] then []
    else (if IsDigit(s[0]) then [s[0]] else []) + StripNonDigits(s[1..])
  }

  /** Stripping keeps every digit, as often as it occurs, and no other character. */
  lemma {:induction false} StripCounts(s: string, c: char)
    ensures multiset(StripNonDigits(s))[c] == if IsDigit(c) then multiset(s)[c] else 0
  {
    if s != [] {
      assert s == [s[0]] + s[1..];
      StripCounts(s[1..], c);
    }
  }

  /** Stripping is a homomorphism: the digits of the pieces, in order. */
  lemma {:induction false} StripAppend(a: string, b: string)
    ensures StripNonDigits(a + b) == StripNonDigits(a) + StripNonDigits(b)
  {
    if a == [] {
      assert a + b == b;
    } else {
      assert (a + b)[0] == a[0];
      assert (a + b)[1..] == a[1..] + b;
      StripAppend(a[1..], b);
    }
  }

  /** A string of digits only is left as it is by stripping. */
  lemma {:induction false} StripKeepsDigits(s: string)
    requires AllDigits(s)
    ensures StripNonDigits(s) == s
  {
    if s != [] {
      assert IsDigit(s[0]);
      assert AllDigits(s[1..]) by {
        forall i | 0 <= i < |s[1..]| ensures IsDigit(s[1..][i]) {
          assert s[1..][i] == s[i + 1];
        }
      }
      StripKeepsDigits(s[1..]);
      assert s == [s[0]] + s[1..];
    }
  }

  /** backend/functions/index.js:25-30: the target the dispatcher sends to. */
  function Normalize(raw: string): (r: string)
    ensures Canonical(r)
  {
    var d := StripNonDigits(raw);
    if |d| >= 1 && d[0] == '0' then CountryCode + d[1..]
    else if |d| >= |CountryCode| && d[..|CountryCode|] == CountryCode then d
    else CountryCode + d
  }

  /** The three cases of the normaliser, stated on the digits of the input:
      a leading 0 becomes the country code, a number already carrying it is kept,
      any other digit string (the empty one included) gets it prepended. In
      every case the digits after the country code are the input's digits,
      less a leading 0 or an existing country code. */
  lemma NormalizeCases(raw: string)
    ensures var d := StripNonDigits(raw);
      && (|d| >= 1 && d[0] == '0' ==> Normalize(raw) == CountryCode + d[1..])
      && (|d| >= 2 && d[..2] == CountryCode ==> Normalize(raw) == d)
      && (!(|d| >= 1 && d[0] == '0') && !(|d| >= 2 && d[..2] == CountryCode) ==>
            Normalize(raw) == CountryCode + d)
      && |Normalize(raw)| == 2 + |d| - (if |d| >= 1 && d[0] == '0' then 1
                                         else if |d| >= 2 && d[..2] == CountryCode then 2
                                         else 0)
  {
  }

  /** A number already in canonical form is a fixed point of the normaliser. */
  lemma CanonicalIsFixed(s: string)
    requires Canonical(s)
    ensures Normalize(s) == s
  {
    StripKeepsDigits(s);
    assert s[0] == '6';
  }

  /** Normalising twice is normalising once. */
  lemma NormalizeIdempotent(raw: string)
    ensures Normalize(Normalize(raw)) == Normalize(raw)
  {
    CanonicalIsFixed(Normalize(raw));
  }

  /** A number is canonical exactly when the normaliser leaves it unchanged. */
  lemma CanonicalIffFixed(s: string)
    ensures Canonical(s) <==> Normalize(s) == s
  {
    if Canonical(s) {
      CanonicalIsFixed(s);
    }
  }

  /** A string without digits strips to nothing. */
  lemma {:induction false} StripNoDigits(s: string)
    requires forall i :: 0 <= i < |s| ==> !IsDigit(s[i])
    ensures StripNonDigits(s) == []
  {
    if s != [] {
      assert !IsDigit(s[0]);
      assert forall i :: 0 <= i < |s[1..]| ==> !IsDigit(s[1..][i]) by {
        forall i | 0 <= i < |s[1..]| ensures !IsDigit(s[1..][i]) {
          assert s[1..][i] == s[i + 1];
        }
      }
      StripNoDigits(s[1..]);
    }
  }

  /** Separators and a leading "+" do not matter: only the digits decide. */
  lemma NormalizeIgnoresSeparators(a: string, sep: string, b: string)
    requires forall i :: 0 <= i < |sep| ==> !IsDigit(sep[i])
    ensures Normalize(a + sep + b) == Normalize(a + b)
  {
    StripAppend(a + sep, b);
    StripAppend(a, sep);
    StripAppend(a, b);
    StripNoDigits(sep);
    assert StripNonDigits(a + sep + b) == StripNonDigits(a + b);
  }

  /** Worked examples: a leading 0, a bare subscriber number, an already
      canonical number, and the empty input. */
  lemma NormalizeExamples()
    ensures Normalize("08123") == "628123"
    ensures Normalize("8123") == "628123"
    ensures Normalize("628123") == "628123"
    ensures Normalize("") == "62"
  {
    StripKeepsDigits("08123");
    assert "08123"[0] == '0' && "08123"[1..] == "8123";
    StripKeepsDigits("8123");
    assert "8123"[0] != '0' && "8123"[..2] != CountryCode;
    CanonicalIsFixed("628123");
  }

  /** Worked example: a number written with "+", a space and a dash. */
  lemma NormalizeFormattedExample()
    ensures Normalize("+62 812-3") == "628123"
  {
    var d := StripNonDigits("+62 812-3");
    assert d == "628123";
    assert d[0] != '0' && d[..2] == CountryCode;
  }
}
