/** Decimal text of 32-bit integers: `int.TryParse(string, out int)` with the
    invariant culture (NumberStyles.Integer) and `int.ToString()`. */
module Decimal {
  import opened Errors

  type Int32 = x: int | -0x8000_0000 <= x < 0x8000_0000

  /** A C# `ushort`. */
  type UShort = x: int | 0 <= x < 0x1_0000

  predicate IsDigit(c: char) { '0' <= c <= '9' }

  /** The white space NumberStyles.AllowLeadingWhite and AllowTrailingWhite skip:
      U+0009 to U+000D and U+0020. */
  predicate IsWhite(c: char) { c == ' ' || '\t' <= c <= '\r' }

  predicate AllDigits(s: string) { forall i :: 0 <= i < |s| ==> IsDigit(s[i]) }

  predicate AllWhite(s: string) { forall i :: 0 <= i < |s| ==> IsWhite(s[i]) }

  predicate AllNul(s: string) { forall i :: 0 <= i < |s| ==> s[i] == '\0' }

  /** The number of white-space characters `s` starts with. */
  function LeadingWhite(s: string): (n: nat)
    ensures n <= |s| && AllWhite(s[..n])
    ensures n < |s| ==> !IsWhite(s[n])
  {
    if |s| == 0 || !IsWhite(s[0]) then 0
    else
      var n := 1 + LeadingWhite(s[1..]);
      assert forall i :: 1 <= i < n ==> s[..n][i] == s[1..][..n - 1][i - 1];
      n
  }

  /** The number of decimal digits `s` starts with. */
  function LeadingDigits(s: string): (n: nat)
    ensures n <= |s| && AllDigits(s[..n])
    ensures n < |s| ==> !IsDigit(s[n])
  {
    if |s| == 0 || !IsDigit(s[0]) then 0
    else
      var n := 1 + LeadingDigits(s[1..]);
      assert forall i :: 1 <= i < n ==> s[..n][i] == s[1..][..n - 1][i - 1];
      n
  }

  function DigitValue(c: char): nat
    requires IsDigit(c)
  {
    c as int - '0' as int
  }

  function DigitChar(d: nat): (c: char)
    requires d < 10
    ensures IsDigit(c) && DigitValue(c) == d
  {
    ('0' as int + d) as char
  }

  /** The number a run of digits denotes, most significant first. */
  function DigitsValue(ds: string): nat
    requires AllDigits(ds)
  {
    if |ds| == 0 then 0 else DigitsValue(ds[..|ds| - 1]) * 10 + DigitValue(ds[|ds| - 1])
  }

  predicate IsSign(c: char) { c == '-' || c == '+' }

  /** The part after the sign: at least one digit, optional white space, then only
      NUL characters (.NET accepts trailing NULs). */
  function ParseMagnitude(u: string): Option<nat>
  {
    var d := LeadingDigits(u);
    var rest := u[d..];
    if d == 0 || !AllNul(rest[LeadingWhite(rest)..]) then None else Some(DigitsValue(u[..d]))
  }

  /** `int.TryParse`: optional white space, an optional sign, then the magnitude.
      A value outside the 32-bit range fails. */
  function ParseInt32(s: string): (r: Option<Int32>)
  {
    var t := s[LeadingWhite(s)..];
    var u := if |t| > 0 && IsSign(t[0]) then t[1..] else t;
    match ParseMagnitude(u)
    case None => None
    case Some(m) =>
      var v: int := if |t| > 0 && t[0] == '-' then -(m as int) else m;
      if -0x8000_0000 <= v < 0x8000_0000 then Some(v) else None
  }

  /** The digits of `n`, most significant first, without leading zeros. */
  function NatDigits(n: nat): (ds: string)
    ensures |ds| > 0 && AllDigits(ds)
  {
    if n < 10 then [DigitChar(n)] else NatDigits(n / 10) + [DigitChar(n % 10)]
  }

  /** `int.ToString()` with the invariant culture. */
  function FormatInt(n: int): (s: string)
    ensures |s| > 0 && (s[0] == '-' || IsDigit(s[0]))
    ensures n >= 0 ==> AllDigits(s)
    ensures n < 0 ==> s[0] == '-' && AllDigits(s[1..])
  {
    if n < 0 then "-" + NatDigits(-n) else NatDigits(n)
  }

  lemma {:induction false} NatDigitsValue(n: nat)
    ensures DigitsValue(NatDigits(n)) == n
  {
    if n >= 10 {
      var ds := NatDigits(n);
      assert ds[..|ds| - 1] == NatDigits(n / 10);
      NatDigitsValue(n / 10);
    }
  }

  lemma LeadingWhiteOfWhitePrefix(w: string, t: string)
    requires AllWhite(w)
    requires |t| > 0 ==> !IsWhite(t[0])
    ensures LeadingWhite(w + t) == |w|
  {
    if |w| > 0 {
      assert (w + t)[1..] == w[1..] + t;
      LeadingWhiteOfWhitePrefix(w[1..], t);
    } else {
      assert w + t == t;
    }
  }

  lemma LeadingDigitsOfDigitPrefix(ds: string, t: string)
    requires AllDigits(ds)
    requires |t| > 0 ==> !IsDigit(t[0])
    ensures LeadingDigits(ds + t) == |ds|
  {
    if |ds| > 0 {
      assert (ds + t)[1..] == ds[1..] + t;
      LeadingDigitsOfDigitPrefix(ds[1..], t);
    } else {
      assert ds + t == t;
    }
  }

  lemma MagnitudeOfDigits(ds: string, after: string)
    requires |ds| > 0 && AllDigits(ds) && AllWhite(after)
    ensures ParseMagnitude(ds + after) == Some(DigitsValue(ds))
  {
    var u := ds + after;
    LeadingDigitsOfDigitPrefix(ds, after);
    assert u[..|ds|] == ds && u[|ds|..] == after;
    LeadingWhiteOfWhitePrefix(after, "");
    assert after + "" == after;
  }

  /** Leading white space does not change what `int.TryParse` reads. */
  lemma ParseAfterWhite(before: string, t: string)
    requires AllWhite(before) && |t| > 0 && !IsWhite(t[0])
    ensures ParseInt32(before + t) == ParseInt32(t)
  {
    LeadingWhiteOfWhitePrefix(before, t);
    LeadingWhiteOfWhitePrefix("", t);
    assert "" + t == t;
    assert (before + t)[|before|..] == t;
  }

  /** `int.ToString` of a negative number is a minus sign and the digits of its
      magnitude; of any other number just the digits. */
  lemma FormatIntSplit(n: int, after: string)
    ensures n < 0 ==> (FormatInt(n) + after)[0] == '-' && (FormatInt(n) + after)[1..] == NatDigits(-n) + after
    ensures n >= 0 ==> !IsSign((FormatInt(n) + after)[0]) && FormatInt(n) + after == NatDigits(n) + after
  {
    if n < 0 {
      assert FormatInt(n) + after == "-" + (NatDigits(-n) + after);
    }
  }

  lemma ParseFormattedThenWhite(n: Int32, after: string)
    requires AllWhite(after)
    ensures ParseInt32(FormatInt(n) + after) == Some(n)
  {
    var t := FormatInt(n) + after;
    var m: nat := if n < 0 then -(n as int) else n;
    var u := if |t| > 0 && IsSign(t[0]) then t[1..] else t;
    assert LeadingWhite(t) == 0 && t[0..] == t;
    assert u == NatDigits(m) + after by {
      FormatIntSplit(n, after);
    }
    assert ParseMagnitude(u) == Some(m) by {
      MagnitudeOfDigits(NatDigits(m), after);
      NatDigitsValue(m);
    }
    assert (t[0] == '-') == (n < 0);
  }

  /** `int.TryParse` reads back what `int.ToString` writes, also with white space
      around it. */
  lemma ParseFormatted(n: Int32, before: string, after: string)
    requires AllWhite(before) && AllWhite(after)
    ensures ParseInt32(before + FormatInt(n) + after) == Some(n)
  {
    assert before + FormatInt(n) + after == before + (FormatInt(n) + after);
    ParseAfterWhite(before, FormatInt(n) + after);
    ParseFormattedThenWhite(n, after);
  }

  /** `int.ToString` followed by `int.TryParse` is the identity. */
  lemma ParseFormat(n: Int32)
    ensures ParseInt32(FormatInt(n)) == Some(n)
  {
    ParseFormatted(n, "", "");
    assert "" + FormatInt(n) + "" == FormatInt(n);
  }

  /** The characters a parsed integer can consist of. */
  predicate IsNumberChar(c: char) { IsWhite(c) || IsSign(c) || IsDigit(c) || c == '\0' }

  lemma MagnitudeChars(u: string)
    requires ParseMagnitude(u).Some?
    ensures forall k :: 0 <= k < |u| ==> IsNumberChar(u[k])
  {
    var d := LeadingDigits(u);
    var rest := u[d..];
    var b := LeadingWhite(rest);
    forall k | 0 <= k < |u| ensures IsNumberChar(u[k]) {
      if k < d {
        assert u[..d][k] == u[k];
      } else if k < d + b {
        assert rest[..b][k - d] == u[k];
      } else {
        assert rest[b..][k - d - b] == u[k];
      }
    }
  }

  /** Every character of a text `int.TryParse` accepts is white space, a sign, a
      digit or NUL. */
  lemma ParsedChars(s: string)
    requires ParseInt32(s).Some?
    ensures forall k :: 0 <= k < |s| ==> IsNumberChar(s[k])
  {
    var a := LeadingWhite(s);
    var t := s[a..];
    var u := if |t| > 0 && IsSign(t[0]) then t[1..] else t;
    MagnitudeChars(u);
    forall k | 0 <= k < |s| ensures IsNumberChar(s[k]) {
      if k < a {
        assert s[..a][k] == s[k];
      } else if |t| > 0 && IsSign(t[0]) && k > a {
        assert u[k - a - 1] == s[k];
      } else if k > a || !(|t| > 0 && IsSign(t[0])) {
        assert u[k - a] == s[k];
      }
    }
  }

  /** No text holding a comma is an integer. */
  lemma ParseRejectsComma(s: string)
    requires ',' in s
    ensures ParseInt32(s) == None
  {
    if ParseInt32(s).Some? {
      ParsedChars(s);
    }
  }
}
