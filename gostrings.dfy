/**
 * The two Go library routines the consumer applies to the `timeout` query
 * parameter: `strings.TrimSpace` and `strconv.Atoi` (on a 64-bit `int`).
 * `FormatInt` is the decimal formatter used as Atoi's inverse.
 */
module GoStrings {
  import opened Wrappers

  /** Go's `unicode.IsSpace`: the Latin-1 spaces and the other White_Space code points. */
  predicate IsSpace(c: char) {
    || ('\t' <= c <= '\r')
    || c == ' '
    || c == '\U{85}'
    || c == '\U{A0}'
    || c == '\U{1680}'
    || ('\U{2000}' <= c <= '\U{200A}')
    || c == '\U{2028}'
    || c == '\U{2029}'
    || c == '\U{202F}'
    || c == '\U{205F}'
    || c == '\U{3000}'
  }

  predicate AllSpace(s: string) {
    forall i :: 0 <= i < |s| ==> IsSpace(s[i])
  }

  /** The index of the first non-space character at or after `i`, or `|s|`. */
  function SpanStart(s: string, i: nat): (k: nat)
    requires i <= |s|
    ensures i <= k <= |s|
    ensures forall j :: i <= j < k ==> IsSpace(s[j])
    ensures k < |s| ==> !IsSpace(s[k])
    decreases |s| - i
  {
    if i < |s| && IsSpace(s[i]) then SpanStart(s, i + 1) else i
  }

  /** The index just past the last non-space character in `s[lo..j]`, or `lo`. */
  function SpanStop(s: string, lo: nat, j: nat): (k: nat)
    requires lo <= j <= |s|
    ensures lo <= k <= j
    ensures forall m :: k <= m < j ==> IsSpace(s[m])
    ensures k > lo ==> !IsSpace(s[k - 1])
    decreases j
  {
    if j > lo && IsSpace(s[j - 1]) then SpanStop(s, lo, j - 1) else j
  }

  /**
   * `strings.TrimSpace`: the result is the stretch of `s` between an
   * all-space prefix and an all-space suffix, and it neither starts nor
   * ends with a space; it is empty exactly when `s` is all space.
   */
  function TrimSpace(s: string): (r: string)
    ensures |r| <= |s|
    ensures r == [] <==> AllSpace(s)
    ensures r == [] || (!IsSpace(r[0]) && !IsSpace(r[|r| - 1]))
    ensures var start := SpanStart(s, 0);
      && start + |r| <= |s|
      && r == s[start..start + |r|]
      && (forall j :: 0 <= j < start ==> IsSpace(s[j]))
      && (forall j :: start + |r| <= j < |s| ==> IsSpace(s[j]))
  {
    var start := SpanStart(s, 0);
    var stop := SpanStop(s, start, |s|);
    s[start..stop]
  }

  /** TrimSpace strips exactly the padding around a word that has no space at either end. */
  lemma TrimSpacePadded(pre: string, word: string, post: string)
    requires AllSpace(pre) && AllSpace(post)
    requires word == [] || (!IsSpace(word[0]) && !IsSpace(word[|word| - 1]))
    ensures TrimSpace(pre + word + post) == word
  {
    var s := pre + word + post;
    if word == [] {
      assert AllSpace(s);
    } else {
      var start := SpanStart(s, 0);
      assert s[|pre|] == word[0];
      assert start == |pre|;
      var stop := SpanStop(s, start, |s|);
      assert s[|pre| + |word| - 1] == word[|word| - 1];
      assert stop == |pre| + |word|;
      assert s[start..stop] == word;
    }
  }

  predicate IsDigit(c: char) {
    '0' <= c <= '9'
  }

  predicate AllDigits(s: string) {
    forall i :: 0 <= i < |s| ==> IsDigit(s[i])
  }

  function DigitValue(c: char): (d: nat)
    requires IsDigit(c)
    ensures d < 10
  {
    c as int - '0' as int
  }

  function DigitChar(d: nat): (c: char)
    requires d < 10
    ensures IsDigit(c) && DigitValue(c) == d
  {
    ('0' as int + d) as char
  }

  /** The value of a run of decimal digits, most significant first. */
  function DecimalValue(ds: string): nat
    requires AllDigits(ds)
  {
    if ds == [] then 0 else DecimalValue(ds[..|ds| - 1]) * 10 + DigitValue(ds[|ds| - 1])
  }

  /** The range of Go's 64-bit `int`. */
  const IntMin: int := -0x8000_0000_0000_0000
  const IntMax: int := 0x7FFF_FFFF_FFFF_FFFF

  /** The digits after an optional leading sign. */
  function Unsigned(s: string): string {
    if |s| > 0 && (s[0] == '+' || s[0] == '-') then s[1..] else s
  }

  /**
   * `strconv.Atoi`: an optional `+` or `-` followed by one or more ASCII
   * digits, whose value fits a 64-bit `int`; anything else is an error.
   */
  function Atoi(s: string): (r: Option<int>)
    ensures s == [] ==> r == None
    ensures r.Some? ==> IntMin <= r.value <= IntMax
    ensures r.Some? ==> forall i :: 0 < i < |s| ==> IsDigit(s[i])
    ensures r.Some? ==> IsDigit(s[0]) || ((s[0] == '+' || s[0] == '-') && |s| > 1)
    ensures r.Some? && r.value < 0 ==> s[0] == '-'
  {
    var ds := Unsigned(s);
    if ds == [] || !AllDigits(ds) then
      None
    else
      var n: int := if s[0] == '-' then 0 - DecimalValue(ds) else DecimalValue(ds);
      if IntMin <= n <= IntMax then Some(n) else None
  }

  /** The shortest decimal digits of `n`. */
  function Digits(n: nat): (ds: string)
    ensures |ds| > 0 && AllDigits(ds)
    ensures IsDigit(ds[0]) && (|ds| > 1 ==> ds[0] != '0')
  {
    if n < 10 then [DigitChar(n)] else Digits(n / 10) + [DigitChar(n % 10)]
  }

  /** The decimal text of `n`, with a `-` for negatives (Go's `strconv.Itoa`). */
  function FormatInt(n: int): (s: string)
    ensures |s| > 0
  {
    if n < 0 then "-" + Digits(-n) else Digits(n)
  }

  lemma {:induction false} DecimalValueOfDigits(n: nat)
    ensures DecimalValue(Digits(n)) == n
  {
    var ds := Digits(n);
    if n >= 10 {
      assert ds[..|ds| - 1] == Digits(n / 10);
      DecimalValueOfDigits(n / 10);
    }
  }

  /** Atoi reads back every 64-bit integer that FormatInt writes. */
  lemma AtoiFormatInt(n: int)
    requires IntMin <= n <= IntMax
    ensures Atoi(FormatInt(n)) == Some(n)
  {
    if n < 0 {
      DecimalValueOfDigits(-n);
      assert Unsigned(FormatInt(n)) == Digits(-n);
    } else {
      DecimalValueOfDigits(n);
    }
  }

  lemma {:induction false} DecimalValueLeadingZero(ds: string)
    requires AllDigits(ds)
    ensures AllDigits("0" + ds) && DecimalValue("0" + ds) == DecimalValue(ds)
  {
    if ds != [] {
      assert ("0" + ds)[..|ds|] == "0" + ds[..|ds| - 1];
      DecimalValueLeadingZero(ds[..|ds| - 1]);
    }
  }

  /** Leading zeros do not change what Atoi reads. */
  lemma AtoiLeadingZero(ds: string)
    requires ds != [] && AllDigits(ds)
    ensures Atoi("0" + ds) == Atoi(ds)
  {
    DecimalValueLeadingZero(ds);
  }

  /**
   * What Atoi accepts and what it is worth: a run of digits read as a
   * decimal number, with an optional `+` that changes nothing or a `-` that
   * negates it, provided the result fits a 64-bit `int`.
   */
  lemma AtoiSigned(ds: string)
    requires ds != [] && AllDigits(ds)
    ensures Atoi(ds) == if DecimalValue(ds) <= IntMax then Some(DecimalValue(ds)) else None
    ensures Atoi("+" + ds) == Atoi(ds)
    ensures Atoi("-" + ds) == if DecimalValue(ds) <= -IntMin then Some(0 - DecimalValue(ds)) else None
  {
    assert Unsigned("+" + ds) == ds;
    assert Unsigned("-" + ds) == ds;
  }

  /** Leading zeros after a `-` do not change what Atoi reads either. */
  lemma AtoiMinusLeadingZero(ds: string)
    requires ds != [] && AllDigits(ds)
    ensures Atoi("-0" + ds) == Atoi("-" + ds)
  {
    DecimalValueLeadingZero(ds);
    assert "-0" + ds == "-" + ("0" + ds);
    AtoiSigned("0" + ds);
    AtoiSigned(ds);
  }

  /** Zero with either sign is zero. */
  lemma AtoiSignedZero()
    ensures Atoi("+0") == Some(0) && Atoi("-0") == Some(0)
  {
    AtoiSigned("0");
  }

  /** A character that is neither a digit nor a sign anywhere in `s` makes Atoi fail. */
  lemma AtoiRejectsForeign(s: string, i: nat)
    requires i < |s| && !IsDigit(s[i]) && s[i] != '+' && s[i] != '-'
    ensures Atoi(s) == None
  {
  }

  /** Atoi fails on a value outside the 64-bit range, even though its text is well formed. */
  lemma AtoiRejectsOutOfRange(n: int)
    requires n < IntMin || IntMax < n
    ensures Atoi(FormatInt(n)) == None
  {
    var s := FormatInt(n);
    if Atoi(s).Some? {
      if n < 0 {
        assert Unsigned(s) == Digits(-n);
        DecimalValueOfDigits(-n);
      } else {
        DecimalValueOfDigits(n);
      }
    }
  }
}
