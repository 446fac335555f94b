/** Character classes, trimming and decimal digit strings, with the meaning
    JavaScript gives them in index.js: `trim()`, the regex classes `\s` and
    `[0-9]`, and `parseInt` on a digit string. */
module Text {

  /** ECMAScript WhiteSpace and LineTerminator code points. `String.prototype.trim`
      strips exactly these, and the regex class `\s` matches exactly these. */
  predicate IsWhitespace(c: char) {
    || ('\t' <= c <= '\r')   // U+0009 .. U+000D
    || c == ' '
    || c == '\U{00A0}'
    || c == '\U{1680}'
    || ('\U{2000}' <= c <= '\U{200A}')
    || c == '\U{2028}'
    || c == '\U{2029}'
    || c == '\U{202F}'
    || c == '\U{205F}'
    || c == '\U{3000}'
    || c == '\U{FEFF}'
  }

  /** The regex class `[0-9]`: ASCII digits only. */
  predicate IsDigit(c: char) {
    '0' <= c <= '9'
  }

  /** The regex class `[A-Z]`: ASCII capital letters only. */
  predicate IsUpper(c: char) {
    'A' <= c <= 'Z'
  }

  predicate AllDigits(s: string) {
    forall k :: 0 <= k < |s| ==> IsDigit(s[k])
  }

  predicate AllWhitespace(s: string) {
    forall k :: 0 <= k < |s| ==> IsWhitespace(s[k])
  }

  /** Every character is the digit zero (vacuously true of the empty string). */
  predicate AllZeros(s: string) {
    forall k :: 0 <= k < |s| ==> s[k] == '0'
  }

  lemma DigitIsNotWhitespace(c: char)
    requires IsDigit(c)
    ensures !IsWhitespace(c)
  {
  }

  // ---------------------------------------------------------------- trimming

  /** The first index at or after `i` that holds no whitespace (or |s|). */
  function SkipLeading(s: string, i: nat): (k: nat)
    requires i <= |s|
    ensures i <= k <= |s|
    ensures forall m :: i <= m < k ==> IsWhitespace(s[m])
    ensures k < |s| ==> !IsWhitespace(s[k])
    decreases |s| - i
  {
    if i < |s| && IsWhitespace(s[i]) then SkipLeading(s, i + 1) else i
  }

  /** The smallest index k in [lo, j] such that s[k..j] is all whitespace. */
  function SkipTrailing(s: string, lo: nat, j: nat): (k: nat)
    requires lo <= j <= |s|
    ensures lo <= k <= j
    ensures forall m :: k <= m < j ==> IsWhitespace(s[m])
    ensures k > lo ==> !IsWhitespace(s[k - 1])
    decreases j
  {
    if j > lo && IsWhitespace(s[j - 1]) then SkipTrailing(s, lo, j - 1) else j
  }

  /** `String.prototype.trim`: the string with leading and trailing whitespace removed.
      What that means is stated by `TrimSlice`. */
  function Trim(s: string): (r: string)
    ensures r == [] <==> AllWhitespace(s)
  {
    var i := SkipLeading(s, 0);
    var j := SkipTrailing(s, i, |s|);
    assert i < |s| ==> j > i;
    s[i..j]
  }

  /** The trimmed string is a slice of the input whose cut-off ends are all
      whitespace and whose own ends are not, which determines it uniquely. */
  lemma TrimSlice(s: string)
    ensures exists i, j :: 0 <= i <= j <= |s| && Trim(s) == s[i..j]
                           && (forall m :: 0 <= m < i ==> IsWhitespace(s[m]))
                           && (forall m :: j <= m < |s| ==> IsWhitespace(s[m]))
    ensures Trim(s) == [] || (!IsWhitespace(Trim(s)[0]) && !IsWhitespace(Trim(s)[|Trim(s)| - 1]))
  {
    var i := SkipLeading(s, 0);
    var j := SkipTrailing(s, i, |s|);
    assert i < |s| ==> j > i;
    assert Trim(s) == s[i..j];
  }

  /** A string that neither starts nor ends with whitespace is its own trim. */
  lemma TrimUnpadded(s: string)
    requires s == [] || (!IsWhitespace(s[0]) && !IsWhitespace(s[|s| - 1]))
    ensures Trim(s) == s
  {
    var r := Trim(s);
    TrimSlice(s);
    var i, j :| 0 <= i <= j <= |s| && r == s[i..j]
                && (forall m :: 0 <= m < i ==> IsWhitespace(s[m]))
                && (forall m :: j <= m < |s| ==> IsWhitespace(s[m]));
    if s != [] {
      assert i == 0;
      assert j == |s|;
    }
  }

  /** Trimming twice is trimming once. */
  lemma TrimIdempotent(s: string)
    ensures Trim(Trim(s)) == Trim(s)
  {
    TrimUnpadded(Trim(s));
  }

  /** A digit string is its own trim. */
  lemma TrimDigits(s: string)
    requires AllDigits(s)
    ensures Trim(s) == s
  {
    if s != [] {
      DigitIsNotWhitespace(s[0]);
      DigitIsNotWhitespace(s[|s| - 1]);
    }
    TrimUnpadded(s);
  }

  // ---------------------------------------------------------- decimal numbers

  function DigitValue(c: char): (d: nat)
    requires IsDigit(c)
    ensures d < 10
  {
    c as int - '0' as int
  }

  function DigitChar(d: nat): (c: char)
    requires d < 10
    ensures IsDigit(c) && DigitValue(c) == d
  {
    (d + '0' as int) as char
  }

  /** `parseInt` of a string of ASCII digits: its base-10 value. Leading zeros are
      allowed and the value is zero exactly when every digit is zero. */
  function DecimalValue(s: string): (n: nat)
    requires AllDigits(s)
    ensures n == 0 <==> AllZeros(s)
    decreases |s|
  {
    if s == [] then 0
    else
      var init := s[..|s| - 1];
      assert forall k :: 0 <= k < |init| ==> init[k] == s[k];
      10 * DecimalValue(init) + DigitValue(s[|s| - 1])
  }

  /** The canonical base-10 spelling of n: no leading zero unless n is 0. */
  function ToDecimal(n: nat): (s: string)
    ensures |s| > 0 && AllDigits(s)
    ensures n > 0 ==> s[0] != '0'
    ensures n == 0 ==> s == "0"
    decreases n
  {
    if n < 10 then [DigitChar(n)] else ToDecimal(n / 10) + [DigitChar(n % 10)]
  }

  /** Reading back the canonical spelling gives the number. */
  lemma {:induction false} DecimalOfToDecimal(n: nat)
    ensures DecimalValue(ToDecimal(n)) == n
    decreases n
  {
    var s := ToDecimal(n);
    if n >= 10 {
      DecimalOfToDecimal(n / 10);
      assert s[..|s| - 1] == ToDecimal(n / 10);
    }
  }

  /** A digit string with no leading zero is the canonical spelling of its value. */
  lemma {:induction false} ToDecimalOfDecimal(s: string)
    requires |s| > 0 && AllDigits(s) && s[0] != '0'
    ensures ToDecimal(DecimalValue(s)) == s
    decreases |s|
  {
    if |s| > 1 {
      var init := s[..|s| - 1];
      assert forall k :: 0 <= k < |init| ==> init[k] == s[k];
      assert init[0] != '0';
      ToDecimalOfDecimal(init);
      var v := DecimalValue(init);
      assert v > 0;
      var n := DecimalValue(s);
      assert n == 10 * v + DigitValue(s[|s| - 1]);
      assert n / 10 == v && n % 10 == DigitValue(s[|s| - 1]);
      assert ToDecimal(n) == ToDecimal(v) + [DigitChar(n % 10)];
      assert DigitChar(DigitValue(s[|s| - 1])) == s[|s| - 1];
      assert s == init + [s[|s| - 1]];
    } else {
      assert DigitChar(DigitValue(s[0])) == s[0];
    }
  }

  /** Every value has its canonical spelling read back, stated for all values at once. */
  lemma DecimalOfEveryDecimal()
    ensures forall n: nat :: DecimalValue(ToDecimal(n)) == n
  {
    forall n: nat ensures DecimalValue(ToDecimal(n)) == n {
      DecimalOfToDecimal(n);
    }
  }

  /** z zero digits. */
  function Zeros(z: nat): (s: string)
    ensures |s| == z && AllZeros(s)
    decreases z
  {
    if z == 0 then [] else "0" + Zeros(z - 1)
  }

  /** A leading zero does not change the value of a digit string. */
  lemma {:induction false} LeadingZero(t: string)
    requires AllDigits(t)
    ensures AllDigits("0" + t) && DecimalValue("0" + t) == DecimalValue(t)
    decreases |t|
  {
    var s := "0" + t;
    assert forall k :: 0 < k < |s| ==> s[k] == t[k - 1];
    if t != [] {
      var init := t[..|t| - 1];
      assert forall k :: 0 <= k < |init| ==> init[k] == t[k];
      LeadingZero(init);
      assert s[..|s| - 1] == "0" + init;
    }
  }

  /** Any number of leading zeros leaves the value unchanged. */
  lemma {:induction false} LeadingZeros(z: nat, t: string)
    requires AllDigits(t)
    ensures AllDigits(Zeros(z) + t) && DecimalValue(Zeros(z) + t) == DecimalValue(t)
    decreases z
  {
    if z > 0 {
      LeadingZeros(z - 1, t);
      assert Zeros(z) + t == "0" + (Zeros(z - 1) + t);
      LeadingZero(Zeros(z - 1) + t);
    } else {
      assert Zeros(z) + t == t;
    }
  }

  /** Every non-empty digit string is the canonical spelling of a number after
      some leading zeros. */
  lemma {:induction false} PaddedDecimal(t: string) returns (z: nat, n: nat)
    requires |t| > 0 && AllDigits(t)
    ensures t == Zeros(z) + ToDecimal(n)
    decreases |t|
  {
    if t[0] != '0' {
      ToDecimalOfDecimal(t);
      z, n := 0, DecimalValue(t);
    } else if |t| == 1 {
      z, n := 0, 0;
    } else {
      var rest := t[1..];
      assert forall k :: 0 <= k < |rest| ==> rest[k] == t[k + 1];
      var z', n' := PaddedDecimal(rest);
      z, n := z' + 1, n';
      assert t == "0" + rest;
    }
  }
}
