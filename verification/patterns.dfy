/** The five regular expressions of index.js as direct positional tests (what the
    validator runs). The phone and postal-code patterns are also written as the
    language the regex denotes, built from its concatenation structure, with a
    lemma tying each pair; the positive-integer pattern is tied to the canonical
    decimal spellings. The whole-number and province-code patterns are simple
    enough to be written once. */
module Patterns {
  import opened Text

  // --------------------------------------------- phone: ^([0-9]{3}-?){2}[0-9]{4}$

  /** Ten ASCII digits, with an optional '-' after the third and after the sixth. */
  predicate IsPhone(s: string) {
    || (|s| == 10 && AllDigits(s))
    || (|s| == 11 && s[3] == '-' && AllDigits(s[..3]) && AllDigits(s[4..]))
    || (|s| == 11 && s[6] == '-' && AllDigits(s[..6]) && AllDigits(s[7..]))
    || (|s| == 12 && s[3] == '-' && s[7] == '-'
        && AllDigits(s[..3]) && AllDigits(s[4..7]) && AllDigits(s[8..]))
  }

  /** One repetition of the group `[0-9]{3}-?`. */
  ghost predicate PhoneGroup(g: string) {
    (|g| == 3 || (|g| == 4 && g[3] == '-')) && AllDigits(g[..3])
  }

  /** The strings `([0-9]{3}-?){2}[0-9]{4}` denotes. */
  ghost predicate PhoneLanguage(s: string) {
    exists g1, g2, tail :: s == g1 + g2 + tail
                           && PhoneGroup(g1) && PhoneGroup(g2) && |tail| == 4 && AllDigits(tail)
  }

  lemma PhoneLanguageIsPhone(g1: string, g2: string, tail: string)
    requires PhoneGroup(g1) && PhoneGroup(g2) && |tail| == 4 && AllDigits(tail)
    ensures IsPhone(g1 + g2 + tail)
  {
    var s := g1 + g2 + tail;
    assert forall k :: 0 <= k < |g1| ==> s[k] == g1[k];
    assert forall k :: 0 <= k < |g2| ==> s[|g1| + k] == g2[k];
    assert forall k :: 0 <= k < 4 ==> s[|g1| + |g2| + k] == tail[k];
    assert s[..3] == g1[..3];
    assert s[|g1|..|g1| + 3] == g2[..3];
    assert s[|g1| + |g2|..] == tail;
  }

  /** A phone string with the optional dashes as given splits into two groups and a
      four-digit tail. */
  lemma PhoneSplit(s: string, dash1: bool, dash2: bool)
    requires |s| == 10 + (if dash1 then 1 else 0) + (if dash2 then 1 else 0)
    requires dash1 ==> s[3] == '-'
    requires dash2 ==> s[|s| - 5] == '-'
    requires forall k :: 0 <= k < |s| && !(dash1 && k == 3) && !(dash2 && k == |s| - 5) ==> IsDigit(s[k])
    ensures PhoneLanguage(s)
  {
    var i := if dash1 then 4 else 3;
    var j := |s| - 4;
    assert s == s[..i] + s[i..j] + s[j..];
    var g2 := s[i..j];
    assert forall k :: 0 <= k < |g2| ==> g2[k] == s[i + k];
    assert PhoneGroup(s[..i]);
    assert PhoneGroup(g2);
  }

  /** The positional test accepts exactly the language of the phone regex. */
  lemma PhoneMatchesRegex(s: string)
    ensures IsPhone(s) <==> PhoneLanguage(s)
  {
    if IsPhone(s) {
      if |s| == 10 {
        PhoneSplit(s, false, false);
      } else if |s| == 11 && s[3] == '-' && AllDigits(s[..3]) && AllDigits(s[4..]) {
        PhoneSplit(s, true, false);
      } else if |s| == 11 {
        PhoneSplit(s, false, true);
      } else {
        assert forall k :: 0 <= k < 3 ==> s[k] == s[..3][k];
        assert forall k :: 0 <= k < 3 ==> s[4 + k] == s[4..7][k];
        assert forall k :: 0 <= k < 4 ==> s[8 + k] == s[8..][k];
        PhoneSplit(s, true, true);
      }
    }
    if PhoneLanguage(s) {
      var g1, g2, tail :| s == g1 + g2 + tail
                          && PhoneGroup(g1) && PhoneGroup(g2) && |tail| == 4 && AllDigits(tail);
      PhoneLanguageIsPhone(g1, g2, tail);
    }
  }

  // ------------------------------- postal code: ^[A-Z][0-9][A-Z][\s]?[0-9][A-Z][0-9]$

  /** Letter, digit, letter: the forward sortation area of a Canadian postal code. */
  predicate IsForwardSortation(h: string) {
    |h| == 3 && IsUpper(h[0]) && IsDigit(h[1]) && IsUpper(h[2])
  }

  /** Digit, letter, digit: the local delivery unit of a Canadian postal code. */
  predicate IsLocalDelivery(t: string) {
    |t| == 3 && IsDigit(t[0]) && IsUpper(t[1]) && IsDigit(t[2])
  }

  /** Six characters A9A9A9, or seven with one whitespace character in the middle. */
  predicate IsPostcode(s: string) {
    || (|s| == 6 && IsForwardSortation(s[..3]) && IsLocalDelivery(s[3..]))
    || (|s| == 7 && IsForwardSortation(s[..3]) && IsWhitespace(s[3]) && IsLocalDelivery(s[4..]))
  }

  /** The strings `[A-Z][0-9][A-Z][\s]?[0-9][A-Z][0-9]` denotes. */
  ghost predicate PostcodeLanguage(s: string) {
    exists head, sep, tail :: s == head + sep + tail
                              && IsForwardSortation(head) && |sep| <= 1 && AllWhitespace(sep)
                              && IsLocalDelivery(tail)
  }

  /** The positional test accepts exactly the language of the postal-code regex. */
  lemma PostcodeMatchesRegex(s: string)
    ensures IsPostcode(s) <==> PostcodeLanguage(s)
  {
    if IsPostcode(s) {
      if |s| == 6 {
        assert s == s[..3] + s[3..3] + s[3..];
      } else {
        assert s == s[..3] + s[3..4] + s[4..];
      }
    }
    if PostcodeLanguage(s) {
      var head, sep, tail :| s == head + sep + tail
                             && IsForwardSortation(head) && |sep| <= 1 && AllWhitespace(sep)
                             && IsLocalDelivery(tail);
      assert s[..3] == head;
      if |sep| == 0 {
        assert s[3..] == tail;
      } else {
        assert s[3] == sep[0];
        assert s[4..] == tail;
      }
    }
  }

  /** Every postal code the check accepts is 6 or 7 characters long and contains no
      lower-case letter. */
  lemma PostcodeShape(s: string)
    requires IsPostcode(s)
    ensures |s| == 6 || |s| == 7
    ensures forall k :: 0 <= k < |s| ==> !('a' <= s[k] <= 'z')
  {
  }

  // ------------------------------------------------------ whole number: ^[0-9]+$

  predicate IsWholeNumber(s: string) {
    |s| > 0 && AllDigits(s)
  }

  // --------------------------------------------- positive integer: ^[1-9][0-9]*$

  predicate IsPositiveInteger(s: string) {
    |s| > 0 && '1' <= s[0] <= '9' && AllDigits(s)
  }

  /** The positive-integer regex accepts exactly the canonical spellings of the
      numbers 1, 2, 3, ...: so "0", "01" and "" are all refused. */
  lemma PositiveIntegerIsCanonical(s: string)
    ensures IsPositiveInteger(s) <==> exists n: nat :: n >= 1 && s == ToDecimal(n)
  {
    if IsPositiveInteger(s) {
      ToDecimalOfDecimal(s);
      assert s == ToDecimal(DecimalValue(s));
    }
  }

  // -------------------------------------------------- province code: ^[A-Z]{2}$

  predicate IsProvinceCode(s: string) {
    |s| == 2 && IsUpper(s[0]) && IsUpper(s[1])
  }
}
