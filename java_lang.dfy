/**
 * The few java.lang behaviours the chat turn depends on: null references,
 * String.isBlank, String.trim, Long.toString and long division.
 *
 * A Java String is a sequence of UTF-16 code units; here it is a `string`
 * (seq<char>) of Unicode scalar values. The two agree on text inside the
 * Basic Multilingual Plane; a supplementary char is two Java chars but one
 * char here, so lengths and substring bounds differ for such text.
 */
module JavaLang {

  /** A Java reference that may be null. */
  datatype Option<+T> = None | Some(value: T)

  // ---------------------------------------------------------------------
  // Character.isWhitespace and String.isBlank
  // ---------------------------------------------------------------------

  /**
   * Character.isWhitespace: the Unicode space, line and paragraph separators
   * other than the no-break spaces U+00A0, U+2007 and U+202F, plus
   * U+0009..U+000D and U+001C..U+001F.
   */
  predicate IsWhitespace(c: char)
  {
    || c == ' '
    || ('\t' <= c <= '\r')
    || ('\U{1C}' <= c <= '\U{1F}')
    || c == '\U{1680}'
    || ('\U{2000}' <= c <= '\U{2006}')
    || ('\U{2008}' <= c <= '\U{200A}')
    || c == '\U{2028}' || c == '\U{2029}'
    || c == '\U{205F}' || c == '\U{3000}'
  }

  /** String.isBlank: empty, or made of whitespace only. */
  predicate IsBlank(s: string)
  {
    forall i :: 0 <= i < |s| ==> IsWhitespace(s[i])
  }

  // ---------------------------------------------------------------------
  // String.trim: strip every char <= U+0020 from both ends
  // ---------------------------------------------------------------------

  /** The index of the first char at or after i that is above ' ', or |s| when there is none. */
  function SkipLeading(s: string, i: nat): (k: nat)
    requires i <= |s|
    ensures i <= k <= |s| && (k == |s| || s[k] > ' ')
    decreases |s| - i
  {
    if i < |s| && s[i] <= ' ' then SkipLeading(s, i + 1) else i
  }

  /** The index just past the last char before j that is above ' ', or lo when there is none from lo on. */
  function SkipTrailing(s: string, lo: nat, j: nat): (k: nat)
    requires lo <= j <= |s|
    ensures lo <= k <= j && (k == lo || s[k - 1] > ' ')
    decreases j
  {
    if j > lo && s[j - 1] <= ' ' then SkipTrailing(s, lo, j - 1) else j
  }

  /** String.trim: advance the start past chars <= ' ', then pull the end back past chars <= ' '. */
  function Trim(s: string): (r: string)
    ensures |r| <= |s|
    ensures r == [] || (r[0] > ' ' && r[|r| - 1] > ' ')
  {
    var lo := SkipLeading(s, 0);
    s[lo..SkipTrailing(s, lo, |s|)]
  }

  lemma {:induction false} SkipLeadingSkipsSpaces(s: string, i: nat)
    requires i <= |s|
    ensures forall j :: i <= j < SkipLeading(s, i) ==> s[j] <= ' '
    decreases |s| - i
  {
    if i < |s| && s[i] <= ' ' {
      SkipLeadingSkipsSpaces(s, i + 1);
    }
  }

  lemma {:induction false} SkipTrailingSkipsSpaces(s: string, lo: nat, j: nat)
    requires lo <= j <= |s|
    ensures forall m :: SkipTrailing(s, lo, j) <= m < j ==> s[m] <= ' '
    decreases j
  {
    if j > lo && s[j - 1] <= ' ' {
      SkipTrailingSkipsSpaces(s, lo, j - 1);
    }
  }

  /**
   * trim removes exactly a run of chars <= ' ' at each end: the result is a
   * slice s[lo..hi] with every char outside it <= ' '.
   */
  lemma TrimRemovesOnlySpaces(s: string)
    ensures exists lo, hi ::
      && 0 <= lo <= hi <= |s| && Trim(s) == s[lo..hi]
      && (forall j :: 0 <= j < lo ==> s[j] <= ' ')
      && (forall j :: hi <= j < |s| ==> s[j] <= ' ')
  {
    var lo := SkipLeading(s, 0);
    var hi := SkipTrailing(s, lo, |s|);
    SkipLeadingSkipsSpaces(s, 0);
    SkipTrailingSkipsSpaces(s, lo, |s|);
    assert Trim(s) == s[lo..hi];
  }

  /** A string that starts and ends with chars above ' ' is left alone by trim. */
  lemma TrimKeepsTrimmed(s: string)
    requires s == [] || (s[0] > ' ' && s[|s| - 1] > ' ')
    ensures Trim(s) == s
  {
    assert SkipLeading(s, 0) == 0;
    assert SkipTrailing(s, 0, |s|) == |s|;
    assert s[0..|s|] == s;
  }

  /** trim is idempotent. */
  lemma TrimIdempotent(s: string)
    ensures Trim(Trim(s)) == Trim(s)
  {
    TrimKeepsTrimmed(Trim(s));
  }

  // ---------------------------------------------------------------------
  // Long.toString (and the %d conversion of String.format)
  // ---------------------------------------------------------------------

  function DigitChar(d: nat): (c: char)
    requires d < 10
    ensures '0' <= c <= '9' && c as int - '0' as int == d
  {
    ('0' as int + d) as char
  }

  predicate IsDigits(s: string)
  {
    forall i :: 0 <= i < |s| ==> '0' <= s[i] <= '9'
  }

  /** The decimal digits of n, most significant first, with no leading zero. */
  function NatToString(n: nat): (r: string)
    ensures |r| >= 1 && IsDigits(r)
    ensures |r| > 1 ==> r[0] != '0'
  {
    if n < 10 then [DigitChar(n)] else NatToString(n / 10) + [DigitChar(n % 10)]
  }

  /** The value of a string of decimal digits. */
  function DigitsValue(s: string): nat
    requires IsDigits(s)
  {
    if s == [] then 0 else DigitsValue(s[..|s| - 1]) * 10 + (s[|s| - 1] as int - '0' as int)
  }

  /** Reading back the digits of n gives n. */
  lemma {:induction false} NatToStringRoundTrip(n: nat)
    ensures DigitsValue(NatToString(n)) == n
  {
    if n >= 10 {
      NatToStringRoundTrip(n / 10);
      var r := NatToString(n);
      assert r[..|r| - 1] == NatToString(n / 10);
    }
  }

  /** Long.toString: an optional minus sign followed by the digits of the magnitude. */
  function LongToString(n: int): (r: string)
    ensures |r| >= 1
    ensures (r[0] == '-') == (n < 0)
    ensures IsDigits(if n < 0 then r[1..] else r)
  {
    if n < 0 then "-" + NatToString(-n) else NatToString(n)
  }

  /** Long.toString loses nothing: the sign and the digits give the number back. */
  lemma LongToStringRoundTrip(n: int)
    ensures n < 0 ==> LongToString(n)[1..] == NatToString(-n) && DigitsValue(LongToString(n)[1..]) == -n
    ensures n >= 0 ==> DigitsValue(LongToString(n)) == n
  {
    if n < 0 {
      assert LongToString(n)[1..] == NatToString(-n);
      NatToStringRoundTrip(-n);
    } else {
      NatToStringRoundTrip(n);
    }
  }

  // ---------------------------------------------------------------------
  // Java long division by 1000 (truncates toward zero)
  // ---------------------------------------------------------------------

  /** `millis / 1000` on a Java long: the quotient truncated toward zero. */
  function EpochSeconds(millis: int): (r: int)
    ensures millis >= 0 ==> r >= 0 && r * 1000 <= millis < r * 1000 + 1000
    ensures millis < 0 ==> r <= 0 && r * 1000 - 1000 < millis <= r * 1000
  {
    if millis >= 0 then millis / 1000 else -((-millis) / 1000)
  }
}
