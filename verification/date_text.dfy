/** The ISO 8601 extended calendar-date form `YYYY-MM-DD` (section 4.1.2.2 of
    ISO 8601:2004): a four-digit year, a two-digit month and a two-digit day,
    each zero-padded and separated by hyphens.  This is what `strftime("%Y-%m-%d")`
    writes and what `pd.to_datetime` reads back.
 */
module DateText {
  import opened Maybe
  import opened Calendar

  predicate IsDigit(c: char) {
    '0' <= c <= '9'
  }

  predicate AllDigits(s: seq<char>) {
    forall i :: 0 <= i < |s| ==> IsDigit(s[i])
  }

  function DigitChar(n: int): (c: char)
    requires 0 <= n < 10
    ensures IsDigit(c)
  {
    ('0' as int + n) as char
  }

  function DigitValue(c: char): (n: int)
    requires IsDigit(c)
    ensures 0 <= n < 10
  {
    c as int - '0' as int
  }

  function Pow10(w: nat): (p: nat)
    ensures p >= 1
  {
    if w == 0 then 1 else 10 * Pow10(w - 1)
  }

  /** The last `w` decimal digits of `n`, most significant first. */
  function Pad(n: nat, w: nat): (s: seq<char>)
    ensures |s| == w
    ensures AllDigits(s)
  {
    if w == 0 then [] else Pad(n / 10, w - 1) + [DigitChar(n % 10)]
  }

  /** The number a string of decimal digits denotes. */
  function Value(s: seq<char>): (n: nat)
    requires AllDigits(s)
  {
    if |s| == 0 then 0 else 10 * Value(s[..|s| - 1]) + DigitValue(s[|s| - 1])
  }

  /** Padding to `w` digits loses nothing when `n` has at most `w` digits. */
  lemma {:induction false} ValueOfPad(n: nat, w: nat)
    requires n < Pow10(w)
    ensures Value(Pad(n, w)) == n
  {
    if w > 0 {
      var s := Pad(n, w);
      assert s[..w - 1] == Pad(n / 10, w - 1);
      assert n / 10 < Pow10(w - 1);
      ValueOfPad(n / 10, w - 1);
      assert DigitValue(s[w - 1]) == n % 10;
      assert Value(s) == 10 * (n / 10) + n % 10;
    }
  }

  /** A digit string is the padding of its own value: leading zeros are kept. */
  lemma {:induction false} PadOfValue(s: seq<char>)
    requires AllDigits(s)
    ensures Pad(Value(s), |s|) == s
  {
    if |s| > 0 {
      var init := s[..|s| - 1];
      PadOfValue(init);
      var n := Value(s);
      assert n / 10 == Value(init);
      assert n % 10 == DigitValue(s[|s| - 1]);
      assert init + [s[|s| - 1]] == s;
    }
  }

  /** `YYYY-MM-DD` for a valid date. */
  function FormatDate(d: Date): (s: string)
    requires ValidDate(d)
    ensures |s| == 10 && s[4] == '-' && s[7] == '-'
    ensures AllDigits(s[..4]) && AllDigits(s[5..7]) && AllDigits(s[8..])
  {
    var s := Pad(d.year, 4) + "-" + Pad(d.month, 2) + "-" + Pad(d.day, 2);
    assert s[..4] == Pad(d.year, 4);
    assert s[5..7] == Pad(d.month, 2);
    assert s[8..] == Pad(d.day, 2);
    s
  }

  /** Reads `YYYY-MM-DD`; `None` for any other shape or for a date that does not exist. */
  function ParseDate(s: string): (r: Option<Date>)
    ensures r.Some? ==> ValidDate(r.value)
  {
    if |s| == 10 && s[4] == '-' && s[7] == '-'
      && AllDigits(s[..4]) && AllDigits(s[5..7]) && AllDigits(s[8..])
    then
      var d := Date(Value(s[..4]), Value(s[5..7]), Value(s[8..]));
      if ValidDate(d) then Some(d) else None
    else None
  }

  /** What the generator writes, the forecaster reads back unchanged. */
  lemma ParseFormat(d: Date)
    requires ValidDate(d)
    ensures ParseDate(FormatDate(d)) == Some(d)
  {
    var s := FormatDate(d);
    assert s[..4] == Pad(d.year, 4);
    assert s[5..7] == Pad(d.month, 2);
    assert s[8..] == Pad(d.day, 2);
    ValueOfPad(d.year, 4);
    ValueOfPad(d.month, 2);
    ValueOfPad(d.day, 2);
  }

  /** Every string the parser accepts is in canonical form: formatting the
      parsed date gives the same characters back. */
  lemma FormatParse(s: string)
    requires ParseDate(s).Some?
    ensures FormatDate(ParseDate(s).value) == s
  {
    var d := ParseDate(s).value;
    PadOfValue(s[..4]);
    PadOfValue(s[5..7]);
    PadOfValue(s[8..]);
    var t := FormatDate(d);
    assert t[..4] == s[..4] && t[5..7] == s[5..7] && t[8..] == s[8..];
    SameFields(t, s);
  }

  /** Two ten-character strings with the same separators and the same digit
      fields are equal. */
  lemma SameFields(s: string, t: string)
    requires |s| == 10 && |t| == 10 && s[4] == t[4] && s[7] == t[7]
    requires s[..4] == t[..4] && s[5..7] == t[5..7] && s[8..] == t[8..]
    ensures s == t
  {
    forall i | 0 <= i < 10 ensures s[i] == t[i] {
      if i < 4 {
        assert s[i] == s[..4][i];
      } else if 5 <= i < 7 {
        assert s[i] == s[5..7][i - 5];
      } else if 8 <= i {
        assert s[i] == s[8..][i - 8];
      }
    }
  }
}
