/**
 * `formatTime` of lib/utils.ts: a count of seconds rendered as `MM:SS`.
 *
 * The argument is a JavaScript number. The stopwatch, its only caller, only
 * ever passes a natural number far below 2^53, where `Math.floor(t / 60)`
 * and `t % 60` are exact integer division and remainder and `String(n)` is
 * the decimal form of `n` without leading zeros. The model takes the argument
 * as a `nat`. `padStart(2, "0")` prepends zeros until the width is reached,
 * never truncating.
 */
module TimeFormat {
  import opened Wrappers

  predicate IsDigit(c: char) { '0' <= c <= '9' }

  /** Every character of `s` is a decimal digit (stated from the back, as `Value` reads it). */
  predicate IsDigits(s: string) {
    s == [] || (IsDigits(s[..|s| - 1]) && IsDigit(s[|s| - 1]))
  }

  function DigitChar(d: nat): (c: char)
    requires d < 10
    ensures IsDigit(c) && c as int - '0' as int == d
  {
    ('0' as int + d) as char
  }

  function DigitValue(c: char): nat
    requires IsDigit(c)
  {
    c as int - '0' as int
  }

  /** `String(n)` for a natural number: its decimal digits, most significant first. */
  function Decimal(n: nat): (s: string)
    ensures |s| >= 1 && IsDigits(s)
    decreases n
  {
    if n < 10 then [DigitChar(n)] else Decimal(n / 10) + [DigitChar(n % 10)]
  }

  /** The number a string of decimal digits denotes (leading zeros allowed). */
  function Value(s: string): nat
    requires IsDigits(s)
  {
    if s == [] then 0 else Value(s[..|s| - 1]) * 10 + DigitValue(s[|s| - 1])
  }

  /** `s.padStart(width, fill)`: prepend `fill` until `s` is `width` long. */
  function PadStart(s: string, width: nat, fill: char): (r: string)
    ensures |r| == if |s| >= width then |s| else width
    decreases width - |s|
  {
    if |s| >= width then s else PadStart([fill] + s, width, fill)
  }

  /** `String(n).padStart(2, "0")`, the form of both parts of the display. */
  function TwoDigits(n: nat): string {
    PadStart(Decimal(n), 2, '0')
  }

  /** The minutes part: `String(Math.floor(t / 60)).padStart(2, "0")`. */
  function Minutes(t: nat): string {
    TwoDigits(t / 60)
  }

  /** The seconds part: `String(t % 60).padStart(2, "0")`. */
  function Seconds(t: nat): string {
    TwoDigits(t % 60)
  }

  /**
   * `formatTime`: the minutes, a colon, and the two-digit seconds. Whatever
   * the width of the minutes, the colon is the third character from the end,
   * the digits before it are worth `floor(t / 60)` and the two after it
   * `t % 60`.
   */
  function FormatTime(t: nat): (r: string)
    ensures |r| >= 5 && r[|r| - 3] == ':'
    ensures IsDigits(r[..|r| - 3]) && Value(r[..|r| - 3]) == t / 60
    ensures IsDigits(r[|r| - 2..]) && Value(r[|r| - 2..]) == t % 60 < 60
  {
    MinutesPart(t);
    SecondsPart(t);
    SplitJoin(Minutes(t), Seconds(t));
    Minutes(t) + ":" + Seconds(t)
  }

  /**
   * Reads a `MM:SS` string back as `minutes * 60 + seconds`: the colon is the
   * third character from the end, both sides are non-empty runs of digits and
   * the seconds are below 60.
   */
  function ParseTime(s: string): Option<nat> {
    if |s| < 4 then None
    else
      var colon := |s| - 3;
      var m, sec := s[..colon], s[colon + 1..];
      if s[colon] == ':' && IsDigits(m) && IsDigits(sec) && Value(sec) < 60
      then Some(Value(m) * 60 + Value(sec))
      else None
  }

  // ---------------------------------------------------------------- lemmas

  lemma {:induction false} DecimalValue(n: nat)
    ensures Value(Decimal(n)) == n
    decreases n
  {
    if n >= 10 {
      var d := Decimal(n / 10);
      var s := d + [DigitChar(n % 10)];
      assert s[..|s| - 1] == d;
      DecimalValue(n / 10);
    }
  }

  /** How many digits `String(n)` has, in the three ranges the format cares about. */
  lemma {:induction false} DecimalLength(n: nat)
    ensures n < 10 ==> |Decimal(n)| == 1
    ensures 10 <= n < 100 ==> |Decimal(n)| == 2
    ensures 100 <= n ==> |Decimal(n)| >= 3
    decreases n
  {
    if n >= 10 {
      DecimalLength(n / 10);
    }
  }

  lemma {:induction false} LeadingZero(s: string)
    requires IsDigits(s)
    ensures IsDigits(['0'] + s) && Value(['0'] + s) == Value(s)
    decreases |s|
  {
    var p := ['0'] + s;
    if s != [] {
      assert p[..|p| - 1] == ['0'] + s[..|s| - 1];
      LeadingZero(s[..|s| - 1]);
    }
  }

  /** Padding with zeros keeps the digits and their value. */
  lemma {:induction false} ZeroPadValue(s: string, width: nat)
    requires IsDigits(s)
    ensures IsDigits(PadStart(s, width, '0'))
    ensures Value(PadStart(s, width, '0')) == Value(s)
    decreases width - |s|
  {
    if |s| < width {
      LeadingZero(s);
      ZeroPadValue(['0'] + s, width);
    }
  }

  /** Padding only prepends: the padded string ends with the original, whatever the fill. */
  lemma {:induction false} PadSuffix(s: string, width: nat, fill: char)
    ensures var r := PadStart(s, width, fill); r[|r| - |s|..] == s
    decreases width - |s|
  {
    if |s| < width {
      var r := PadStart([fill] + s, width, fill);
      PadSuffix([fill] + s, width, fill);
      assert r[|r| - |s|..] == ([fill] + s)[1..];
    }
  }

  /** Padding a digit string to two places keeps its digits and value, and leaves a longer one alone. */
  lemma PadTwo(s: string)
    requires IsDigits(s) && |s| >= 1
    ensures IsDigits(PadStart(s, 2, '0')) && Value(PadStart(s, 2, '0')) == Value(s)
    ensures |s| == 1 ==> |PadStart(s, 2, '0')| == 2
    ensures |s| >= 2 ==> PadStart(s, 2, '0') == s
  {
    ZeroPadValue(s, 2);
  }

  /**
   * A padded part holds the digits of `n` and is worth `n`; it has two
   * characters below 100 and, since padding never truncates, is the plain
   * decimal form of three or more digits from 100 on.
   */
  lemma TwoDigitsPart(n: nat)
    ensures IsDigits(TwoDigits(n)) && Value(TwoDigits(n)) == n
    ensures |TwoDigits(n)| >= 2
    ensures n < 100 ==> |TwoDigits(n)| == 2
    ensures n >= 100 ==> |TwoDigits(n)| >= 3 && TwoDigits(n) == Decimal(n)
  {
    var d := Decimal(n);
    DecimalValue(n);
    DecimalLength(n);
    PadTwo(d);
  }

  /**
   * The minutes part is the decimal form of `floor(t / 60)` padded to at
   * least two characters: exactly two below t = 6000, three or more from there.
   */
  lemma MinutesPart(t: nat)
    ensures IsDigits(Minutes(t)) && Value(Minutes(t)) == t / 60
    ensures |Minutes(t)| >= 2
    ensures t < 6000 ==> |Minutes(t)| == 2
    ensures t >= 6000 ==> |Minutes(t)| >= 3 && Minutes(t) == Decimal(t / 60)
  {
    TwoDigitsPart(t / 60);
  }

  /** The seconds part is always exactly two digits, worth `t % 60`. */
  lemma SecondsPart(t: nat)
    ensures IsDigits(Seconds(t)) && |Seconds(t)| == 2
    ensures Value(Seconds(t)) == t % 60 < 60
  {
    TwoDigitsPart(t % 60);
  }

  /** The shape of two two-character parts joined by a colon. */
  lemma JoinShort(m: string, sec: string)
    requires IsDigits(m) && |m| == 2 && IsDigits(sec) && |sec| == 2
    ensures var s := m + ":" + sec;
      |s| == 5 && s[2] == ':' && IsDigits(s[..2]) && IsDigits(s[3..])
  {
    var s := m + ":" + sec;
    assert s[..2] == m;
    assert s[3..] == sec;
  }

  /** Where a joined display splits again: before the colon, and two characters after it. */
  lemma SplitJoin(m: string, sec: string)
    requires |sec| == 2
    ensures var s := m + ":" + sec;
      s[..|s| - 3] == m && s[|s| - 3] == ':' && s[|s| - 2..] == sec
  {
    var s := m + ":" + sec;
    assert s[..|m|] == m;
    assert s[|m| + 1..] == sec;
  }

  /** Below 100 minutes the display is exactly `MM:SS`. */
  lemma ShortForm(t: nat)
    requires t < 6000
    ensures |FormatTime(t)| == 5 && FormatTime(t)[2] == ':'
    ensures IsDigits(FormatTime(t)[..2]) && IsDigits(FormatTime(t)[3..])
  {
    TwoDigitsPart(t / 60);
    TwoDigitsPart(t % 60);
    JoinShort(Minutes(t), Seconds(t));
  }

  /** The stopwatch's first display. */
  lemma FormatZero()
    ensures FormatTime(0) == "00:00"
  {
  }

  /** Reading the display back as `minutes * 60 + seconds` gives the count again. */
  lemma RoundTrip(t: nat)
    ensures ParseTime(FormatTime(t)) == Some(t)
  {
  }

  /** Two different counts never show the same display. */
  lemma Injective(a: nat, b: nat)
    requires FormatTime(a) == FormatTime(b)
    ensures a == b
  {
    RoundTrip(a);
    RoundTrip(b);
  }
}
