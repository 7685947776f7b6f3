/**
 * `formatTime` of the meditation timer: a number of seconds shown as `M:SS`
 * (whole minutes, a colon, then the leftover seconds padded to two digits).
 * Decimal rendering of non-negative integers and its inverse are defined here.
 */
module TimeFormat {
  import opened Wrappers

  predicate IsDigit(c: char) {
    '0' <= c <= '9'
  }

  predicate AllDigits(s: string) {
    forall i :: 0 <= i < |s| ==> IsDigit(s[i])
  }

  function DigitChar(d: nat): (c: char)
    requires d < 10
    ensures IsDigit(c)
  {
    ('0' as int + d) as char
  }

  function DigitValue(c: char): (d: nat)
    requires IsDigit(c)
    ensures d < 10 && DigitChar(d) == c
  {
    c as int - '0' as int
  }

  /** Decimal digits of `n`, most significant first, without leading zeros. */
  function Decimal(n: nat): (s: string)
    ensures 1 <= |s| && AllDigits(s)
    ensures n < 10 <==> |s| == 1
    ensures n >= 10 ==> s[0] != '0'
    decreases n
  {
    if n < 10 then [DigitChar(n)] else Decimal(n / 10) + [DigitChar(n % 10)]
  }

  /** Value of a string of decimal digits (0 for the empty string). */
  function ParseDecimal(s: string): nat
    requires AllDigits(s)
    decreases |s|
  {
    if s == [] then 0 else ParseDecimal(s[..|s| - 1]) * 10 + DigitValue(s[|s| - 1])
  }

  /** Reading back the decimal rendering gives the number. */
  lemma {:induction false} DecimalRoundTrip(n: nat)
    ensures ParseDecimal(Decimal(n)) == n
    decreases n
  {
    var s := Decimal(n);
    if n >= 10 {
      DecimalRoundTrip(n / 10);
      assert s[..|s| - 1] == Decimal(n / 10);
      assert DigitValue(s[|s| - 1]) == n % 10;
    } else {
      assert s[..|s| - 1] == [];
      assert DigitValue(s[0]) == n;
    }
  }

  /** `formatTime(seconds)`: minutes, a colon, seconds zero-padded below 10. */
  function FormatTime(seconds: nat): (r: string)
    ensures |r| >= 4 && r[|r| - 3] == ':'
    ensures AllDigits(r[..|r| - 3]) && AllDigits(r[|r| - 2..])
  {
    var mins := seconds / 60;
    var secs := seconds % 60;
    Decimal(mins) + ":" + (if secs < 10 then "0" else "") + Decimal(secs)
  }

  /** Reads `M:SS` back into seconds; `None` when the text is not of that shape. */
  function ParseTime(t: string): (r: Option<nat>)
    ensures r.Some? ==> |t| >= 4
  {
    if |t| >= 4 && t[|t| - 3] == ':' && AllDigits(t[..|t| - 3]) && AllDigits(t[|t| - 2..]) then
      Some(ParseDecimal(t[..|t| - 3]) * 60 + ParseDecimal(t[|t| - 2..]))
    else
      None
  }

  /** The two digits after the colon read back as the seconds left over after whole minutes. */
  lemma {:induction false} SecondsField(seconds: nat)
    ensures var r := FormatTime(seconds);
            ParseDecimal(r[|r| - 2..]) == seconds % 60 < 60
  {
    var secs := seconds % 60;
    var r := FormatTime(seconds);
    var tail := (if secs < 10 then "0" else "") + Decimal(secs);
    assert r == Decimal(seconds / 60) + ":" + tail;
    assert |tail| == 2;
    assert r[|r| - 2..] == tail;
    DecimalRoundTrip(secs);
    if secs < 10 {
      assert tail[..1] == "0";
      assert tail[1..] == Decimal(secs);
      assert ParseDecimal(tail[..1]) == 0 by {
        assert tail[..1][..0] == [];
      }
    }
  }

  /** The digits before the colon read back as the whole minutes. */
  lemma {:induction false} MinutesField(seconds: nat)
    ensures var r := FormatTime(seconds);
            ParseDecimal(r[..|r| - 3]) == seconds / 60
    ensures var r := FormatTime(seconds); |r| == 4 || r[0] != '0'
  {
    var secs := seconds % 60;
    var r := FormatTime(seconds);
    var tail := (if secs < 10 then "0" else "") + Decimal(secs);
    assert r == Decimal(seconds / 60) + ":" + tail;
    assert |tail| == 2;
    assert r[..|r| - 3] == Decimal(seconds / 60);
    DecimalRoundTrip(seconds / 60);
  }

  /** Digit text without a leading zero, as a number is printed. */
  predicate Canonical(s: string) {
    1 <= |s| && AllDigits(s) && (|s| == 1 || s[0] != '0')
  }

  /** Digits that start with a non-zero digit stand for a positive number. */
  lemma {:induction false} LeadingDigitPositive(s: string)
    requires 1 <= |s| && AllDigits(s) && s[0] != '0'
    ensures ParseDecimal(s) >= 1
    decreases |s|
  {
    if |s| > 1 {
      LeadingDigitPositive(s[..|s| - 1]);
    } else {
      assert s[..0] == [];
    }
  }

  /** Digit text without a leading zero is the decimal text of its own value. */
  lemma {:induction false} CanonicalIsDecimal(s: string)
    requires Canonical(s)
    ensures Decimal(ParseDecimal(s)) == s
    decreases |s|
  {
    var p := s[..|s| - 1];
    var d := DigitValue(s[|s| - 1]);
    if |s| == 1 {
      assert p == [];
      assert Decimal(ParseDecimal(s)) == [DigitChar(d)];
    } else {
      CanonicalIsDecimal(p);
      LeadingDigitPositive(p);
      var n := ParseDecimal(s);
      assert n == ParseDecimal(p) * 10 + d;
      assert n / 10 == ParseDecimal(p) && n % 10 == d;
      assert s == p + [s[|s| - 1]];
    }
  }

  /** Two digits worth less than 60, as `formatTime` pads the leftover seconds. */
  lemma PaddedSeconds(t: string)
    requires |t| == 2 && AllDigits(t) && ParseDecimal(t) < 60
    ensures var secs := ParseDecimal(t);
            (if secs < 10 then "0" else "") + Decimal(secs) == t
  {
    var a, b := DigitValue(t[0]), DigitValue(t[1]);
    assert t[..1][..0] == [];
    assert ParseDecimal(t[..1]) == a;
    var secs := ParseDecimal(t);
    assert secs == a * 10 + b;
    assert t == [DigitChar(a), DigitChar(b)];
    if secs < 10 {
      assert a == 0 && secs == b;
      assert Decimal(secs) == [DigitChar(b)];
    } else {
      assert 1 <= a < 6;
      assert secs / 10 == a && secs % 10 == b;
      assert Decimal(secs) == Decimal(a) + [DigitChar(b)];
      assert Decimal(a) == [DigitChar(a)];
    }
  }

  /**
   * `formatTime` writes the one canonical text for its value: any `M:SS` text whose
   * minutes have no leading zero and whose seconds are below 60 is exactly the text
   * shown for the seconds it reads back as.
   */
  lemma FormatTimeCanonical(t: string, seconds: nat)
    requires ParseTime(t) == Some(seconds)
    requires Canonical(t[..|t| - 3]) && ParseDecimal(t[|t| - 2..]) < 60
    ensures FormatTime(seconds) == t
  {
    var minsText, secsText := t[..|t| - 3], t[|t| - 2..];
    var m, sec := ParseDecimal(minsText), ParseDecimal(secsText);
    assert seconds == m * 60 + sec;
    assert seconds / 60 == m && seconds % 60 == sec;
    CanonicalIsDecimal(minsText);
    PaddedSeconds(secsText);
    assert t == minsText + ":" + secsText;
  }

  /**
   * Round trip: the shown text determines the seconds exactly, so the displayed
   * minutes times 60 plus the displayed seconds equal the input.
   */
  lemma FormatTimeRoundTrip(seconds: nat)
    ensures ParseTime(FormatTime(seconds)) == Some(seconds)
  {
    SecondsField(seconds);
    MinutesField(seconds);
  }

  /** The default five-minute session is shown as "5:00". */
  lemma FiveMinutes()
    ensures FormatTime(300) == "5:00"
  {
    assert Decimal(0) == "0";
    assert Decimal(5) == "5";
  }
}
