/** Formatting of the game clock as HH:MM:SS.CC (hours, minutes, seconds,
    hundredths), with the host language's integer semantics: division
    rounds down, the remainder takes the sign of the dividend. */
module TimeUtils {

  /** Rounding-down division by a positive divisor (Dafny's `/` already
      rounds down when the divisor is positive). */
  function FloorDiv(a: int, b: int): (q: int)
    requires b > 0
    ensures q * b <= a < q * b + b
  {
    a / b
  }

  /** Remainder with the sign of the dividend. */
  function TruncRem(a: int, b: int): (r: int)
    requires b > 0
    ensures a >= 0 ==> r >= 0
    ensures a < 0 ==> r <= 0
    ensures (if r >= 0 then r else -r) == (if a >= 0 then a else -a) % b
  {
    if a >= 0 then a % b else -((-a) % b)
  }

  datatype Fields = Fields(hours: int, minutes: int, seconds: int, hundredths: int)

  function FieldsOf(ms: int): Fields
  {
    var totalSeconds := FloorDiv(ms, 1000);
    Fields(
      FloorDiv(totalSeconds, 3600),
      FloorDiv(TruncRem(totalSeconds, 3600), 60),
      TruncRem(totalSeconds, 60),
      FloorDiv(TruncRem(ms, 1000), 10))
  }

  /** For a non-negative clock the fields are in range and recompose to the
      clock value, up to the dropped last digit. */
  lemma FieldsInRange(ms: int)
    requires ms >= 0
    ensures var f := FieldsOf(ms);
            f.hours >= 0 && 0 <= f.minutes <= 59 && 0 <= f.seconds <= 59 && 0 <= f.hundredths <= 99 &&
            var total := f.hours * 3600000 + f.minutes * 60000 + f.seconds * 1000 + f.hundredths * 10;
            total <= ms < total + 10
  {
    var t := ms / 1000;
    var r := ms % 1000;
    assert ms == t * 1000 + r;
    var h := t / 3600;
    var u := t % 3600;
    assert t == h * 3600 + u;
    var m := u / 60;
    var s := t % 60;
    assert u == m * 60 + u % 60;
    assert s == u % 60 by {
      assert t == (h * 60 + m) * 60 + u % 60;
    }
    assert ms == h * 3600000 + m * 60000 + s * 1000 + r;
  }

  function DigitValue(c: char): int
  {
    c as int - '0' as int
  }

  function DigitChar(d: int): (c: char)
    requires 0 <= d < 10
    ensures '0' <= c <= '9'
    ensures DigitValue(c) == d
  {
    ('0' as int + d) as char
  }

  /** Decimal digits, most significant first, no leading zero. */
  function NatToString(n: nat): (s: string)
    ensures |s| >= 1
    ensures forall i :: 0 <= i < |s| ==> '0' <= s[i] <= '9'
    ensures |s| == 1 <==> n < 10
    ensures n >= 10 ==> s[0] != '0'
    decreases n
  {
    if n < 10 then [DigitChar(n)] else NatToString(n / 10) + [DigitChar(n % 10)]
  }

  /** The decimal value of a digit string. */
  function ParseDigits(s: string): int
  {
    if s == [] then 0 else ParseDigits(s[..|s| - 1]) * 10 + DigitValue(s[|s| - 1])
  }

  /** Printing then reading back a number gives the number. */
  lemma {:induction false} NatToStringRoundTrip(n: nat)
    ensures ParseDigits(NatToString(n)) == n
    decreases n
  {
    var s := NatToString(n);
    if n < 10 {
      assert s[..0] == [];
    } else {
      NatToStringRoundTrip(n / 10);
      assert s[..|s| - 1] == NatToString(n / 10);
    }
  }

  /** The host language's number-to-string: a minus sign for negatives. */
  function IntToString(n: int): string
  {
    if n < 0 then "-" + NatToString(-n) else NatToString(n)
  }

  /** Left-pads with '0' to at least two characters; never truncates. */
  function PadStart2(s: string): (r: string)
    ensures |s| >= 2 ==> r == s
    ensures |s| < 2 ==> |r| == 2
  {
    if |s| >= 2 then s else seq(2 - |s|, _ => '0') + s
  }

  /** Padding only adds leading zeros: the input is the padded string's suffix. */
  lemma PadStart2Keeps(s: string)
    ensures var r := PadStart2(s);
            |r| >= |s| && r[|r| - |s|..] == s &&
            forall i :: 0 <= i < |r| - |s| ==> r[i] == '0'
  {
    if |s| < 2 {
      var z := seq(2 - |s|, _ => '0');
      assert PadStart2(s) == z + s;
      assert (z + s)[|z|..] == s;
    }
  }

  /** One field as printed: its decimal form padded to two characters. */
  function Padded(n: int): string
  {
    PadStart2(IntToString(n))
  }

  /** The four printed fields with their separators. */
  function Join(a: string, b: string, c: string, d: string): string
  {
    a + ":" + b + ":" + c + "." + d
  }

  function FormatFields(f: Fields): string
  {
    Join(Padded(f.hours), Padded(f.minutes), Padded(f.seconds), Padded(f.hundredths))
  }

  function FormatTime(ms: int): string
  {
    FormatFields(FieldsOf(ms))
  }

  /** A number below 100 prints as exactly two digits that read back as the number. */
  lemma TwoDigits(n: int)
    requires 0 <= n < 100
    ensures var p := Padded(n);
            |p| == 2 && '0' <= p[0] <= '9' && '0' <= p[1] <= '9' &&
            DigitValue(p[0]) * 10 + DigitValue(p[1]) == n
  {
    var p := Padded(n);
    if n < 10 {
      var t := [DigitChar(n)];
      assert IntToString(n) == t;
      assert p == ['0'] + t;
    } else {
      var q, r := n / 10, n % 10;
      assert n == q * 10 + r && 1 <= q < 10 && 0 <= r < 10;
      var t := [DigitChar(q), DigitChar(r)];
      assert NatToString(q) == [DigitChar(q)];
      assert IntToString(n) == t;
      assert p == t;
    }
  }

  /** Reads the two-digit fields back out of an 11-character clock string. */
  function ParseClock(s: string): Fields
    requires |s| == 11
  {
    Fields(
      DigitValue(s[0]) * 10 + DigitValue(s[1]),
      DigitValue(s[3]) * 10 + DigitValue(s[4]),
      DigitValue(s[6]) * 10 + DigitValue(s[7]),
      DigitValue(s[9]) * 10 + DigitValue(s[10]))
  }

  /** Four two-character fields joined with their separators make an
      11-character string from which each field's two characters read back. */
  lemma Layout(a: string, b: string, c: string, d: string)
    requires |a| == 2 && |b| == 2 && |c| == 2 && |d| == 2
    ensures var s := Join(a, b, c, d);
            |s| == 11 && s[2] == ':' && s[5] == ':' && s[8] == '.' &&
            ParseClock(s) == Fields(
              DigitValue(a[0]) * 10 + DigitValue(a[1]), DigitValue(b[0]) * 10 + DigitValue(b[1]),
              DigitValue(c[0]) * 10 + DigitValue(c[1]), DigitValue(d[0]) * 10 + DigitValue(d[1]))
  {
    assert Join(a, b, c, d) == [a[0], a[1], ':', b[0], b[1], ':', c[0], c[1], '.', d[0], d[1]];
  }

  /** With two-character minutes, seconds and hundredths, the hours are
      everything before the last nine characters. */
  lemma JoinPrefix(a: string, b: string, c: string, d: string)
    requires |b| == 2 && |c| == 2 && |d| == 2
    ensures var s := Join(a, b, c, d); |s| == |a| + 9 && s[..|a|] == a
  {
    var s := Join(a, b, c, d);
    assert s == a + (":" + b + ":" + c + "." + d);
  }

  /** Two-character fields that read as the given values join into a clock
      string that reads back as those values. */
  lemma ClockReadsBack(a: string, b: string, c: string, d: string, f: Fields)
    requires |a| == 2 && |b| == 2 && |c| == 2 && |d| == 2
    requires DigitValue(a[0]) * 10 + DigitValue(a[1]) == f.hours
    requires DigitValue(b[0]) * 10 + DigitValue(b[1]) == f.minutes
    requires DigitValue(c[0]) * 10 + DigitValue(c[1]) == f.seconds
    requires DigitValue(d[0]) * 10 + DigitValue(d[1]) == f.hundredths
    ensures var s := Join(a, b, c, d);
            |s| == 11 && s[2] == ':' && s[5] == ':' && s[8] == '.' && ParseClock(s) == f
  {
    Layout(a, b, c, d);
  }

  lemma FieldsShape(f: Fields)
    requires 0 <= f.hours < 100 && 0 <= f.minutes < 100 && 0 <= f.seconds < 100 && 0 <= f.hundredths < 100
    ensures var s := FormatFields(f);
            |s| == 11 && s[2] == ':' && s[5] == ':' && s[8] == '.' && ParseClock(s) == f
  {
    TwoDigits(f.hours);
    TwoDigits(f.minutes);
    TwoDigits(f.seconds);
    TwoDigits(f.hundredths);
    ClockReadsBack(Padded(f.hours), Padded(f.minutes), Padded(f.seconds), Padded(f.hundredths), f);
  }

  /** Below 100 hours the string is HH:MM:SS.CC, 11 characters, and reading
      it back recovers every field. */
  lemma FormatTimeShape(ms: int)
    requires ms >= 0 && FieldsOf(ms).hours < 100
    ensures var s := FormatTime(ms);
            |s| == 11 && s[2] == ':' && s[5] == ':' && s[8] == '.' &&
            ParseClock(s) == FieldsOf(ms)
  {
    FieldsInRange(ms);
    FieldsShape(FieldsOf(ms));
  }

  /** From 100 hours on, the hours are printed in full ahead of the last
      nine characters (no truncation to two digits); `NatToStringRoundTrip`
      shows that printed form reads back as the hours. */
  lemma LongHoursNotTruncated(ms: int)
    requires ms >= 0 && FieldsOf(ms).hours >= 100
    ensures var s := FormatTime(ms);
            |s| == |NatToString(FieldsOf(ms).hours)| + 9 &&
            s[..|s| - 9] == NatToString(FieldsOf(ms).hours)
  {
    FieldsInRange(ms);
    LongHoursFields(FieldsOf(ms));
  }

  lemma LongHoursFields(f: Fields)
    requires f.hours >= 100 && 0 <= f.minutes < 100 && 0 <= f.seconds < 100 && 0 <= f.hundredths < 100
    ensures var s := FormatFields(f);
            |s| == |NatToString(f.hours)| + 9 && s[..|s| - 9] == NatToString(f.hours)
  {
    var b, c, d := Padded(f.minutes), Padded(f.seconds), Padded(f.hundredths);
    PaddedLength(f.minutes);
    PaddedLength(f.seconds);
    PaddedLength(f.hundredths);
    LongFieldPrinted(f.hours);
    assert FormatFields(f) == Join(NatToString(f.hours), b, c, d);
    JoinPrefix(NatToString(f.hours), b, c, d);
  }

  lemma PaddedLength(n: int)
    requires 0 <= n < 100
    ensures |Padded(n)| == 2
  {
    TwoDigits(n);
  }

  /** A field of two or more digits is printed unpadded. */
  lemma LongFieldPrinted(n: int)
    requires n >= 10
    ensures Padded(n) == NatToString(n)
  {
  }
}
