/**
 * Timestamps as the fraud pipeline writes and reads them: the `%d-%m-%Y %H:%M`
 * text format that training data and the scoring service share (strptime and
 * strftime with that format), and the ISO 8601 text that `datetime.isoformat`
 * produces for the ledger's JSON responses.
 */
module Timestamp {
  import opened Wrappers

  /** The fields of a Python `datetime` (naive, microsecond precision). */
  datatype DateTimeFields = DateTimeFields(year: int, month: int, day: int,
                                           hour: int, minute: int, second: int, microsecond: int)
  {
    /** The ranges a `datetime` object enforces on construction (month lengths are not checked here). */
    predicate Valid() {
      && 1 <= year <= 9999 && 1 <= month <= 12 && 1 <= day <= 31
      && 0 <= hour <= 23 && 0 <= minute <= 59 && 0 <= second <= 59
      && 0 <= microsecond < 1000000
    }
  }

  type DateTime = d: DateTimeFields | d.Valid() witness DateTimeFields(1970, 1, 1, 0, 0, 0, 0)

  /** What parsing `%d-%m-%Y %H:%M` yields: a point in time with minute precision. */
  datatype ParsedTime = ParsedTime(day: int, month: int, year: int, hour: int, minute: int)
  {
    /** The field ranges the parser accepts. */
    predicate InRange() {
      1 <= day <= 31 && 1 <= month <= 12 && 1 <= year <= 9999 && 0 <= hour <= 23 && 0 <= minute <= 59
    }
  }

  // ---------------------------------------------------------------------------
  // Decimal digits

  predicate IsDigit(c: char) { '0' <= c <= '9' }

  predicate AllDigits(s: string) { forall i :: 0 <= i < |s| ==> IsDigit(s[i]) }

  function DigitValue(c: char): (d: nat)
    requires IsDigit(c)
    ensures d < 10
  {
    (c as int) - ('0' as int)
  }

  function DigitChar(d: nat): (c: char)
    requires d < 10
    ensures IsDigit(c) && DigitValue(c) == d
  {
    (('0' as int) + d) as char
  }

  function Pow10(n: nat): (p: nat)
    ensures p >= 1
  {
    if n == 0 then 1 else 10 * Pow10(n - 1)
  }

  /** The number a string of decimal digits denotes. */
  function DigitsValue(s: string): (v: nat)
    requires AllDigits(s)
    ensures v < Pow10(|s|)
  {
    if |s| == 0 then 0 else 10 * DigitsValue(s[..|s| - 1]) + DigitValue(s[|s| - 1])
  }

  /** `n` written with exactly `width` digits, zero padded, as `%02d`, `%04d` and `%06d` do. */
  function Pad(n: nat, width: nat): (s: string)
    requires n < Pow10(width)
    ensures |s| == width && AllDigits(s)
  {
    if width == 0 then [] else Pad(n / 10, width - 1) + [DigitChar(n % 10)]
  }

  /** Reading back a padded number gives the number. */
  lemma {:induction false} PadValue(n: nat, width: nat)
    requires n < Pow10(width)
    ensures DigitsValue(Pad(n, width)) == n
  {
    if width > 0 {
      var s := Pad(n, width);
      assert s[..width - 1] == Pad(n / 10, width - 1);
      PadValue(n / 10, width - 1);
    }
  }

  /** Padding the value of a digit string to its own width gives the string back. */
  lemma {:induction false} ValuePad(s: string)
    requires AllDigits(s)
    ensures Pad(DigitsValue(s), |s|) == s
  {
    if |s| > 0 {
      var init := s[..|s| - 1];
      ValuePad(init);
      var v := DigitsValue(s);
      assert v / 10 == DigitsValue(init) && v % 10 == DigitValue(s[|s| - 1]);
      assert s == init + [s[|s| - 1]];
    }
  }

  // ---------------------------------------------------------------------------
  // Groups of zero-padded numbers joined by a separator ("01-09-2025", "23:59")

  /** Two numbers padded to widths `w1`, `w2` and joined by `sep`. */
  function Join2(x: nat, w1: nat, y: nat, w2: nat, sep: char): (s: string)
    requires x < Pow10(w1) && y < Pow10(w2)
    ensures |s| == w1 + w2 + 1
  {
    Pad(x, w1) + [sep] + Pad(y, w2)
  }

  /** Reads back a `Join2` group; None for any other string. */
  function Split2(s: string, w1: nat, w2: nat, sep: char): (r: Option<(nat, nat)>)
    ensures r.Some? ==> r.value.0 < Pow10(w1) && r.value.1 < Pow10(w2)
  {
    if |s| == w1 + w2 + 1 && s[w1] == sep && AllDigits(s[..w1]) && AllDigits(s[w1 + 1..])
    then Some((DigitsValue(s[..w1]), DigitsValue(s[w1 + 1..])))
    else None
  }

  lemma {:induction false} Join2Split2(x: nat, w1: nat, y: nat, w2: nat, sep: char)
    requires x < Pow10(w1) && y < Pow10(w2)
    ensures Split2(Join2(x, w1, y, w2, sep), w1, w2, sep) == Some((x, y))
  {
    var s := Join2(x, w1, y, w2, sep);
    assert s[..w1] == Pad(x, w1) && s[w1 + 1..] == Pad(y, w2);
    PadValue(x, w1);
    PadValue(y, w2);
  }

  lemma {:induction false} Split2Join2(s: string, w1: nat, w2: nat, sep: char)
    requires Split2(s, w1, w2, sep).Some?
    ensures var v := Split2(s, w1, w2, sep).value; Join2(v.0, w1, v.1, w2, sep) == s
  {
    ValuePad(s[..w1]);
    ValuePad(s[w1 + 1..]);
    assert s == s[..w1] + [sep] + s[w1 + 1..];
  }

  /** Three numbers padded to widths `w1`, `w2`, `w3` and joined by `sep`. */
  function Join3(x: nat, w1: nat, y: nat, w2: nat, z: nat, w3: nat, sep: char): (s: string)
    requires x < Pow10(w1) && y < Pow10(w2) && z < Pow10(w3)
    ensures |s| == w1 + w2 + w3 + 2
  {
    Pad(x, w1) + [sep] + Join2(y, w2, z, w3, sep)
  }

  /** Reads back a `Join3` group; None for any other string. */
  function Split3(s: string, w1: nat, w2: nat, w3: nat, sep: char): (r: Option<(nat, nat, nat)>)
    ensures r.Some? ==> r.value.0 < Pow10(w1) && r.value.1 < Pow10(w2) && r.value.2 < Pow10(w3)
  {
    if |s| == w1 + w2 + w3 + 2 && s[w1] == sep && AllDigits(s[..w1]) && Split2(s[w1 + 1..], w2, w3, sep).Some?
    then
      var rest := Split2(s[w1 + 1..], w2, w3, sep).value;
      Some((DigitsValue(s[..w1]), rest.0, rest.1))
    else None
  }

  lemma {:induction false} Join3Split3(x: nat, w1: nat, y: nat, w2: nat, z: nat, w3: nat, sep: char)
    requires x < Pow10(w1) && y < Pow10(w2) && z < Pow10(w3)
    ensures Split3(Join3(x, w1, y, w2, z, w3, sep), w1, w2, w3, sep) == Some((x, y, z))
  {
    var s := Join3(x, w1, y, w2, z, w3, sep);
    assert s[..w1] == Pad(x, w1) && s[w1 + 1..] == Join2(y, w2, z, w3, sep);
    PadValue(x, w1);
    Join2Split2(y, w2, z, w3, sep);
  }

  lemma {:induction false} Split3Join3(s: string, w1: nat, w2: nat, w3: nat, sep: char)
    requires Split3(s, w1, w2, w3, sep).Some?
    ensures var v := Split3(s, w1, w2, w3, sep).value; Join3(v.0, w1, v.1, w2, v.2, w3, sep) == s
  {
    ValuePad(s[..w1]);
    Split2Join2(s[w1 + 1..], w2, w3, sep);
    assert s == s[..w1] + [sep] + s[w1 + 1..];
  }

  // ---------------------------------------------------------------------------
  // The `%d-%m-%Y %H:%M` format

  /** `strftime('%d-%m-%Y %H:%M')` of a minute-precision time. */
  function FormatParsed(p: ParsedTime): (s: string)
    requires p.InRange()
    ensures |s| == 16
  {
    Join3(p.day, 2, p.month, 2, p.year, 4, '-') + " " + Join2(p.hour, 2, p.minute, 2, ':')
  }

  /** The minute-precision part of a `datetime`: what the format keeps. */
  function Truncate(dt: DateTime): (p: ParsedTime)
    ensures p.InRange() && p.hour == dt.hour
  {
    ParsedTime(dt.day, dt.month, dt.year, dt.hour, dt.minute)
  }

  /** `dt.strftime('%d-%m-%Y %H:%M')`; seconds and microseconds are dropped. */
  function Strftime(dt: DateTime): (s: string)
    ensures |s| == 16
    ensures ParseTimestamp(s) == Some(Truncate(dt))
  {
    ParseFormatRoundTrip(Truncate(dt));
    FormatParsed(Truncate(dt))
  }

  /**
   * `pd.to_datetime(s, format="%d-%m-%Y %H:%M")` for one value: None stands for the
   * ValueError raised on a string that does not match the format or whose fields are out of range.
   */
  function ParseTimestamp(s: string): (r: Option<ParsedTime>)
    ensures |s| != 16 ==> r.None?
    ensures r.Some? ==> r.value.InRange() && 0 <= r.value.hour <= 23
  {
    if |s| == 16 && s[10] == ' ' && Split3(s[..10], 2, 2, 4, '-').Some? && Split2(s[11..], 2, 2, ':').Some? then
      var date := Split3(s[..10], 2, 2, 4, '-').value;
      var clock := Split2(s[11..], 2, 2, ':').value;
      var p := ParsedTime(date.0, date.1, date.2, clock.0, clock.1);
      if p.InRange() then Some(p) else None
    else None
  }

  /** Parsing what the format writes gives back the time it was written from. */
  lemma {:induction false} ParseFormatRoundTrip(p: ParsedTime)
    requires p.InRange()
    ensures ParseTimestamp(FormatParsed(p)) == Some(p)
  {
    var s := FormatParsed(p);
    assert s[..10] == Join3(p.day, 2, p.month, 2, p.year, 4, '-');
    assert s[11..] == Join2(p.hour, 2, p.minute, 2, ':');
    Join3Split3(p.day, 2, p.month, 2, p.year, 4, '-');
    Join2Split2(p.hour, 2, p.minute, 2, ':');
  }

  /** An accepted string splits at the space into its date group and its clock group. */
  lemma {:induction false} ParsedGroups(s: string)
    requires ParseTimestamp(s).Some?
    ensures Split3(s[..10], 2, 2, 4, '-').Some? && Split2(s[11..], 2, 2, ':').Some?
    ensures var date := Split3(s[..10], 2, 2, 4, '-').value;
            var clock := Split2(s[11..], 2, 2, ':').value;
            ParseTimestamp(s).value == ParsedTime(date.0, date.1, date.2, clock.0, clock.1)
    ensures s == s[..10] + " " + s[11..]
  {
  }

  /** A string the parser accepts is exactly what the format writes for the parsed time. */
  lemma {:induction false} FormatParseRoundTrip(s: string)
    requires ParseTimestamp(s).Some?
    ensures FormatParsed(ParseTimestamp(s).value) == s
  {
    ParsedGroups(s);
    var date := Split3(s[..10], 2, 2, 4, '-').value;
    var clock := Split2(s[11..], 2, 2, ':').value;
    Split3Join3(s[..10], 2, 2, 4, '-');
    Split2Join2(s[11..], 2, 2, ':');
    assert Join3(date.0, 2, date.1, 2, date.2, 4, '-') == s[..10];
    assert Join2(clock.0, 2, clock.1, 2, ':') == s[11..];
  }

  /** The service writes a `datetime` in this format; reading it back yields the same hour. */
  lemma {:induction false} StrftimeHour(dt: DateTime)
    ensures ParseTimestamp(Strftime(dt)).Some?
    ensures ParseTimestamp(Strftime(dt)).value.hour == dt.hour
  {
    ParseFormatRoundTrip(Truncate(dt));
  }

  // ---------------------------------------------------------------------------
  // ISO 8601 text, as `datetime.isoformat()` writes it

  /** `YYYY-MM-DDTHH:MM:SS`, followed by `.ffffff` only when the microseconds are not zero. */
  function IsoFormat(dt: DateTime): (s: string)
    ensures |s| == if dt.microsecond == 0 then 19 else 26
  {
    Join3(dt.year, 4, dt.month, 2, dt.day, 2, '-') + "T" + Join3(dt.hour, 2, dt.minute, 2, dt.second, 2, ':')
    + (if dt.microsecond == 0 then "" else "." + Pad(dt.microsecond, 6))
  }

  /** Reads back the text `IsoFormat` writes; None for any other string. */
  function FromIsoFormat(s: string): (r: Option<DateTime>)
    ensures r.Some? ==> |s| == 19 || |s| == 26
    ensures r.Some? ==> (|s| == 26 <==> r.value.microsecond != 0)
  {
    if && (|s| == 19 || (|s| == 26 && s[19] == '.' && AllDigits(s[20..])))
       && s[10] == 'T'
       && Split3(s[..10], 4, 2, 2, '-').Some? && Split3(s[11..19], 2, 2, 2, ':').Some?
    then
      var date := Split3(s[..10], 4, 2, 2, '-').value;
      var clock := Split3(s[11..19], 2, 2, 2, ':').value;
      var micro := if |s| == 26 then DigitsValue(s[20..]) else 0;
      var d := DateTimeFields(date.0, date.1, date.2, clock.0, clock.1, clock.2, micro);
      if d.Valid() && (|s| == 26 ==> micro != 0) then Some(d) else None
    else None
  }

  /** The pieces of an ISO text, by position. */
  lemma {:induction false} IsoFormatParts(dt: DateTime)
    ensures var s := IsoFormat(dt);
      && s[..10] == Join3(dt.year, 4, dt.month, 2, dt.day, 2, '-') && s[10] == 'T'
      && s[11..19] == Join3(dt.hour, 2, dt.minute, 2, dt.second, 2, ':')
      && (dt.microsecond != 0 ==> s[19] == '.' && s[20..] == Pad(dt.microsecond, 6))
  {
    var date := Join3(dt.year, 4, dt.month, 2, dt.day, 2, '-');
    var clock := Join3(dt.hour, 2, dt.minute, 2, dt.second, 2, ':');
    var head := date + "T" + clock;
    var tail := if dt.microsecond == 0 then "" else "." + Pad(dt.microsecond, 6);
    assert |date| == 10 && |clock| == 8;
    assert head[..10] == date && head[10] == 'T' && head[11..] == clock;
    var s := IsoFormat(dt);
    assert s == head + tail;
    assert s[..19] == head && s[19..] == tail;
  }

  /** `IsoFormat` loses nothing: reading its text back gives the original `datetime`. */
  lemma {:induction false} IsoFormatRoundTrip(dt: DateTime)
    ensures FromIsoFormat(IsoFormat(dt)) == Some(dt)
  {
    IsoFormatParts(dt);
    Join3Split3(dt.year, 4, dt.month, 2, dt.day, 2, '-');
    Join3Split3(dt.hour, 2, dt.minute, 2, dt.second, 2, ':');
    if dt.microsecond != 0 {
      PadValue(dt.microsecond, 6);
    }
  }

  /** Two different `datetime`s never share ISO text. */
  lemma {:induction false} IsoFormatInjective(a: DateTime, b: DateTime)
    requires IsoFormat(a) == IsoFormat(b)
    ensures a == b
  {
    IsoFormatRoundTrip(a);
    IsoFormatRoundTrip(b);
  }
}
