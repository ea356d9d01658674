/**
 * Where a recording is written: `getVIPCDirectory` and `formattedDate`
 * (RecordViewController.swift, lines 119-121, 170-184).
 *
 * The file is `<documents>/vipc/<yyyy-MM-dd_HH-mm-ss>.php`. The documents
 * directory and the wall-clock fields are inputs; the clock, the calendar,
 * the locale and the directory creation on disk are not modelled. Paths are
 * sequences of path components, each `appendingPathComponent` adding one.
 */
module RecordingPath {
  import opened Wrappers

  /** The calendar fields `DateFormatter` renders for the current date. */
  datatype DateTime = DateTime(year: nat, month: nat, day: nat, hour: nat, minute: nat, second: nat)

  /** A file path as its sequence of components. */
  type Path = seq<string>

  const DirectoryName: string := "vipc"
  const Extension: string := ".php"

  predicate IsDigit(c: char) { '0' <= c <= '9' }

  predicate AllDigits(s: string) { forall i :: 0 <= i < |s| ==> IsDigit(s[i]) }

  function DigitChar(d: nat): (c: char)
    requires d < 10
    ensures IsDigit(c) && DigitValue(c) == d
  {
    ('0' as int + d) as char
  }

  function DigitValue(c: char): (d: nat)
    requires IsDigit(c)
    ensures d < 10
  {
    c as int - '0' as int
  }

  /** The number a string of decimal digits denotes (leading zeros allowed). */
  function Value(s: string): nat
    requires AllDigits(s)
  {
    if s == [] then 0 else 10 * Value(s[..|s| - 1]) + DigitValue(s[|s| - 1])
  }

  function Pow10(k: nat): (p: nat)
    ensures p >= 1
  {
    if k == 0 then 1 else 10 * Pow10(k - 1)
  }

  /** The decimal digits of `n`, without leading zeros. */
  function Decimal(n: nat): (s: string)
    ensures 1 <= |s| && AllDigits(s)
    ensures Value(s) == n
    ensures s[0] == '0' ==> n == 0 && |s| == 1
  {
    if n < 10 then [DigitChar(n)]
    else
      var s := Decimal(n / 10) + [DigitChar(n % 10)];
      assert s[..|s| - 1] == Decimal(n / 10);
      s
  }

  function Zeros(k: nat): (s: string)
    ensures |s| == k && AllDigits(s)
    ensures forall i :: 0 <= i < k ==> s[i] == '0'
  {
    if k == 0 then [] else Zeros(k - 1) + ['0']
  }

  /**
   * `n` in decimal, left-padded with zeros to at least `width` digits: the
   * rendering of the `yyyy`, `MM`, `dd`, `HH`, `mm` and `ss` pattern letters.
   */
  function Pad(n: nat, width: nat): (s: string)
    ensures width <= |s| && AllDigits(s)
  {
    var d := Decimal(n);
    (if |d| < width then Zeros(width - |d|) else []) + d
  }

  /** The pattern `yyyy-MM-dd_HH-mm-ss` of `formattedDate`. */
  function FormattedDate(t: DateTime): (s: string)
    ensures 19 <= |s|
  {
    Joined(Pad(t.year, 4), Pad(t.month, 2), Pad(t.day, 2), Pad(t.hour, 2), Pad(t.minute, 2), Pad(t.second, 2))
  }

  /** The six rendered fields with the pattern's literal separators between them. */
  function Joined(year: string, month: string, day: string, hour: string, minute: string, second: string): string
  {
    year + "-" + month + "-" + day + "_" + hour + "-" + minute + "-" + second
  }

  /** The fields fit the pattern's widths (a year of at most four digits). */
  predicate FitsPattern(t: DateTime)
  {
    t.year < 10000 && t.month < 100 && t.day < 100
    && t.hour < 100 && t.minute < 100 && t.second < 100
  }

  /** Reads a timestamp back from a string of the form `yyyy-MM-dd_HH-mm-ss`. */
  function ParseTimestamp(s: string): Option<DateTime>
  {
    if |s| == 19 && s[4] == '-' && s[7] == '-' && s[10] == '_' && s[13] == '-' && s[16] == '-'
       && AllDigits(s[0..4]) && AllDigits(s[5..7]) && AllDigits(s[8..10])
       && AllDigits(s[11..13]) && AllDigits(s[14..16]) && AllDigits(s[17..19])
    then Some(DateTime(Value(s[0..4]), Value(s[5..7]), Value(s[8..10]),
                       Value(s[11..13]), Value(s[14..16]), Value(s[17..19])))
    else None
  }

  /** `getVIPCDirectory`: the `vipc` folder under the documents directory. */
  function VipcDirectory(documents: Path): (p: Path)
    ensures documents < p && p[|documents|] == DirectoryName && |p| == |documents| + 1
  {
    documents + [DirectoryName]
  }

  /** The URL the settle closure passes to `startRecording(to:)`. */
  function RecordingURL(documents: Path, now: DateTime): (p: Path)
    ensures VipcDirectory(documents) < p && |p| == |documents| + 2
  {
    VipcDirectory(documents) + [FormattedDate(now) + Extension]
  }

  /** Splits a recording URL back into the documents directory and the timestamp. */
  function ParseRecordingURL(p: Path): Option<(Path, DateTime)>
  {
    if |p| >= 2 && p[|p| - 2] == DirectoryName
       && |p[|p| - 1]| >= |Extension| && p[|p| - 1][|p[|p| - 1]| - |Extension|..] == Extension
    then
      var name := p[|p| - 1];
      match ParseTimestamp(name[..|name| - |Extension|])
      case Some(t) => Some((p[..|p| - 2], t))
      case None => None
    else None
  }

  // ---------------------------------------------------------------------
  // Digit strings

  lemma {:induction false} ValueOfZerosPrefix(k: nat, s: string)
    requires AllDigits(s)
    ensures AllDigits(Zeros(k) + s) && Value(Zeros(k) + s) == Value(s)
  {
    var z := Zeros(k) + s;
    if s == [] {
      assert z == Zeros(k);
      ValueOfZeros(k);
    } else {
      assert z[..|z| - 1] == Zeros(k) + s[..|s| - 1];
      ValueOfZerosPrefix(k, s[..|s| - 1]);
    }
  }

  lemma {:induction false} ValueOfZeros(k: nat)
    ensures Value(Zeros(k)) == 0
  {
    if k > 0 {
      assert Zeros(k)[..k - 1] == Zeros(k - 1);
      ValueOfZeros(k - 1);
    }
  }

  lemma {:induction false} DecimalLength(n: nat, width: nat)
    requires 1 <= width && n < Pow10(width)
    ensures |Decimal(n)| <= width
  {
    if n >= 10 {
      DecimalLength(n / 10, width - 1);
    }
  }

  /** Padding keeps the value and reaches exactly `width` digits when `n` fits. */
  lemma PadFits(n: nat, width: nat)
    requires 1 <= width && n < Pow10(width)
    ensures AllDigits(Pad(n, width)) && |Pad(n, width)| == width && Value(Pad(n, width)) == n
  {
    DecimalLength(n, width);
    var d := Decimal(n);
    var k := width - |d|;
    assert Pad(n, width) == Zeros(k) + d;
    ValueOfZerosPrefix(k, d);
  }

  lemma {:induction false} ZeroValueIsZeros(s: string)
    requires AllDigits(s) && Value(s) == 0
    ensures s == Zeros(|s|)
  {
    if s != [] {
      ZeroValueIsZeros(s[..|s| - 1]);
      assert s == s[..|s| - 1] + [s[|s| - 1]];
    }
  }

  /** Padding a digit string's value back to its own width gives the string again. */
  lemma {:induction false} PadOfValue(s: string)
    requires 1 <= |s| && AllDigits(s)
    ensures Pad(Value(s), |s|) == s
  {
    var init, last := s[..|s| - 1], s[|s| - 1];
    assert s == init + [last];
    if Value(init) == 0 {
      PadAfterZeros(init, last);
    } else {
      PadOfValue(init);
      PadAppendDigit(init, last);
    }
  }

  /** Leading zeros and one digit: the value is that digit, padded back with the same zeros. */
  lemma PadAfterZeros(init: string, last: char)
    requires AllDigits(init) && Value(init) == 0 && IsDigit(last)
    ensures Pad(Value(init + [last]), |init| + 1) == init + [last]
  {
    ValueAppend(init, last);
    assert Value(init + [last]) == DigitValue(last);
    ZeroValueIsZeros(init);
    PadDigit(|init|, last);
  }

  /** A single digit padded to `width + 1` places is `width` zeros and that digit. */
  lemma PadDigit(width: nat, last: char)
    requires IsDigit(last)
    ensures Pad(DigitValue(last), width + 1) == Zeros(width) + [last]
  {
    assert DigitChar(DigitValue(last)) == last;
    assert Decimal(DigitValue(last)) == [last];
  }

  /** A digit appended to a padded field with a non-zero value keeps the padding and extends the decimal form. */
  lemma {:induction false} PadAppendDigit(init: string, last: char)
    requires AllDigits(init) && Value(init) > 0 && Pad(Value(init), |init|) == init && IsDigit(last)
    ensures Pad(Value(init + [last]), |init| + 1) == init + [last]
  {
    ValueAppend(init, last);
    PadStep(Value(init), |init|, last);
  }

  /** Padding a number above nine to one more place is padding its tens and appending its last digit. */
  lemma PadStep(v: nat, width: nat, last: char)
    requires v > 0 && IsDigit(last)
    ensures Pad(10 * v + DigitValue(last), width + 1) == Pad(v, width) + [last]
  {
    DecimalAppend(v, DigitValue(last));
    var d := Decimal(v);
    var z := if |d| < width then Zeros(width - |d|) else [];
    assert Pad(v, width) == z + d;
    assert Pad(10 * v + DigitValue(last), width + 1) == z + (d + [last]);
    assert z + (d + [last]) == z + d + [last];
  }

  /** Appending a digit multiplies the value by ten and adds the digit. */
  lemma ValueAppend(init: string, last: char)
    requires AllDigits(init) && IsDigit(last)
    ensures AllDigits(init + [last]) && Value(init + [last]) == 10 * Value(init) + DigitValue(last)
  {
    assert (init + [last])[..|init|] == init;
  }

  /** The decimal form of a number above nine is that of its tens followed by its last digit. */
  lemma DecimalAppend(v: nat, k: nat)
    requires v > 0 && k < 10
    ensures Decimal(10 * v + k) == Decimal(v) + [DigitChar(k)]
  {
    assert (10 * v + k) / 10 == v && (10 * v + k) % 10 == k;
  }

  lemma JoinedLayout(year: string, month: string, day: string, hour: string, minute: string, second: string)
    requires |year| == 4 && |month| == |day| == |hour| == |minute| == |second| == 2
    ensures var s := Joined(year, month, day, hour, minute, second);
      |s| == 19 && s[4] == '-' && s[7] == '-' && s[10] == '_' && s[13] == '-' && s[16] == '-'
      && s[0..4] == year && s[5..7] == month && s[8..10] == day
      && s[11..13] == hour && s[14..16] == minute && s[17..19] == second
  {
    var p1 := year + "-";
    var p2 := p1 + month + "-";
    var p3 := p2 + day + "_";
    var p4 := p3 + hour + "-";
    var p5 := p4 + minute + "-";
    var s := p5 + second;
    assert s[..|p5|] == p5 && s[17..19] == second;
    assert p5[..|p4|] == p4 && p5[14..16] == minute;
    assert p4[..|p3|] == p3 && p4[11..13] == hour;
    assert p3[..|p2|] == p2 && p3[8..10] == day;
    assert p2[..|p1|] == p1 && p2[5..7] == month;
    assert s[14..16] == p5[14..16];
    assert s[11..13] == p4[11..13];
    assert s[8..10] == p3[8..10];
    assert s[5..7] == p2[5..7];
    assert s[0..4] == year;
  }

  lemma FormattedDateLayout(t: DateTime)
    requires FitsPattern(t)
    ensures var s := FormattedDate(t);
      |s| == 19 && s[4] == '-' && s[7] == '-' && s[10] == '_' && s[13] == '-' && s[16] == '-'
      && s[0..4] == Pad(t.year, 4) && s[5..7] == Pad(t.month, 2) && s[8..10] == Pad(t.day, 2)
      && s[11..13] == Pad(t.hour, 2) && s[14..16] == Pad(t.minute, 2) && s[17..19] == Pad(t.second, 2)
  {
    PadFits(t.year, 4);
    PadFits(t.month, 2);
    PadFits(t.day, 2);
    PadFits(t.hour, 2);
    PadFits(t.minute, 2);
    PadFits(t.second, 2);
    JoinedLayout(Pad(t.year, 4), Pad(t.month, 2), Pad(t.day, 2), Pad(t.hour, 2), Pad(t.minute, 2), Pad(t.second, 2));
  }

  /** The timestamp in a file name determines the date it was formatted from. */
  lemma TimestampRoundTrip(t: DateTime)
    requires FitsPattern(t)
    ensures ParseTimestamp(FormattedDate(t)) == Some(t)
  {
    FormattedDateLayout(t);
    PadFits(t.year, 4);
    PadFits(t.month, 2);
    PadFits(t.day, 2);
    PadFits(t.hour, 2);
    PadFits(t.minute, 2);
    PadFits(t.second, 2);
  }

  /** Every string the parser accepts is exactly the formatting of what it yields. */
  lemma TimestampParseFormat(s: string, t: DateTime)
    requires ParseTimestamp(s) == Some(t)
    ensures FitsPattern(t) && FormattedDate(t) == s
  {
    ParsedFields(s, t);
    FieldRoundTrip(s[0..4]);
    FieldRoundTrip(s[5..7]);
    FieldRoundTrip(s[8..10]);
    FieldRoundTrip(s[11..13]);
    FieldRoundTrip(s[14..16]);
    FieldRoundTrip(s[17..19]);
    assert FormattedDate(t) == Joined(s[0..4], s[5..7], s[8..10], s[11..13], s[14..16], s[17..19]);
    SlicesRejoin(s);
  }

  /** A parsed timestamp has the fixed layout, and each field is the value of its digit slice. */
  lemma ParsedFields(s: string, t: DateTime)
    requires ParseTimestamp(s) == Some(t)
    ensures |s| == 19 && s[4] == '-' && s[7] == '-' && s[10] == '_' && s[13] == '-' && s[16] == '-'
    ensures AllDigits(s[0..4]) && AllDigits(s[5..7]) && AllDigits(s[8..10])
    ensures AllDigits(s[11..13]) && AllDigits(s[14..16]) && AllDigits(s[17..19])
    ensures t == DateTime(Value(s[0..4]), Value(s[5..7]), Value(s[8..10]), Value(s[11..13]), Value(s[14..16]), Value(s[17..19]))
  {
  }

  lemma FieldRoundTrip(f: string)
    requires 1 <= |f| && AllDigits(f)
    ensures Pad(Value(f), |f|) == f && Value(f) < Pow10(|f|)
  {
    PadOfValue(f);
    ValueBound(f);
  }

  /** A 19-character string with the pattern's separators is the join of its six fields. */
  lemma SlicesRejoin(s: string)
    requires |s| == 19 && s[4] == '-' && s[7] == '-' && s[10] == '_' && s[13] == '-' && s[16] == '-'
    ensures Joined(s[0..4], s[5..7], s[8..10], s[11..13], s[14..16], s[17..19]) == s
  {
    JoinedLayout(s[0..4], s[5..7], s[8..10], s[11..13], s[14..16], s[17..19]);
    var j := Joined(s[0..4], s[5..7], s[8..10], s[11..13], s[14..16], s[17..19]);
    forall i | 0 <= i < 19 ensures j[i] == s[i] {
      if i < 4 { assert j[0..4][i] == s[0..4][i]; }
      else if 4 < i < 7 { assert j[5..7][i - 5] == s[5..7][i - 5]; }
      else if 7 < i < 10 { assert j[8..10][i - 8] == s[8..10][i - 8]; }
      else if 10 < i < 13 { assert j[11..13][i - 11] == s[11..13][i - 11]; }
      else if 13 < i < 16 { assert j[14..16][i - 14] == s[14..16][i - 14]; }
      else if 16 < i { assert j[17..19][i - 17] == s[17..19][i - 17]; }
    }
  }

  lemma {:induction false} ValueBound(s: string)
    requires AllDigits(s)
    ensures Value(s) < Pow10(|s|)
  {
    if s != [] {
      ValueBound(s[..|s| - 1]);
    }
  }

  /** Two different dates never share a recording file name. */
  lemma FormattedDateInjective(a: DateTime, b: DateTime)
    requires FitsPattern(a) && FitsPattern(b) && a != b
    ensures FormattedDate(a) != FormattedDate(b)
  {
    TimestampRoundTrip(a);
    TimestampRoundTrip(b);
  }

  /** The recording URL lies in `<documents>/vipc` and names its date, which can be read back. */
  lemma RecordingURLRoundTrip(documents: Path, t: DateTime)
    requires FitsPattern(t)
    ensures var p := RecordingURL(documents, t);
      |p| == |documents| + 2 && p[..|documents|] == documents && p[|documents|] == DirectoryName
      && ParseRecordingURL(p) == Some((documents, t))
  {
    var p := RecordingURL(documents, t);
    var name := FormattedDate(t) + Extension;
    assert p[|p| - 1] == name;
    assert name[..|name| - |Extension|] == FormattedDate(t);
    assert name[|name| - |Extension|..] == Extension;
    assert p[..|p| - 2] == documents;
    TimestampRoundTrip(t);
  }

  /** Every path the parser accepts is the recording URL of what it yields. */
  lemma RecordingURLParseFormat(p: Path, documents: Path, t: DateTime)
    requires ParseRecordingURL(p) == Some((documents, t))
    ensures FitsPattern(t) && RecordingURL(documents, t) == p
  {
    var name := p[|p| - 1];
    var stamp := name[..|name| - |Extension|];
    TimestampParseFormat(stamp, t);
    assert name == stamp + Extension;
    assert p == p[..|p| - 2] + [DirectoryName] + [name];
  }

  /** Recordings started at different dates (or in different directories) get different URLs. */
  lemma RecordingURLInjective(d1: Path, t1: DateTime, d2: Path, t2: DateTime)
    requires FitsPattern(t1) && FitsPattern(t2) && (d1, t1) != (d2, t2)
    ensures RecordingURL(d1, t1) != RecordingURL(d2, t2)
  {
    RecordingURLRoundTrip(d1, t1);
    RecordingURLRoundTrip(d2, t2);
  }
}
