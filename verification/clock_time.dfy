/** Departure-time handling: reading a departure time in one of the two clock
    formats the fare adjuster accepts, and the time-of-day brackets it prices by.
    A time of day is kept as minutes since midnight; seconds are always zero. */
module ClockTime {
  import opened Wrappers

  /** A time of day, as minutes since midnight. */
  type Minute = m: int | 0 <= m < 1440

  /** The departure time matched neither accepted clock format. */
  datatype TimeError = Unparsable(text: string)

  datatype Meridiem = AM | PM

  predicate IsDigit(c: char) {
    '0' <= c <= '9'
  }

  function DigitValue(c: char): (d: nat)
    requires IsDigit(c)
    ensures d < 10
  {
    (c as int) - ('0' as int)
  }

  function DigitChar(d: nat): (c: char)
    requires d < 10
    ensures IsDigit(c) && DigitValue(c) == d
  {
    (('0' as int) + d) as char
  }

  /** The value of a two-character decimal field, when both characters are digits. */
  function FieldValue(hi: char, lo: char): (r: Option<nat>)
    ensures r.Some? <==> IsDigit(hi) && IsDigit(lo)
    ensures r.Some? ==> r.value < 100
  {
    if IsDigit(hi) && IsDigit(lo) then Some(10 * DigitValue(hi) + DigitValue(lo)) else None
  }

  /** The two-character rendering of a number below 100, with a leading zero. */
  function Field(n: nat): (s: string)
    requires n < 100
    ensures |s| == 2 && FieldValue(s[0], s[1]) == Some(n)
  {
    [DigitChar(n / 10), DigitChar(n % 10)]
  }

  /** The "AM"/"PM" marker; the letters match in either case. */
  function ParseMeridiem(a: char, b: char): Option<Meridiem> {
    if b != 'M' && b != 'm' then None
    else if a == 'A' || a == 'a' then Some(AM)
    else if a == 'P' || a == 'p' then Some(PM)
    else None
  }

  /** The 24-hour-clock hour of hour `h` (1..12) of the 12-hour clock:
      12 AM is midnight, 12 PM is noon, every other PM hour is 12 later. */
  function To24(h: nat, md: Meridiem): (r: nat)
    requires 1 <= h <= 12
    ensures r < 24
    ensures r < 12 <==> md == AM
    ensures r % 12 == h % 12
  {
    match md
    case AM => if h == 12 then 0 else h
    case PM => if h == 12 then 12 else h + 12
  }

  /** The 12-hour format "hh:MM AM|PM": hour 01..12, minute 00..59. */
  function Parse12(s: string): (r: Option<Minute>)
    ensures r.Some? <==>
      |s| == 8 && s[2] == ':' && s[5] == ' ' && IsDigit(s[0]) && IsDigit(s[1]) && IsDigit(s[3]) && IsDigit(s[4])
      && 1 <= DigitValue(s[0]) * 10 + DigitValue(s[1]) <= 12 && DigitValue(s[3]) * 10 + DigitValue(s[4]) < 60
      && ParseMeridiem(s[6], s[7]).Some?
    ensures r.Some? ==>
      r.value % 60 == DigitValue(s[3]) * 10 + DigitValue(s[4])
      && (r.value / 60) % 12 == (DigitValue(s[0]) * 10 + DigitValue(s[1])) % 12
      && (r.value < 12 * 60 <==> ParseMeridiem(s[6], s[7]) == Some(AM))
  {
    if |s| != 8 || s[2] != ':' || s[5] != ' ' then None
    else
      var h, m, md := FieldValue(s[0], s[1]), FieldValue(s[3], s[4]), ParseMeridiem(s[6], s[7]);
      if h.Some? && m.Some? && md.Some? && 1 <= h.value <= 12 && m.value < 60
      then Some(To24(h.value, md.value) * 60 + m.value)
      else None
  }

  /** The 24-hour format "HH:MM": hour 00..23, minute 00..59. */
  function Parse24(s: string): (r: Option<Minute>)
    ensures r.Some? <==>
      |s| == 5 && s[2] == ':' && IsDigit(s[0]) && IsDigit(s[1]) && IsDigit(s[3]) && IsDigit(s[4])
      && DigitValue(s[0]) * 10 + DigitValue(s[1]) < 24 && DigitValue(s[3]) * 10 + DigitValue(s[4]) < 60
    ensures r.Some? ==>
      r.value / 60 == DigitValue(s[0]) * 10 + DigitValue(s[1]) && r.value % 60 == DigitValue(s[3]) * 10 + DigitValue(s[4])
  {
    if |s| != 5 || s[2] != ':' then None
    else
      var h, m := FieldValue(s[0], s[1]), FieldValue(s[3], s[4]);
      if h.Some? && m.Some? && h.value < 24 && m.value < 60 then Some(h.value * 60 + m.value) else None
  }

  /** A departure time is read as a 12-hour clock first and as a 24-hour clock
      when that fails; when neither matches the error reaches the caller. */
  function ParseTime(s: string): (r: Result<Minute, TimeError>)
    ensures r.Failure? ==> r.error == Unparsable(s)
    ensures r.Success? ==> |s| == 5 || |s| == 8
    ensures r.Success? <==> Parse12(s).Some? || Parse24(s).Some?
    ensures Parse12(s).Some? ==> r == Success(Parse12(s).value)
    ensures Parse24(s).Some? ==> r == Success(Parse24(s).value)
  {
    var twelve := Parse12(s);
    if twelve.Some? then Success(twelve.value)
    else
      var twentyFour := Parse24(s);
      if twentyFour.Some? then Success(twentyFour.value) else Failure(Unparsable(s))
  }

  /** The canonical 24-hour rendering of a time, "HH:MM". */
  function Format24(t: Minute): (s: string)
    ensures |s| == 5
  {
    Field(t / 60) + ":" + Field(t % 60)
  }

  /** The canonical 12-hour rendering of a time, "hh:MM AM" or "hh:MM PM". */
  function Format12(t: Minute): (s: string)
    ensures |s| == 8
  {
    var h := t / 60;
    Field(if h % 12 == 0 then 12 else h % 12) + ":" + Field(t % 60) + (if h < 12 then " AM" else " PM")
  }

  /** Every time of day written "HH:MM" is read back as that time. */
  lemma Format24RoundTrip(t: Minute)
    ensures ParseTime(Format24(t)) == Success(t)
  {
    var s := Format24(t);
    assert s[2] == ':';
    assert FieldValue(s[0], s[1]) == Some(t / 60);
    assert FieldValue(s[3], s[4]) == Some(t % 60);
  }

  /** Every time of day written "hh:MM AM|PM" is read back as that time. */
  lemma Format12RoundTrip(t: Minute)
    ensures ParseTime(Format12(t)) == Success(t)
  {
    var h := t / 60;
    var h12 := if h % 12 == 0 then 12 else h % 12;
    var md := if h < 12 then AM else PM;
    Format12Fields(t, h12, md);
    To24Inverse(h, h12, md);
    assert Parse12(Format12(t)) == Some(To24(h12, md) * 60 + t % 60);
  }

  /** The fields of the 12-hour rendering, as the 12-hour reading sees them. */
  lemma Format12Fields(t: Minute, h12: nat, md: Meridiem)
    requires h12 == (if (t / 60) % 12 == 0 then 12 else (t / 60) % 12)
    requires md == (if t / 60 < 12 then AM else PM)
    ensures var s := Format12(t);
      |s| == 8 && s[2] == ':' && s[5] == ' '
      && FieldValue(s[0], s[1]) == Some(h12) && FieldValue(s[3], s[4]) == Some(t % 60)
      && ParseMeridiem(s[6], s[7]) == Some(md)
  {
    var s := Format12(t);
    assert s[..2] == Field(h12) && s[3..5] == Field(t % 60);
    assert s[6..] == (if md == AM then "AM" else "PM");
  }

  /** The 12-hour hour and marker of a 24-hour hour lead back to it. */
  lemma To24Inverse(h: nat, h12: nat, md: Meridiem)
    requires h < 24
    requires h12 == (if h % 12 == 0 then 12 else h % 12)
    requires md == (if h < 12 then AM else PM)
    ensures 1 <= h12 <= 12 && To24(h12, md) == h
  {
  }

  /** A string read as a 24-hour time is the canonical rendering of that time:
      on its accepted strings the 24-hour reading is one-to-one. */
  lemma Parse24Canonical(s: string)
    requires Parse24(s).Some?
    ensures s == Format24(Parse24(s).value)
  {
    var t := Parse24(s).value;
    var h := FieldValue(s[0], s[1]).value;
    var m := FieldValue(s[3], s[4]).value;
    assert t / 60 == h && t % 60 == m;
    FieldCanonical(s[0], s[1]);
    FieldCanonical(s[3], s[4]);
    assert s == [s[0], s[1]] + ":" + [s[3], s[4]];
  }

  /** A string read as a 12-hour time whose marker is written "AM" or "PM" is the
      canonical rendering of that time. */
  lemma Parse12Canonical(s: string)
    requires Parse12(s).Some?
    requires s[6] in "AP" && s[7] == 'M'
    ensures s == Format12(Parse12(s).value)
  {
    var t := Parse12(s).value;
    var h12 := FieldValue(s[0], s[1]).value;
    var m := FieldValue(s[3], s[4]).value;
    var md := ParseMeridiem(s[6], s[7]).value;
    var h := To24(h12, md);
    assert t / 60 == h && t % 60 == m;
    assert (if h % 12 == 0 then 12 else h % 12) == h12;
    assert (if h < 12 then " AM" else " PM") == s[5..];
    FieldCanonical(s[0], s[1]);
    FieldCanonical(s[3], s[4]);
    assert s == [s[0], s[1]] + ":" + [s[3], s[4]] + s[5..];
  }

  /** A two-digit field is the rendering of the number it is read as. */
  lemma FieldCanonical(hi: char, lo: char)
    requires FieldValue(hi, lo).Some?
    ensures Field(FieldValue(hi, lo).value) == [hi, lo]
  {
    var n := FieldValue(hi, lo).value;
    assert n / 10 == DigitValue(hi) && n % 10 == DigitValue(lo);
  }

  // ---------------------------------------------------------------------------
  // Time-of-day brackets

  const EveningStart: Minute := 18 * 60
  const EveningEnd: Minute := 20 * 60
  const NightEnd: Minute := 23 * 60

  /** The departure-time brackets the fare adjuster prices by. */
  datatype Bracket = NoBracket | Evening | Night | LateNight

  /** The source's if/elif chain: [18:00, 20:00], then (20:00, 23:00], then
      after 23:00; anything earlier falls in no bracket. */
  function BracketOf(t: Minute): (r: Bracket)
    ensures InBracket(r, t)
  {
    if EveningStart <= t && t <= EveningEnd then Evening
    else if EveningEnd < t && t <= NightEnd then Night
    else if t > NightEnd then LateNight
    else NoBracket
  }

  /** The interval of the day each bracket covers, written independently of the
      order in which the source tests them. */
  predicate InBracket(b: Bracket, t: Minute) {
    match b
    case NoBracket => t < 18 * 60
    case Evening => 18 * 60 <= t <= 20 * 60
    case Night => 20 * 60 < t <= 23 * 60
    case LateNight => 23 * 60 < t
  }

  /** Exactly one bracket applies to any time of day: the one whose interval
      holds it. */
  lemma BracketIsInterval(t: Minute, b: Bracket)
    ensures BracketOf(t) == b <==> InBracket(b, t)
  {
  }

  /** The brackets follow each other through the day in a fixed order. */
  function BracketRank(b: Bracket): nat {
    match b
    case NoBracket => 0
    case Evening => 1
    case Night => 2
    case LateNight => 3
  }

  lemma BracketMonotone(t1: Minute, t2: Minute)
    requires t1 <= t2
    ensures BracketRank(BracketOf(t1)) <= BracketRank(BracketOf(t2))
  {
  }

  /** The boundary times, read the way the source reads them: 18:00 and 20:00
      close the evening bracket, 23:00 closes the night bracket. */
  lemma BracketBoundaries()
    ensures ParseTime("18:00") == Success(EveningStart) && BracketOf(EveningStart) == Evening
    ensures ParseTime("20:00") == Success(EveningEnd) && BracketOf(EveningEnd) == Evening
    ensures ParseTime("23:00") == Success(NightEnd) && BracketOf(NightEnd) == Night
    ensures BracketOf(EveningStart - 1) == NoBracket
    ensures BracketOf(EveningEnd + 1) == Night
    ensures BracketOf(NightEnd + 1) == LateNight
  {
  }
}
