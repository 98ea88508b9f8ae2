/**
 * The health report: reading the server's answer into an overall status and
 * the status of the Chromium and LibreOffice modules, and the permissive
 * reading of the timestamps in it (the `date-time` production of section 5.6
 * of RFC 3339, with a space or `t` also accepted as separator and any text
 * after the zone ignored).
 */
module Health {
  import opened Strings
  import opened Errors

  const HEALTH_ENDPOINT: string := "/health"

  // ------------------------------------------------------------ timestamps

  /** A time zone: none given, UTC (`Z`), or a fixed offset in minutes east of UTC. */
  datatype Zone = Naive | Utc | Offset(minutes: int)

  datatype DateTime = DateTime(year: int, month: int, day: int, hour: int, minute: int, second: int,
                               microsecond: int, zone: Zone)

  predicate IsLeap(year: int)
  {
    year % 4 == 0 && (year % 100 != 0 || year % 400 == 0)
  }

  function DaysInMonth(year: int, month: int): (d: int)
    requires 1 <= month <= 12
    ensures 28 <= d <= 31
  {
    if month == 2 then (if IsLeap(year) then 29 else 28)
    else if month == 4 || month == 6 || month == 9 || month == 11 then 30
    else 31
  }

  /**
   * The fields a date and time may have: years 1 to 9999, a real day of the
   * month, and an offset of less than a day either way.
   */
  predicate ValidDateTime(dt: DateTime)
  {
    1 <= dt.year <= 9999 && 1 <= dt.month <= 12 && 1 <= dt.day <= DaysInMonth(dt.year, dt.month) &&
    0 <= dt.hour < 24 && 0 <= dt.minute < 60 && 0 <= dt.second < 60 &&
    0 <= dt.microsecond < 1000000 &&
    (dt.zone.Offset? ==> -1440 < dt.zone.minutes < 1440)
  }

  /** `n` decimal digits start at position `i` of `s`. */
  predicate DigitsAt(s: string, i: nat, n: nat)
  {
    i + n <= |s| && forall k :: i <= k < i + n ==> IsDigit(s[k])
  }

  /** The number the `n` digits at position `i` spell. */
  function Field(s: string, i: nat, n: nat): nat
    requires DigitsAt(s, i, n)
  {
    DigitsValue(s[i..i + n])
  }

  /** `YYYY-MM-DD`, one of space, `t` or `T`, then `HH:MM:SS`, at the start of `s`. */
  predicate HasHead(s: string)
  {
    |s| >= 19 && DigitsAt(s, 0, 4) && s[4] == '-' && DigitsAt(s, 5, 2) && s[7] == '-' && DigitsAt(s, 8, 2) &&
    (s[10] == ' ' || s[10] == 't' || s[10] == 'T') &&
    DigitsAt(s, 11, 2) && s[13] == ':' && DigitsAt(s, 14, 2) && s[16] == ':' && DigitsAt(s, 17, 2)
  }

  /** The length of the run of digits starting at position `i`. */
  function DigitRun(s: string, i: nat): (n: nat)
    requires i <= |s|
    ensures DigitsAt(s, i, n)
    ensures i + n == |s| || !IsDigit(s[i + n])
    decreases |s| - i
  {
    if i < |s| && IsDigit(s[i]) then 1 + DigitRun(s, i + 1) else 0
  }

  /** The number of fraction digits after the seconds: a dot counts only when a digit follows it. */
  function FractionLength(s: string): (n: nat)
    requires HasHead(s)
    ensures n > 0 ==> |s| > 19 && s[19] == '.' && DigitsAt(s, 20, n)
  {
    if |s| > 19 && s[19] == '.' then DigitRun(s, 20) else 0
  }

  /**
   * The microseconds of a fraction: its value scaled to millionths and
   * truncated, so digits past the sixth are dropped.
   */
  function Microseconds(s: string): int
    requires HasHead(s)
  {
    var n := FractionLength(s);
    if n == 0 then 0 else Truncated(Field(s, 20, n), n)
  }

  /** A fraction of `n` digits spelling `v`, in millionths, truncated. */
  function Truncated(v: nat, n: nat): int
  {
    var p := Pow10(n);
    (v * 1000000) / p
  }

  /** `z` or `Z`, or a sign with `HH:MM`, at position `j`; anything else leaves the time naive. */
  function ZoneAt(s: string, j: nat): Zone
  {
    if j < |s| && (s[j] == 'z' || s[j] == 'Z') then Utc
    else if j + 6 <= |s| && (s[j] == '+' || s[j] == '-') && DigitsAt(s, j + 1, 2) && s[j + 3] == ':' && DigitsAt(s, j + 4, 2) then
      var sign := if s[j] == '-' then -1 else 1;
      Offset(sign * (Field(s, j + 1, 2) * 60 + Field(s, j + 4, 2)))
    else Naive
  }

  /**
   * Reads a timestamp: an input that does not start with a date and a time
   * is refused, and so is one whose fields name no real moment.
   */
  function ParseTimestamp(s: string): (r: Result<DateTime>)
    ensures !HasHead(s) ==> r == Err(ValueError)
    ensures r.Ok? ==> ValidDateTime(r.value)
    ensures r.Err? ==> r.error == ValueError
  {
    if !HasHead(s) then Err(ValueError)
    else
      var dt := DateTime(Field(s, 0, 4), Field(s, 5, 2), Field(s, 8, 2), Field(s, 11, 2), Field(s, 14, 2), Field(s, 17, 2),
                         Microseconds(s), ZoneAt(s, 19 + (if FractionLength(s) > 0 then 1 + FractionLength(s) else 0)));
      if ValidDateTime(dt) then Ok(dt) else Err(ValueError)
  }

  /** The timestamp without a fraction has no microseconds; without a zone it is naive. */
  lemma WholeSecondsNaive(s: string)
    requires HasHead(s) && |s| == 19
    ensures ParseTimestamp(s).Ok? ==> ParseTimestamp(s).value.microsecond == 0 && ParseTimestamp(s).value.zone == Naive
  {
  }

  /** Which of space, `t` or `T` separates the date from the time makes no difference. */
  lemma SeparatorIgnored(s: string, c: char)
    requires |s| > 10 && (s[10] == ' ' || s[10] == 't' || s[10] == 'T')
    requires c == ' ' || c == 't' || c == 'T'
    ensures ParseTimestamp(s[10 := c]) == ParseTimestamp(s)
  {
    var t := s[10 := c];
    SameHead(s, t);
    if HasHead(s) {
      assert t[19..] == s[19..];
      SameTailSameEnd(s, t);
    }
  }

  /** Texts that differ only in which separator they use have the same head fields. */
  lemma SameHead(s: string, t: string)
    requires |s| == |t| > 10
    requires forall k :: 0 <= k < |s| && k != 10 ==> t[k] == s[k]
    requires (s[10] == ' ' || s[10] == 't' || s[10] == 'T') && (t[10] == ' ' || t[10] == 't' || t[10] == 'T')
    ensures HasHead(t) == HasHead(s)
    ensures HasHead(s) ==>
      Field(s, 0, 4) == Field(t, 0, 4) && Field(s, 5, 2) == Field(t, 5, 2) && Field(s, 8, 2) == Field(t, 8, 2) &&
      Field(s, 11, 2) == Field(t, 11, 2) && Field(s, 14, 2) == Field(t, 14, 2) && Field(s, 17, 2) == Field(t, 17, 2)
  {
    if HasHead(s) {
      assert t[0..4] == s[0..4] && t[5..7] == s[5..7] && t[8..10] == s[8..10];
      assert t[11..13] == s[11..13] && t[14..16] == s[14..16] && t[17..19] == s[17..19];
    }
  }

  /** Two texts with the same head shape that agree from position 19 on read the same fraction and zone. */
  lemma SameTailSameEnd(s: string, t: string)
    requires HasHead(s) && HasHead(t) && |s| == |t| && s[19..] == t[19..]
    ensures FractionLength(s) == FractionLength(t)
    ensures FractionLength(s) > 0 ==> Field(s, 20, FractionLength(s)) == Field(t, 20, FractionLength(t))
    ensures forall j :: 19 <= j ==> ZoneAt(s, j) == ZoneAt(t, j)
  {
    assert forall k :: 19 <= k < |s| ==> s[k] == s[19..][k - 19] == t[k];
    if |s| > 19 && s[19] == '.' {
      DigitRunAgree(s, t, 20);
      var n := FractionLength(s);
      assert s[20..20 + n] == t[20..20 + n];
    }
    forall j | 19 <= j
      ensures ZoneAt(s, j) == ZoneAt(t, j)
    {
      SameZone(s, t, j);
    }
  }

  /** The zone at `j` depends only on the text from `j` on. */
  lemma SameZone(s: string, t: string, j: nat)
    requires |s| == |t| && forall k :: j <= k < |s| ==> s[k] == t[k]
    ensures ZoneAt(s, j) == ZoneAt(t, j)
  {
    if j + 6 <= |s| {
      assert s[j + 1..j + 3] == t[j + 1..j + 3];
      assert s[j + 4..j + 6] == t[j + 4..j + 6];
    }
  }

  /** The digit run from `i` depends only on the text from `i` on. */
  lemma {:induction false} DigitRunAgree(s: string, t: string, i: nat)
    requires i <= |s| == |t|
    requires forall k :: i <= k < |s| ==> s[k] == t[k]
    ensures DigitRun(s, i) == DigitRun(t, i)
    decreases |s| - i
  {
    if i < |s| {
      DigitRunAgree(s, t, i + 1);
    }
  }

  /** The zone text written for a date and time: nothing, `Z`, or a sign with `HH:MM`. */
  function ZoneText(z: Zone): (t: string)
    requires z.Offset? ==> -1440 < z.minutes < 1440
    ensures z.Naive? ==> t == ""
    ensures z.Utc? ==> t == "Z"
    ensures z.Offset? ==> |t| == 6 && t[3] == ':' && (t[0] == '-' <==> z.minutes < 0) && (t[0] == '+' <==> z.minutes >= 0)
  {
    match z
    case Naive => ""
    case Utc => "Z"
    case Offset(m) =>
      var a := if m < 0 then -m else m;
      (if m < 0 then "-" else "+") + PadDigits(a / 60, 2) + ":" + PadDigits(a % 60, 2)
  }

  /** The date and time as the server writes it: `YYYY-MM-DDTHH:MM:SS`. */
  function HeadText(dt: DateTime): (t: string)
    requires ValidDateTime(dt)
    ensures |t| == 19
  {
    PadDigits(dt.year, 4) + "-" + PadDigits(dt.month, 2) + "-" + PadDigits(dt.day, 2) + "T" +
    PadDigits(dt.hour, 2) + ":" + PadDigits(dt.minute, 2) + ":" + PadDigits(dt.second, 2)
  }

  /** A timestamp with six fraction digits and its zone. */
  function FormatTimestamp(dt: DateTime): (t: string)
    requires ValidDateTime(dt)
    ensures |t| >= 26 && t[..19] == HeadText(dt)
  {
    HeadText(dt) + "." + PadDigits(dt.microsecond, 6) + ZoneText(dt.zone)
  }

  /** Text that, placed after a naive timestamp, is not read as more fraction digits or a zone. */
  predicate EndsNaive(rest: string)
  {
    rest == [] || !(IsDigit(rest[0]) || rest[0] == 'z' || rest[0] == 'Z' || rest[0] == '+' || rest[0] == '-')
  }

  /**
   * Reading a written timestamp gives it back, whatever text follows it (as
   * long as a naive one is not followed by digits or a zone).
   */
  lemma ParseFormatRoundTrip(dt: DateTime, rest: string)
    requires ValidDateTime(dt)
    requires dt.zone.Naive? ==> EndsNaive(rest)
    ensures ParseTimestamp(FormatTimestamp(dt) + rest) == Ok(dt)
  {
    var s := FormatTimestamp(dt) + rest;
    var zone := ZoneText(dt.zone);
    Layout(HeadText(dt), PadDigits(dt.microsecond, 6), zone, rest);
    assert 26 == |s| || !IsDigit(s[26]) by {
      if 26 < |s| {
        if dt.zone.Naive? {
          assert s[26] == rest[0];
        } else {
          assert s[26] == zone[0];
        }
      }
    }
    ParseParts(s, dt, rest);
  }

  /** Where the pieces of a written timestamp sit in it. */
  lemma Layout(head: string, frac: string, zone: string, rest: string)
    requires |head| == 19 && |frac| == 6
    ensures var s := head + "." + frac + zone + rest;
      s == head + s[19..] && s[19] == '.' && s[20..26] == frac && s == s[..26] + zone + rest &&
      (26 < |s| ==> s[26] == (zone + rest)[0])
  {
    var s := head + "." + frac + zone + rest;
    assert s[..19] == head;
    assert s[19..] == "." + frac + zone + rest;
    assert s[..26] == head + "." + frac;
  }

  /** A text made of a written head, six fraction digits and a written zone reads as the date and time. */
  lemma ParseParts(s: string, dt: DateTime, rest: string)
    requires ValidDateTime(dt)
    requires dt.zone.Naive? ==> EndsNaive(rest)
    requires |s| >= 26 && s == HeadText(dt) + s[19..]
    requires s[19] == '.' && s[20..26] == PadDigits(dt.microsecond, 6)
    requires 26 == |s| || !IsDigit(s[26])
    requires s == s[..26] + ZoneText(dt.zone) + rest
    ensures ParseTimestamp(s) == Ok(dt)
  {
    HeadRoundTrip(dt, s[19..]);
    FractionRoundTrip(s, dt.microsecond);
    ZoneRoundTrip(dt.zone, s[..26], rest);
    ParseFields(s, dt);
  }

  /** A text whose head, fraction and zone spell the fields of a valid date and time is read as it. */
  lemma ParseFields(s: string, dt: DateTime)
    requires HasHead(s) && ValidDateTime(dt)
    requires Field(s, 0, 4) == dt.year && Field(s, 5, 2) == dt.month && Field(s, 8, 2) == dt.day
    requires Field(s, 11, 2) == dt.hour && Field(s, 14, 2) == dt.minute && Field(s, 17, 2) == dt.second
    requires FractionLength(s) == 6 && Microseconds(s) == dt.microsecond
    requires ZoneAt(s, 26) == dt.zone
    ensures ParseTimestamp(s) == Ok(dt)
  {
  }

  /** The first 19 characters of a written timestamp read back as its date and time fields. */
  lemma HeadRoundTrip(dt: DateTime, tail: string)
    requires ValidDateTime(dt)
    ensures var s := HeadText(dt) + tail;
      HasHead(s) && Field(s, 0, 4) == dt.year && Field(s, 5, 2) == dt.month && Field(s, 8, 2) == dt.day &&
      Field(s, 11, 2) == dt.hour && Field(s, 14, 2) == dt.minute && Field(s, 17, 2) == dt.second
  {
    var s := HeadText(dt) + tail;
    assert s[0..4] == PadDigits(dt.year, 4);
    assert s[4] == '-';
    assert s[5..7] == PadDigits(dt.month, 2);
    assert s[7] == '-';
    assert s[8..10] == PadDigits(dt.day, 2);
    assert s[10] == 'T';
    assert s[11..13] == PadDigits(dt.hour, 2);
    assert s[13] == ':';
    assert s[14..16] == PadDigits(dt.minute, 2);
    assert s[16] == ':';
    assert s[17..19] == PadDigits(dt.second, 2);
    assert Pow10(4) == 10000 && Pow10(2) == 100;
    PadDigitsRoundTrip(dt.year, 4);
    PadDigitsRoundTrip(dt.month, 2);
    PadDigitsRoundTrip(dt.day, 2);
    PadDigitsRoundTrip(dt.hour, 2);
    PadDigitsRoundTrip(dt.minute, 2);
    PadDigitsRoundTrip(dt.second, 2);
  }

  /** Six fraction digits read back as the microseconds they were written from. */
  lemma FractionRoundTrip(s: string, us: nat)
    requires HasHead(s) && |s| >= 26 && us < 1000000
    requires s[19] == '.' && s[20..26] == PadDigits(us, 6)
    requires 26 == |s| || !IsDigit(s[26])
    ensures FractionLength(s) == 6 && Microseconds(s) == us
  {
    assert DigitsAt(s, 20, 6);
    DigitRunExact(s, 20, 6);
    assert Pow10(6) == 1000000;
    PadDigitsRoundTrip(us, 6);
  }

  /** A run of exactly `n` digits is measured as `n`. */
  lemma {:induction false} DigitRunExact(s: string, i: nat, n: nat)
    requires DigitsAt(s, i, n)
    requires i + n == |s| || !IsDigit(s[i + n])
    ensures DigitRun(s, i) == n
    decreases n
  {
    if n > 0 {
      DigitRunExact(s, i + 1, n - 1);
    }
  }

  /** The zone text read back after any 26 characters gives the zone. */
  lemma ZoneRoundTrip(z: Zone, prefix: string, rest: string)
    requires z.Offset? ==> -1440 < z.minutes < 1440
    requires |prefix| == 26
    requires z.Naive? ==> EndsNaive(rest)
    ensures ZoneAt(prefix + ZoneText(z) + rest, 26) == z
  {
    var s := prefix + ZoneText(z) + rest;
    match z
    case Naive =>
      assert s == prefix + rest;
    case Utc =>
      assert s[26] == 'Z';
    case Offset(m) =>
      OffsetRoundTrip(m, prefix, rest);
  }

  /** A written offset reads back as the same number of minutes. */
  lemma OffsetRoundTrip(m: int, prefix: string, rest: string)
    requires -1440 < m < 1440
    requires |prefix| == 26
    ensures ZoneAt(prefix + ZoneText(Offset(m)) + rest, 26) == Offset(m)
  {
    var a := if m < 0 then -m else m;
    var hh, mm := PadDigits(a / 60, 2), PadDigits(a % 60, 2);
    assert ZoneText(Offset(m)) == (if m < 0 then "-" else "+") + hh + ":" + mm;
    var h: int, mi: int := DigitsValue(hh), DigitsValue(mm);
    assert h == a / 60 && mi == a % 60 by {
      assert Pow10(2) == 100;
      PadDigitsRoundTrip(a / 60, 2);
      PadDigitsRoundTrip(a % 60, 2);
    }
    OffsetRead(prefix, m < 0, hh, mm, rest);
    assert (if m < 0 then -1 else 1) * (h * 60 + mi) == m by {
      SignedMinutes(m);
    }
  }

  /** A sign, two digits, a colon and two digits are read as that many signed minutes. */
  lemma OffsetRead(prefix: string, negative: bool, hh: string, mm: string, rest: string)
    requires |prefix| == 26 && IsDigits(hh) && |hh| == 2 && IsDigits(mm) && |mm| == 2
    ensures ZoneAt(prefix + ((if negative then "-" else "+") + hh + ":" + mm) + rest, 26)
      == Offset((if negative then -1 else 1) * (DigitsValue(hh) * 60 + DigitsValue(mm)))
  {
    var s := prefix + ((if negative then "-" else "+") + hh + ":" + mm) + rest;
    assert s[27..29] == hh && s[30..32] == mm;
    assert s[26] == (if negative then '-' else '+') && s[29] == ':';
  }

  /** Hours and minutes of the magnitude, with the sign put back, are the offset again. */
  lemma SignedMinutes(m: int)
    ensures var a := if m < 0 then -m else m;
      (if m < 0 then -1 else 1) * ((a / 60) * 60 + a % 60) == m
  {
  }

  // ------------------------------------------------------------ statuses

  /** A module's or the server's status. */
  datatype Status = Up | Down
  {
    function Value(): string
    {
      match this
      case Up => "up"
      case Down => "down"
    }
  }

  /** Only "up" and "down" are statuses; anything else is refused. */
  function ParseStatus(s: string): (r: Result<Status>)
    ensures r.Ok? <==> s == "up" || s == "down"
    ensures r.Err? ==> r.error == ValueError
  {
    if s == Up.Value() then Ok(Up)
    else if s == Down.Value() then Ok(Down)
    else Err(ValueError)
  }

  /** A status read back from its text is that status, and a read status writes back as the text. */
  lemma StatusRoundTrip(st: Status, s: string)
    ensures ParseStatus(st.Value()) == Ok(st)
    ensures ParseStatus(s).Ok? ==> ParseStatus(s).value.Value() == s
  {
  }

  /** One module's entry in the server's answer, as strings. */
  datatype ModuleReport = ModuleReport(status: string, timestamp: string)

  /** The server's answer: the overall status and an entry per reporting module. */
  datatype HealthReport = HealthReport(status: string, details: map<string, ModuleReport>)

  datatype ModuleStatus = ModuleStatus(status: Status, timestamp: DateTime)

  const CHROMIUM_MODULE: string := "chromium"
  const LIBREOFFICE_MODULE: string := "libreoffice"

  /** A module's status and timestamp, each read as its own parser reads it; the status is read first. */
  function ExtractStatus(m: ModuleReport): (r: Result<ModuleStatus>)
    ensures r.Ok? <==> ParseStatus(m.status).Ok? && ParseTimestamp(m.timestamp).Ok?
    ensures r.Ok? ==> r.value.status.Value() == m.status && Ok(r.value.timestamp) == ParseTimestamp(m.timestamp)
    ensures r.Err? ==> r.error == ValueError
  {
    var st := ParseStatus(m.status);
    if st.Err? then Err(st.error)
    else
      var ts := ParseTimestamp(m.timestamp);
      if ts.Err? then Err(ts.error)
      else Ok(ModuleStatus(st.value, ts.value))
  }

  /** What a health report reads as: the overall status and the modules that reported. */
  datatype HealthStatus = HealthStatus(data: HealthReport, overall: Status,
                                       chromium: Option<ModuleStatus>, uno: Option<ModuleStatus>)

  /**
   * Reads a health report: the overall status, then the Chromium module if
   * it reported, then the LibreOffice module (kept as `uno`) if it reported.
   * Any status or timestamp that cannot be read refuses the whole report.
   */
  method NewHealthStatus(data: HealthReport) returns (r: Result<HealthStatus>)
    ensures r.Ok? <==>
      ParseStatus(data.status).Ok? &&
      (CHROMIUM_MODULE in data.details ==> ExtractStatus(data.details[CHROMIUM_MODULE]).Ok?) &&
      (LIBREOFFICE_MODULE in data.details ==> ExtractStatus(data.details[LIBREOFFICE_MODULE]).Ok?)
    ensures r.Err? ==> r.error == ValueError
    ensures r.Ok? ==>
      r.value.data == data && r.value.overall.Value() == data.status &&
      (r.value.chromium.Some? <==> CHROMIUM_MODULE in data.details) &&
      (r.value.chromium.Some? ==> Ok(r.value.chromium.value) == ExtractStatus(data.details[CHROMIUM_MODULE])) &&
      (r.value.uno.Some? <==> LIBREOFFICE_MODULE in data.details) &&
      (r.value.uno.Some? ==> Ok(r.value.uno.value) == ExtractStatus(data.details[LIBREOFFICE_MODULE]))
  {
    var overall := ParseStatus(data.status);
    if overall.Err? {
      return Err(overall.error);
    }
    var chromium: Option<ModuleStatus> := None;
    if CHROMIUM_MODULE in data.details {
      var c := ExtractStatus(data.details[CHROMIUM_MODULE]);
      if c.Err? {
        return Err(c.error);
      }
      chromium := Some(c.value);
    }
    var uno: Option<ModuleStatus> := None;
    if LIBREOFFICE_MODULE in data.details {
      var u := ExtractStatus(data.details[LIBREOFFICE_MODULE]);
      if u.Err? {
        return Err(u.error);
      }
      uno := Some(u.value);
    }
    r := Ok(HealthStatus(data, overall.value, chromium, uno));
  }
}
