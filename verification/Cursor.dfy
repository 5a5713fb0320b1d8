/**
 Page tokens of the event history: a creation time in RFC 3339 text and a row's UUID, in base64url.
 */
module Cursor {
  import opened Wrappers
  import opened Text
  import opened Base64Url

  /** Clock fields and the zone's offset in minutes, as Go prints a time. */
  datatype Time = Time(
    year: int, month: int, day: int, hour: int, minute: int, second: int, nanos: int, offset: int)

  predicate Leap(year: int) {
    year % 4 == 0 && (year % 100 != 0 || year % 400 == 0)
  }

  function DaysIn(month: int, year: int): int {
    if month == 2 then (if Leap(year) then 29 else 28)
    else if month in {4, 6, 9, 11} then 30
    else 31
  }

  predicate ValidTime(t: Time) {
    && 0 <= t.year <= 9999 && 1 <= t.month <= 12 && 1 <= t.day <= DaysIn(t.month, t.year)
    && 0 <= t.hour < 24 && 0 <= t.minute < 60 && 0 <= t.second < 60 && 0 <= t.nanos < 1_000_000_000
    && -1440 < t.offset < 1440
  }

  const UUIDS: nat := Power(Hex, 32)

  predicate ValidId(id: int) {
    0 <= id < UUIDS
  }

  // Time as text

  function Digits(n: int, width: nat): (s: string)
    requires n >= 0
    ensures |s| == width
  {
    Padded(n, width, Decimal, false)
  }

  /** Three pieces with separators between them. */
  function Join(a: string, c: char, b: string, d: char, e: string): (s: string)
    ensures |s| == |a| + |b| + |e| + 2
  {
    a + ([c] + (b + ([d] + e)))
  }

  function DayText(t: Time): string
    requires ValidTime(t)
  {
    Join(Digits(t.year, 4), '-', Digits(t.month, 2), '-', Digits(t.day, 2))
  }

  function ClockText(t: Time): string
    requires ValidTime(t)
  {
    Join(Digits(t.hour, 2), ':', Digits(t.minute, 2), ':', Digits(t.second, 2))
  }

  function DateText(t: Time): (s: string)
    requires ValidTime(t)
    ensures |s| == 19
  {
    DayText(t) + ("T" + ClockText(t))
  }

  function Trimmed(s: string): string
    decreases |s|
  {
    if s != "" && s[|s| - 1] == '0' then Trimmed(s[..|s| - 1]) else s
  }

  function FractionText(nanos: int): string
    requires nanos >= 0
  {
    if nanos == 0 then "" else "." + Trimmed(Digits(nanos, 9))
  }

  function Magnitude(n: int): nat {
    if n < 0 then -n else n
  }

  function ZoneText(offset: int): string {
    if offset == 0 then "Z"
    else [if offset < 0 then '-' else '+']
         + (Digits(Magnitude(offset) / 60, 2) + (":" + Digits(Magnitude(offset) % 60, 2)))
  }

  function Format(t: Time): string
    requires ValidTime(t)
  {
    DateText(t) + (FractionText(t.nanos) + ZoneText(t.offset))
  }

  // Text as time

  /** The number a field of digits denotes. */
  function Number(s: string): Option<nat> {
    if IsNumeral(s, Decimal) then Some(Value(s, Decimal)) else None
  }

  predicate StartsWith(s: string, c: char) {
    s != "" && s[0] == c
  }

  function DigitRun(s: string): (n: nat)
    ensures n <= |s|
    decreases |s|
  {
    if s != "" && IsDigit(s[0], Decimal) then 1 + DigitRun(s[1..]) else 0
  }

  /** The nanoseconds of a fraction, of which digits after the ninth are dropped, and what follows. */
  function ParseFraction(s: string): Option<(nat, string)> {
    if !StartsWith(s, '.') then Some((0, s))
    else
      var n := DigitRun(s[1..]);
      if n == 0 then None
      else
        var d := s[1..if n > 9 then 10 else n + 1];
        if IsNumeral(d, Decimal) then Some((Value(d, Decimal) * Power(Decimal, 9 - |d|), s[n + 1..])) else None
  }

  function ParseZone(s: string): Option<int> {
    if s == "Z" then Some(0)
    else if |s| != 6 || (s[0] != '+' && s[0] != '-') || s[3] != ':' then None
    else
      var h, m := Number(s[1..3]), Number(s[4..]);
      if h.None? || m.None? || h.value > 24 || m.value > 60 then None
      else
        var minutes := 60 * h.value + m.value;
        Some(if s[0] == '-' then -minutes else minutes)
  }

  function ParseDay(s: string): Option<(nat, nat, nat)>
    requires |s| == 10
  {
    var year, month, day := Number(s[..4]), Number(s[5..7]), Number(s[8..]);
    if year.None? || month.None? || day.None? || s[4] != '-' || s[7] != '-' then None
    else Some((year.value, month.value, day.value))
  }

  function ParseClock(s: string): Option<(nat, nat, nat)>
    requires |s| == 8
  {
    var hour, minute, second := Number(s[..2]), Number(s[3..5]), Number(s[6..]);
    if hour.None? || minute.None? || second.None? || s[2] != ':' || s[5] != ':' then None
    else Some((hour.value, minute.value, second.value))
  }

  function ParseDate(s: string): Option<Time>
    requires |s| == 19
  {
    var day, clock := ParseDay(s[..10]), ParseClock(s[11..]);
    if day.None? || clock.None? || s[10] != 'T' then None
    else
      Some(Time(day.value.0, day.value.1, day.value.2, clock.value.0, clock.value.1, clock.value.2, 0, 0))
  }

  function Parse(s: string): Option<Time> {
    if |s| < 19 then None
    else
      var date, fraction := ParseDate(s[..19]), ParseFraction(s[19..]);
      if date.None? || fraction.None? then None
      else
        var zone := ParseZone(fraction.value.1);
        if zone.None? then None
        else
          var d := date.value;
          if !(1 <= d.month <= 12 && 1 <= d.day <= DaysIn(d.month, d.year)
               && d.hour < 24 && d.minute < 60 && d.second < 60)
          then None
          else Some(d.(nanos := fraction.value.0, offset := zone.value))
  }

  // Reading back what was written

  lemma DigitsBack(n: int, width: nat)
    requires 0 <= n < Power(Decimal, width)
    ensures Number(Digits(n, width)) == Some(n)
  {
    PaddedRoundTrip(n, width, Decimal, false);
  }

  lemma JoinParts(a: string, c: char, b: string, d: char, e: string)
    ensures var s := Join(a, c, b, d, e);
      && s[..|a|] == a && s[|a|] == c && s[|a| + 1..|a| + 1 + |b|] == b
      && s[|a| + 1 + |b|] == d && s[|a| + |b| + 2..] == e
  {
  }

  lemma Powers()
    ensures Power(Decimal, 2) == 100 && Power(Decimal, 4) == 10_000 && Power(Decimal, 9) == 1_000_000_000
  {
    assert Power(Decimal, 2) == 10 * Power(Decimal, 1);
    assert Power(Decimal, 4) == 10 * Power(Decimal, 3) && Power(Decimal, 3) == 10 * Power(Decimal, 2);
    assert Power(Decimal, 9) == 10 * Power(Decimal, 8) && Power(Decimal, 8) == 10 * Power(Decimal, 7);
    assert Power(Decimal, 7) == 10 * Power(Decimal, 6) && Power(Decimal, 6) == 10 * Power(Decimal, 5);
    assert Power(Decimal, 5) == 10 * Power(Decimal, 4);
  }

  lemma DayRoundTrip(t: Time)
    requires ValidTime(t)
    ensures |DayText(t)| == 10 && ParseDay(DayText(t)) == Some((t.year, t.month, t.day))
  {
    Powers();
    DigitsBack(t.year, 4);
    DigitsBack(t.month, 2);
    DigitsBack(t.day, 2);
    hide Digits, Number, Power, Join;
    JoinParts(Digits(t.year, 4), '-', Digits(t.month, 2), '-', Digits(t.day, 2));
  }

  lemma ClockRoundTrip(t: Time)
    requires ValidTime(t)
    ensures |ClockText(t)| == 8 && ParseClock(ClockText(t)) == Some((t.hour, t.minute, t.second))
  {
    Powers();
    DigitsBack(t.hour, 2);
    DigitsBack(t.minute, 2);
    DigitsBack(t.second, 2);
    hide Digits, Number, Power, Join;
    JoinParts(Digits(t.hour, 2), ':', Digits(t.minute, 2), ':', Digits(t.second, 2));
  }

  lemma DateRoundTrip(t: Time)
    requires ValidTime(t)
    ensures ParseDate(DateText(t)) == Some(t.(nanos := 0, offset := 0))
  {
    hide DayText, ClockText, ParseDay, ParseClock, ValidTime;
    DayRoundTrip(t);
    ClockRoundTrip(t);
    CutAtT(DayText(t), ClockText(t));
  }

  lemma CutAtT(a: string, b: string)
    ensures var s := a + ("T" + b); s[..|a|] == a && s[|a|] == 'T' && s[|a| + 1..] == b
  {
  }

  lemma {:induction false} TrimKeepsFraction(s: string)
    requires IsNumeral(s, Decimal) && |s| <= 9
    ensures IsNumeral(Trimmed(s), Decimal) && |Trimmed(s)| <= |s|
    ensures Value(Trimmed(s), Decimal) * Power(Decimal, 9 - |Trimmed(s)|) == Value(s, Decimal) * Power(Decimal, 9 - |s|)
    decreases |s|
  {
    if s != "" && s[|s| - 1] == '0' {
      var front := s[..|s| - 1];
      TrimKeepsFraction(front);
      assert Power(Decimal, 9 - |front|) == 10 * Power(Decimal, 9 - |s|);
      TenTimes(Value(front, Decimal), Power(Decimal, 9 - |s|));
    }
  }

  lemma TenTimes(x: nat, y: nat)
    ensures x * (10 * y) == (10 * x) * y
  {
  }

  lemma {:induction false} DigitRunOf(d: string, rest: string)
    requires IsNumeral(d, Decimal) && (rest != "" ==> !IsDigit(rest[0], Decimal))
    ensures DigitRun(d + rest) == |d|
    decreases |d|
  {
    if d == "" {
      assert d + rest == rest;
    } else {
      assert (d + rest)[1..] == d[1..] + rest;
      DigitRunOf(d[1..], rest);
    }
  }

  lemma FractionDigits(nanos: int)
    requires 0 < nanos < 1_000_000_000
    ensures var d := Trimmed(Digits(nanos, 9));
      IsNumeral(d, Decimal) && 1 <= |d| <= 9 && Value(d, Decimal) * Power(Decimal, 9 - |d|) == nanos
  {
    Powers();
    PaddedRoundTrip(nanos, 9, Decimal, false);
    TrimKeepsFraction(Digits(nanos, 9));
    assert Power(Decimal, 0) == 1;
    assert Value(Trimmed(Digits(nanos, 9)), Decimal) != 0;
  }

  lemma FractionRoundTrip(nanos: int, zone: string)
    requires 0 <= nanos < 1_000_000_000
    requires zone != "" && !IsDigit(zone[0], Decimal) && zone[0] != '.'
    ensures ParseFraction(FractionText(nanos) + zone) == Some((nanos, zone))
  {
    hide Power, Trimmed, Value, Digits, DigitRun, IsDigit;
    if nanos == 0 {
      assert FractionText(nanos) + zone == zone;
    } else {
      var d := Trimmed(Digits(nanos, 9));
      var s := "." + d + zone;
      FractionDigits(nanos);
      assert s[1..] == d + zone;
      DigitRunOf(d, zone);
      assert s[1..|d| + 1] == d && s[|d| + 1..] == zone;
    }
  }

  lemma ZoneRoundTrip(offset: int)
    requires -1440 < offset < 1440
    ensures ParseZone(ZoneText(offset)) == Some(offset)
    ensures var z := ZoneText(offset); z != "" && !IsDigit(z[0], Decimal) && z[0] != '.' && |z| <= 6
  {
    if offset != 0 {
      var h, m := Magnitude(offset) / 60, Magnitude(offset) % 60;
      var s := ZoneText(offset);
      Powers();
      DigitsBack(h, 2);
      DigitsBack(m, 2);
      hide Digits, Number, Power;
      assert s[1..3] == Digits(h, 2) && s[3] == ':' && s[4..] == Digits(m, 2);
    }
  }

  /** Every time of years 0 to 9999 is read back from its text, zone and nanoseconds included. */
  lemma TimeRoundTrip(t: Time)
    requires ValidTime(t)
    ensures Parse(Format(t)) == Some(t)
  {
    var tail := FractionText(t.nanos) + ZoneText(t.offset);
    DateRoundTrip(t);
    ZoneRoundTrip(t.offset);
    FractionRoundTrip(t.nanos, ZoneText(t.offset));
    hide DateText, FractionText, ZoneText, ParseDate, ParseFraction, ParseZone;
    assert Format(t)[..19] == DateText(t) && Format(t)[19..] == tail;
  }

  // UUIDs

  function Dashed(h: string): (s: string)
    requires |h| == 32
    ensures |s| == 36
  {
    Join(Join(h[..8], '-', h[8..12], '-', h[12..16]), '-', h[16..20], '-', h[20..])
  }

  function Undashed(s: string): (h: string)
    requires |s| == 36
    ensures |h| == 32
  {
    Unjoined(s[..18], 8, 4) + s[19..23] + s[24..]
  }

  function Unjoined(s: string, i: nat, j: nat): (r: string)
    requires i + j + 2 <= |s|
    ensures |r| == |s| - 2
  {
    s[..i] + s[i + 1..i + 1 + j] + s[i + j + 2..]
  }

  function UuidText(id: int): (s: string)
    requires id >= 0
    ensures |s| == 36
  {
    Dashed(Padded(id, 32, Hex, true))
  }

  /** The canonical form; hexadecimal digits in either case. */
  function ParseUuid(s: string): Option<int> {
    if |s| != 36 || s[8] != '-' || s[13] != '-' || s[18] != '-' || s[23] != '-' then None
    else if IsNumeral(Undashed(s), Hex) then Some(Value(Undashed(s), Hex))
    else None
  }

  lemma UnjoinedJoin(a: string, b: string, e: string)
    ensures Unjoined(Join(a, '-', b, '-', e), |a|, |b|) == a + b + e
  {
    JoinParts(a, '-', b, '-', e);
    hide Join;
  }

  lemma DashedRoundTrip(h: string)
    requires |h| == 32
    ensures var s := Dashed(h);
      Undashed(s) == h && s[8] == '-' && s[13] == '-' && s[18] == '-' && s[23] == '-'
  {
    var front := Join(h[..8], '-', h[8..12], '-', h[12..16]);
    var s := Dashed(h);
    assert s == Join(front, '-', h[16..20], '-', h[20..]);
    hide Join, Dashed;
    JoinParts(h[..8], '-', h[8..12], '-', h[12..16]);
    JoinParts(front, '-', h[16..20], '-', h[20..]);
    UnjoinedJoin(h[..8], h[8..12], h[12..16]);
    assert s[8] == s[..18][8] && s[13] == s[..18][13];
    hide Unjoined;
    assert h[..8] + h[8..12] + h[12..16] + h[16..20] + h[20..] == h;
  }

  lemma UuidRoundTrip(id: int)
    requires ValidId(id)
    ensures ParseUuid(UuidText(id)) == Some(id)
  {
    PaddedRoundTrip(id, 32, Hex, true);
    hide Padded, Value, Dashed, Undashed, Power;
    DashedRoundTrip(Padded(id, 32, Hex, true));
  }

  // The token

  const MAX_TOKEN: nat := 256

  predicate Ascii(s: string) {
    forall i :: 0 <= i < |s| ==> s[i] as int < 128
  }

  function AsBytes(s: string): (b: seq<Byte>)
    requires Ascii(s)
    ensures |b| == |s|
  {
    seq(|s|, i requires 0 <= i < |s| => s[i] as int)
  }

  function AsText(b: seq<Byte>): (s: string)
    ensures |s| == |b|
  {
    seq(|b|, i requires 0 <= i < |b| => b[i] as char)
  }

  function IndexOf(s: string, c: char): Option<nat>
    decreases |s|
  {
    if s == "" then None
    else if s[0] == c then Some(0)
    else
      var k := IndexOf(s[1..], c);
      if k.None? then None else Some(1 + k.value)
  }

  function CursorText(t: Time, id: int): string
    requires ValidTime(t) && ValidId(id)
  {
    Format(t) + ("|" + UuidText(id))
  }

  function EncodeCursor(t: Time, id: int): string
    requires ValidTime(t) && ValidId(id)
  {
    CursorAscii(t, id);
    Encode(AsBytes(CursorText(t, id)))
  }

  datatype CursorError = TooLong | BadBase64 | NoSeparator | BadTime | BadUuid

  function DecodeCursor(s: string): Result<(Time, int), CursorError> {
    if |s| > MAX_TOKEN then Err(TooLong)
    else
      var b := Decode(s);
      if b.None? then Err(BadBase64)
      else
        var raw := AsText(b.value);
        var k := IndexOf(raw, '|');
        if k.None? || k.value >= |raw| then Err(NoSeparator)
        else
          var t := Parse(raw[..k.value]);
          if t.None? then Err(BadTime)
          else
            var id := ParseUuid(raw[k.value + 1..]);
            if id.None? then Err(BadUuid) else Ok((t.value, id.value))
  }

  /** No separator and nothing beyond ASCII: what digits, dashes, colons and zones are made of. */
  predicate Plain(s: string) {
    forall i :: 0 <= i < |s| ==> s[i] as int < 128 && s[i] != '|'
  }

  lemma {:induction false} PaddedPlain(n: nat, width: nat, r: Radix, lower: bool)
    ensures Plain(Padded(n, width, r, lower))
    decreases width
  {
    if width > 0 {
      PaddedPlain(Quotient(r, n), width - 1, r, lower);
    }
  }

  lemma {:induction false} TrimmedPlain(s: string)
    requires Plain(s)
    ensures Plain(Trimmed(s)) && |Trimmed(s)| <= |s|
    decreases |s|
  {
    if s != "" && s[|s| - 1] == '0' {
      TrimmedPlain(s[..|s| - 1]);
    }
  }

  lemma PlainJoin(a: string, b: string)
    requires Plain(a) && Plain(b)
    ensures Plain(a + b)
  {
  }

  lemma FractionPlain(nanos: int)
    requires nanos >= 0
    ensures Plain(FractionText(nanos)) && |FractionText(nanos)| <= 10
  {
    PaddedPlain(nanos, 9, Decimal, false);
    TrimmedPlain(Digits(nanos, 9));
    hide Digits, Trimmed;
    PlainJoin(".", Trimmed(Digits(nanos, 9)));
  }

  lemma ZonePlain(offset: int)
    ensures Plain(ZoneText(offset))
  {
    PaddedPlain(Magnitude(offset) / 60, 2, Decimal, false);
    PaddedPlain(Magnitude(offset) % 60, 2, Decimal, false);
    hide Digits;
    PlainJoin(":", Digits(Magnitude(offset) % 60, 2));
    PlainJoin(Digits(Magnitude(offset) / 60, 2), ":" + Digits(Magnitude(offset) % 60, 2));
  }

  lemma FormatPlain(t: Time)
    requires ValidTime(t)
    ensures Plain(Format(t)) && |Format(t)| <= 35
  {
    DateRoundTrip(t);
    ZoneRoundTrip(t.offset);
    DatePlain(t);
    FractionPlain(t.nanos);
    ZonePlain(t.offset);
    hide DateText, FractionText, ZoneText, Plain, ParseDate, ParseZone;
    PlainJoin(FractionText(t.nanos), ZoneText(t.offset));
    PlainJoin(DateText(t), FractionText(t.nanos) + ZoneText(t.offset));
  }

  lemma JoinPlain(a: string, c: char, b: string, d: char, e: string)
    requires Plain(a) && Plain(b) && Plain(e) && Plain([c]) && Plain([d])
    ensures Plain(Join(a, c, b, d, e))
  {
    hide Plain;
    PlainJoin([d], e);
    PlainJoin(b, [d] + e);
    PlainJoin([c], b + ([d] + e));
    PlainJoin(a, [c] + (b + ([d] + e)));
  }

  lemma SeparatorsPlain()
    ensures Plain(['-']) && Plain([':']) && Plain("T")
  {
  }

  lemma DatePlain(t: Time)
    requires ValidTime(t)
    ensures Plain(DateText(t))
  {
    PaddedPlain(t.year, 4, Decimal, false);
    PaddedPlain(t.month, 2, Decimal, false);
    PaddedPlain(t.day, 2, Decimal, false);
    PaddedPlain(t.hour, 2, Decimal, false);
    PaddedPlain(t.minute, 2, Decimal, false);
    PaddedPlain(t.second, 2, Decimal, false);
    SeparatorsPlain();
    hide Padded, Plain, Join;
    JoinPlain(Digits(t.year, 4), '-', Digits(t.month, 2), '-', Digits(t.day, 2));
    JoinPlain(Digits(t.hour, 2), ':', Digits(t.minute, 2), ':', Digits(t.second, 2));
    PlainJoin("T", ClockText(t));
    PlainJoin(DayText(t), "T" + ClockText(t));
  }

  lemma UuidPlain(id: int)
    requires id >= 0
    ensures Plain(UuidText(id))
  {
    PaddedPlain(id, 32, Hex, true);
    hide Padded;
    DashedPlain(Padded(id, 32, Hex, true));
  }

  lemma DashedPlain(h: string)
    requires |h| == 32 && Plain(h)
    ensures Plain(Dashed(h))
  {
    SeparatorsPlain();
    assert Plain(h[..8]) && Plain(h[8..12]) && Plain(h[12..16]) && Plain(h[16..20]) && Plain(h[20..]);
    hide Plain, Join;
    JoinPlain(h[..8], '-', h[8..12], '-', h[12..16]);
    JoinPlain(Join(h[..8], '-', h[8..12], '-', h[12..16]), '-', h[16..20], '-', h[20..]);
  }

  lemma CursorAscii(t: Time, id: int)
    requires ValidTime(t) && ValidId(id)
    ensures Ascii(CursorText(t, id)) && |CursorText(t, id)| <= 72
  {
    FormatPlain(t);
    UuidPlain(id);
    AsciiJoin(Format(t), UuidText(id));
    hide Format, UuidText, Plain, Ascii;
  }

  lemma AsciiJoin(a: string, b: string)
    requires Plain(a) && Plain(b)
    ensures Ascii(a + ("|" + b))
  {
  }

  lemma {:induction false} IndexOfAt(a: string, c: char, b: string)
    requires c !in a
    ensures IndexOf(a + ([c] + b), c) == Some(|a|)
    decreases |a|
  {
    if a == "" {
      assert a + ([c] + b) == [c] + b;
    } else {
      assert (a + ([c] + b))[1..] == a[1..] + ([c] + b);
      IndexOfAt(a[1..], c, b);
    }
  }

  lemma AsciiBack(s: string)
    requires Ascii(s)
    ensures AsText(AsBytes(s)) == s
  {
  }

  /** Only tokens of more than 256 characters are refused for their length. */
  lemma LengthRefusedIff(s: string)
    ensures DecodeCursor(s) == Err(TooLong) <==> |s| > 256
  {
    hide Decode, AsText, IndexOf, Parse, ParseUuid;
  }

  /**
   A token gives back its time and id, and is at most 96 characters long: the length check on
   incoming tokens never turns an issued one away.
   */
  lemma CursorRoundTrip(t: Time, id: int)
    requires ValidTime(t) && ValidId(id)
    ensures DecodeCursor(EncodeCursor(t, id)) == Ok((t, id))
    ensures |EncodeCursor(t, id)| <= 96
  {
    hide Format, UuidText, Parse, ParseUuid, Decode, AsText, IndexOf, ValidTime, EncodeCursor;
    TokenBytes(t, id);
    TimeRoundTrip(t);
    UuidRoundTrip(id);
    NoBar(t);
    SplitAtBar(Format(t), UuidText(id));
    var b := Decode(EncodeCursor(t, id));
    var raw := AsText(b.value);
    assert IndexOf(raw, '|') == Some(|Format(t)|);
  }

  lemma NoBar(t: Time)
    requires ValidTime(t)
    ensures '|' !in Format(t)
  {
    FormatPlain(t);
    hide Format;
  }

  lemma TokenBytes(t: Time, id: int)
    requires ValidTime(t) && ValidId(id)
    ensures |EncodeCursor(t, id)| <= 96
    ensures var b := Decode(EncodeCursor(t, id)); b.Some? && AsText(b.value) == Format(t) + ("|" + UuidText(id))
  {
    CursorAscii(t, id);
    AsciiBack(CursorText(t, id));
    RoundTrip(AsBytes(CursorText(t, id)));
    hide Format, UuidText, Encode, Decode, AsText, AsBytes, Ascii, ValidTime, ValidId;
  }

  lemma SplitAtBar(a: string, b: string)
    requires '|' !in a
    ensures var s := a + ("|" + b);
      IndexOf(s, '|') == Some(|a|) && |a| < |s| && s[..|a|] == a && s[|a| + 1..] == b
  {
    IndexOfAt(a, '|', b);
    assert ['|'] == "|";
    hide IndexOf;
  }

  /** Rows of different times or ids have different tokens. */
  lemma CursorsDiffer(t: Time, id: int, u: Time, jd: int)
    requires ValidTime(t) && ValidId(id) && ValidTime(u) && ValidId(jd)
    requires EncodeCursor(t, id) == EncodeCursor(u, jd)
    ensures t == u && id == jd
  {
    CursorRoundTrip(t, id);
    CursorRoundTrip(u, jd);
  }

  lemma KnownDigits()
    ensures Digits(2024, 4) == "2024" && Digits(2, 2) == "02" && Digits(29, 2) == "29" && Digits(23, 2) == "23"
    ensures Digits(59, 2) == "59" && Digits(5, 2) == "05" && Digits(9, 2) == "09" && Digits(0, 2) == "00"
  {
    assert Padded(0, 0, Decimal, false) == "" && Padded(2, 1, Decimal, false) == "2" && Padded(0, 1, Decimal, false) == "0";
    assert Padded(5, 1, Decimal, false) == "5" && Padded(20, 2, Decimal, false) == "20";
    assert Padded(202, 3, Decimal, false) == "202";
  }

  lemma KnownFraction()
    ensures FractionText(123_456_780) == ".12345678"
  {
    assert Padded(0, 0, Decimal, false) == "" && Padded(1, 1, Decimal, false) == "1" && Padded(12, 2, Decimal, false) == "12";
    assert Padded(123, 3, Decimal, false) == "123" && Padded(1_234, 4, Decimal, false) == "1234";
    assert Padded(12_345, 5, Decimal, false) == "12345" && Padded(123_456, 6, Decimal, false) == "123456";
    assert Padded(1_234_567, 7, Decimal, false) == "1234567" && Padded(12_345_678, 8, Decimal, false) == "12345678";
    assert Digits(123_456_780, 9) == "123456780";
    hide Digits, Padded;
    assert "123456780"[..8] == "12345678";
    assert Trimmed("12345678") == "12345678";
  }

  const LEAP_DAY: Time := Time(2024, 2, 29, 23, 59, 5, 123_456_780, 540)

  lemma KnownDate()
    ensures ValidTime(LEAP_DAY) && DateText(LEAP_DAY) == "2024-02-29T23:59:05"
  {
    KnownDigits();
    hide Digits;
    assert DayText(LEAP_DAY) == "2024-02-29" && ClockText(LEAP_DAY) == "23:59:05";
    hide DayText, ClockText;
    assert "T" + "23:59:05" == "T23:59:05";
  }

  lemma KnownZone()
    ensures ZoneText(540) == "+09:00" && ZoneText(0) == "Z"
  {
    KnownDigits();
    hide Digits;
  }

  /** A leap day with a fraction, east of Greenwich, as section 5.6 of RFC 3339 writes it. */
  lemma KnownTime()
    ensures ValidTime(LEAP_DAY) && Format(LEAP_DAY) == "2024-02-29T23:59:05" + ".12345678" + "+09:00"
  {
    KnownDate();
    KnownFraction();
    KnownZone();
    hide ValidTime, DateText, FractionText, ZoneText;
    assert "2024-02-29T23:59:05" + (".12345678" + "+09:00") == "2024-02-29T23:59:05" + ".12345678" + "+09:00";
  }
}
