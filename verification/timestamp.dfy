/** The text form of an instant: an 8-character `YYYYMMDD` date and a
    6-character `HHMMSS` time, both in UTC. */
module Timestamp {
  import opened Outcomes
  import opened Decimal
  import Calendar

  /** The six numbers a successful scan yields, in format order. */
  datatype Fields = Fields(year: int, mon: int, mday: int, hour: int, min: int, sec: int)

  /** The calendar fields of a broken-down time: year and month shifted back
      from `struct tm` form. */
  function FieldsOf(tm: Calendar.Tm): Fields
  {
    Fields(tm.year + 1900, tm.mon + 1, tm.mday, tm.hour, tm.min, tm.sec)
  }

  /** "%04d%02d%02d %02d%02d%02d" in full, before any buffer cut. */
  function Print(f: Fields): (s: string)
    ensures |s| >= 15
  {
    FormatInt(f.year, 4) + (FormatInt(f.mon, 2) + (FormatInt(f.mday, 2)
    + (" " + (FormatInt(f.hour, 2) + (FormatInt(f.min, 2) + FormatInt(f.sec, 2))))))
  }

  /** The date and time texts of instant `t`: the UTC fields printed into a
      16-byte buffer (at most 15 characters survive) and cut in two at index
      8, dropping the space. */
  function Encode(t: int): (r: (string, string))
    ensures |r.0| == 8 && |r.1| == 6
  {
    var buf := Print(FieldsOf(Calendar.GmTime(t)))[..15];
    (buf[..8], buf[9..])
  }


  /** A scanf format as a chain of directives: a white-space directive skips
      any run of white space, a `%<width>d` conversion reads one integer. */
  datatype Format = Done | Blank(next: Format) | Conv(width: nat, next: Format)

  /** The format "%04d%02d%02d %02d%02d%02d". */
  const TimeFormat: Format := Conv(4, Conv(2, Conv(2, Blank(Conv(2, Conv(2, Conv(2, Done)))))))

  /** The number of conversions in a format. */
  function Conversions(fmt: Format): nat
  {
    match fmt
    case Done => 0
    case Blank(next) => Conversions(next)
    case Conv(_, next) => 1 + Conversions(next)
  }

  /** scanf over `text`: the converted values in order when every conversion
      of the format succeeds, None as soon as one fails. */
  function ScanWith(text: string, fmt: Format): (r: Option<seq<int>>)
    ensures r.Some? ==> |r.value| == Conversions(fmt)
  {
    match fmt
    case Done => Some([])
    case Blank(next) => ScanWith(SkipSpace(text), next)
    case Conv(w, next) =>
      var v :- ScanInt(text, w);
      var vs :- ScanWith(v.1, next);
      Some([v.0] + vs)
  }

  /** sscanf(text, "%04d%02d%02d %02d%02d%02d") == 6, with the six values. */
  function ScanFields(text: string): (r: Option<Fields>)
  {
    assert Conversions(TimeFormat) == 6;
    var vs :- ScanWith(text, TimeFormat);
    Some(Fields(vs[0], vs[1], vs[2], vs[3], vs[4], vs[5]))
  }

  /** The instant named by a date text and a time text. The two are joined by
      a space where the date's terminator stood; a date shorter than 8
      characters ends the text early. The fields are shifted into `struct tm`
      form and handed to `timegm`. None when fewer than six fields scan. */
  function Decode(date: string, time: string): (r: Option<int>)
    ensures r.None? <==> ScanFields(if |date| == 8 then date + " " + time else date).None?
  {
    var text := if |date| == 8 then date + " " + time else date;
    match ScanFields(text)
    case None => None
    case Some(f) => Some(InstantOf(f))
  }

  /** The instant of scanned fields: shifted into `struct tm` form and
      handed to `timegm`. */
  function InstantOf(f: Fields): int
  {
    Calendar.Timegm(Calendar.Tm(f.year - 1900, f.mon - 1, f.mday, f.hour, f.min, f.sec))
  }

  /** The year `t` falls in, UTC. */
  function YearOf(t: int): int { Calendar.GmTime(t).year + 1900 }

  /** Fields that each print in exactly their width. */
  predicate Printable(f: Fields)
  {
    0 <= f.year < 10000 && 0 <= f.mon < 100 && 0 <= f.mday < 100
    && 0 <= f.hour < 100 && 0 <= f.min < 100 && 0 <= f.sec < 100
  }

  lemma CutAtSpace(s: string, k: nat)
    requires k < |s| && s[k] == ' '
    ensures s[..k] + " " + s[k + 1..] == s
  {
  }

  lemma SkipOneSpace(r: string)
    requires |r| > 0 && !IsSpace(r[0])
    ensures SkipSpace(" " + r) == r
  {
    assert (" " + r)[1..] == r;
  }

  /** A field printed in its width starts with a digit. */
  lemma FieldText(n: nat, width: nat)
    requires 1 <= width && n < Pow10(width)
    ensures |FormatInt(n, width)| == width && IsDigit(FormatInt(n, width)[0])
  {
    FormatIntExact(n, width);
  }

  /** Printable fields print as exactly 15 characters with the space at index 8. */
  lemma PrintLayout(f: Fields)
    requires Printable(f)
    ensures |Print(f)| == 15 && Print(f)[8] == ' '
  {
    assert Pow10(4) == 10000 && Pow10(2) == 100;
    FieldText(f.year, 4);
    FieldText(f.mon, 2);
    FieldText(f.mday, 2);
    FieldText(f.hour, 2);
    FieldText(f.min, 2);
    FieldText(f.sec, 2);
  }

  /** A conversion that reads `n` and leaves `rest` puts `n` in front of
      whatever the remaining directives yield. */
  lemma ScanStep(text: string, w: nat, n: int, rest: string, next: Format)
    requires ScanInt(text, w) == Some((n, rest))
    requires ScanWith(rest, next).Some?
    ensures ScanWith(text, Conv(w, next)) == Some([n] + ScanWith(rest, next).value)
  {
  }

  /** The time half, after the blank, scans back to its three fields. */
  lemma ScanClock(h: string, mi: string, sec: string, vh: int, vm: int, vs: int)
    requires |h| > 0 && !IsSpace(h[0])
    requires ScanInt(h + (mi + sec), 2) == Some((vh, mi + sec))
    requires ScanInt(mi + sec, 2) == Some((vm, sec))
    requires ScanInt(sec, 2) == Some((vs, []))
    ensures ScanWith(" " + (h + (mi + sec)), Blank(Conv(2, Conv(2, Conv(2, Done)))))
         == Some([vh] + ([vm] + ([vs] + [])))
  {
    ScanStep(sec, 2, vs, [], Done);
    ScanStep(mi + sec, 2, vm, sec, Conv(2, Done));
    ScanStep(h + (mi + sec), 2, vh, mi + sec, Conv(2, Conv(2, Done)));
    SkipOneSpace(h + (mi + sec));
  }

  /** The date half scans back to its three fields, ahead of what follows. */
  lemma ScanDate(y: string, mo: string, d: string, rest: string,
                 vy: int, vm: int, vd: int, next: Format)
    requires ScanInt(y + (mo + (d + rest)), 4) == Some((vy, mo + (d + rest)))
    requires ScanInt(mo + (d + rest), 2) == Some((vm, d + rest))
    requires ScanInt(d + rest, 2) == Some((vd, rest))
    requires ScanWith(rest, next).Some?
    ensures ScanWith(y + (mo + (d + rest)), Conv(4, Conv(2, Conv(2, next))))
         == Some([vy] + ([vm] + ([vd] + ScanWith(rest, next).value)))
  {
    ScanStep(d + rest, 2, vd, rest, next);
    ScanStep(mo + (d + rest), 2, vm, d + rest, Conv(2, next));
    ScanStep(y + (mo + (d + rest)), 4, vy, mo + (d + rest), Conv(2, Conv(2, next)));
  }

  /** The six values in order, as ScanFields reads them. */
  lemma SixValues(a: int, b: int, c: int, d: int, e: int, g: int)
    ensures var vs := [a] + ([b] + ([c] + ([d] + ([e] + ([g] + [])))));
            |vs| == 6 && vs[0] == a && vs[1] == b && vs[2] == c && vs[3] == d && vs[4] == e && vs[5] == g
  {
  }

  /** Printable fields scan back from their printed text. */
  lemma ScanPrint(f: Fields)
    requires Printable(f)
    ensures |Print(f)| == 15
    ensures Print(f)[..8] + " " + Print(f)[9..] == Print(f)
    ensures ScanFields(Print(f)) == Some(f)
  {
    PrintLayout(f);
    CutAtSpace(Print(f), 8);
    ScanPieces(f);
    SixValues(f.year, f.mon, f.mday, f.hour, f.min, f.sec);
  }

  /** The printed text scans, under the whole format, to the six fields. */
  lemma ScanPieces(f: Fields)
    requires Printable(f)
    ensures ScanWith(Print(f), TimeFormat)
         == Some([f.year] + ([f.mon] + ([f.mday] + ([f.hour] + ([f.min] + ([f.sec] + []))))))
  {
    assert Pow10(4) == 10000 && Pow10(2) == 100;
    var y, mo, d := FormatInt(f.year, 4), FormatInt(f.mon, 2), FormatInt(f.mday, 2);
    var h, mi, sec := FormatInt(f.hour, 2), FormatInt(f.min, 2), FormatInt(f.sec, 2);
    var rest := " " + (h + (mi + sec));
    ClockPieces(f);
    ScanFormatted(f.year, 4, mo + (d + rest));
    ScanFormatted(f.mon, 2, d + rest);
    ScanFormatted(f.mday, 2, rest);
    ScanDate(y, mo, d, rest, f.year, f.mon, f.mday, Blank(Conv(2, Conv(2, Conv(2, Done)))));
  }

  /** The printed clock scans back to the last three fields. */
  lemma ClockPieces(f: Fields)
    requires Printable(f)
    ensures ScanWith(" " + (FormatInt(f.hour, 2) + (FormatInt(f.min, 2) + FormatInt(f.sec, 2))),
                     Blank(Conv(2, Conv(2, Conv(2, Done)))))
         == Some([f.hour] + ([f.min] + ([f.sec] + [])))
  {
    var h, mi, sec := FormatInt(f.hour, 2), FormatInt(f.min, 2), FormatInt(f.sec, 2);
    TwoDigits(f.hour, mi + sec);
    TwoDigits(f.min, sec);
    TwoDigits(f.sec, []);
    assert sec + [] == sec;
    ScanClock(h, mi, sec, f.hour, f.min, f.sec);
  }

  /** A two-digit field starts with a digit and reads back ahead of `rest`. */
  lemma TwoDigits(v: nat, rest: string)
    requires v < 100
    ensures |FormatInt(v, 2)| > 0 && !IsSpace(FormatInt(v, 2)[0])
    ensures ScanInt(FormatInt(v, 2) + rest, 2) == Some((v, rest))
  {
    assert Pow10(2) == 100;
    FieldText(v, 2);
    ScanFormatted(v, 2, rest);
  }

  /** Every instant whose year prints in four digits decodes back to itself. */
  lemma DecodeEncode(t: int)
    requires 0 <= YearOf(t) <= 9999
    ensures Decode(Encode(t).0, Encode(t).1) == Some(t)
  {
    var tm := Calendar.GmTime(t);
    var f := FieldsOf(tm);
    assert Printable(f);
    PrintLayout(f);
    assert Print(f)[..15] == Print(f);
    assert Encode(t) == (Print(f)[..8], Print(f)[9..]);
    PrintedDecodes(f);
    assert InstantOf(f) == Calendar.Timegm(tm);
    Calendar.TimegmOfGmTime(t);
  }

  /** The two halves of printable fields decode to their instant. */
  lemma PrintedDecodes(f: Fields)
    requires Printable(f)
    ensures Decode(Print(f)[..8], Print(f)[9..]) == Some(InstantOf(f))
  {
    ScanPrint(f);
    DecodeText(Print(f)[..8], Print(f)[9..], f);
  }

  /** A date text of eight characters and a time text whose joined text
      scans to `f` decode to the instant of `f`. */
  lemma DecodeText(date: string, time: string, f: Fields)
    requires |date| == 8 && ScanFields(date + " " + time) == Some(f)
    ensures Decode(date, time) == Some(InstantOf(f))
  {
  }

  /** Where the printed pieces sit in the text. */
  lemma PrintHalves(f: Fields)
    requires Printable(f)
    ensures Print(f)[..8] == FormatInt(f.year, 4) + (FormatInt(f.mon, 2) + FormatInt(f.mday, 2))
    ensures Print(f)[9..] == FormatInt(f.hour, 2) + (FormatInt(f.min, 2) + FormatInt(f.sec, 2))
  {
    assert Pow10(4) == 10000 && Pow10(2) == 100;
    FieldText(f.year, 4);
    FieldText(f.mon, 2);
    FieldText(f.mday, 2);
    SplitAtSpace(FormatInt(f.year, 4), FormatInt(f.mon, 2), FormatInt(f.mday, 2),
                 FormatInt(f.hour, 2) + (FormatInt(f.min, 2) + FormatInt(f.sec, 2)));
  }

  lemma SplitAtSpace(y: string, mo: string, d: string, clock: string)
    requires |y| == 4 && |mo| == 2 && |d| == 2
    ensures (y + (mo + (d + (" " + clock))))[..8] == y + (mo + d)
    ensures (y + (mo + (d + (" " + clock))))[9..] == clock
  {
    var s := y + (mo + (d + (" " + clock)));
    assert s == (y + (mo + d)) + (" " + clock);
  }

  lemma Cut3(a: string, b: string, c: string)
    requires |a| == 4 && |b| == 2 && |c| == 2
    ensures (a + (b + c))[..4] == a && (a + (b + c))[4..6] == b && (a + (b + c))[6..] == c
  {
  }

  lemma DigitsJoin(a: string, b: string, c: string)
    requires AllDigits(a) && AllDigits(b) && AllDigits(c)
    ensures AllDigits(a + (b + c))
  {
  }

  /** The written texts are pure digits for every instant whose year prints in
      four digits, so the stored attributes have the `YYYYMMDD` and `HHMMSS`
      shapes and carry the UTC fields. */
  lemma EncodeShape(t: int)
    requires 0 <= YearOf(t) <= 9999
    ensures AllDigits(Encode(t).0) && AllDigits(Encode(t).1)
    ensures Value(Encode(t).0[..4]) == YearOf(t)
    ensures Value(Encode(t).0[4..6]) == Calendar.GmTime(t).mon + 1
    ensures Value(Encode(t).0[6..]) == Calendar.GmTime(t).mday
  {
    var f := FieldsOf(Calendar.GmTime(t));
    assert Pow10(4) == 10000 && Pow10(2) == 100;
    PrintLayout(f);
    PrintHalves(f);
    assert Print(f)[..15] == Print(f);
    FormatIntExact(f.year, 4);
    FormatIntExact(f.mon, 2);
    FormatIntExact(f.mday, 2);
    FormatIntExact(f.hour, 2);
    FormatIntExact(f.min, 2);
    FormatIntExact(f.sec, 2);
    Cut3(FormatInt(f.year, 4), FormatInt(f.mon, 2), FormatInt(f.mday, 2));
    DigitsJoin(FormatInt(f.year, 4), FormatInt(f.mon, 2), FormatInt(f.mday, 2));
    DigitsJoin(FormatInt(f.hour, 2), FormatInt(f.min, 2), FormatInt(f.sec, 2));
  }
}
