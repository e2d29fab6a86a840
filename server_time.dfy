/** `AuthToken.getServerTime`: the current instant formatted with the pattern
    `EEE, dd MMM yyyy HH:mm:ss z` in the GMT zone with US names, which for years
    0 to 9999 is the IMF-fixdate of section 7.1.1.1 of RFC 7231 (29 characters,
    e.g. `Sun, 06 Nov 1994 08:49:37 GMT`). The instant arrives already broken
    down into calendar fields; reading the clock and the calendar arithmetic
    are not part of this model. */
module ServerTime {
  import opened Wrappers
  import opened JavaLang

  /** An instant in GMT: day of week (0 is Sunday), day of month, month (1 is
      January), year, and time of day. */
  datatype DateTime = DateTime(weekday: nat, day: nat, month: nat, year: nat, hour: nat, minute: nat, second: nat)

  predicate ValidDateTime(t: DateTime) {
    t.weekday < 7 && 1 <= t.day <= 31 && 1 <= t.month <= 12 && t.hour < 24 && t.minute < 60 && t.second < 60
  }

  const DayNames: seq<string> := ["Sun", "Mon", "Tue", "Wed", "Thu", "Fri", "Sat"]
  const MonthNames: seq<string> :=
    ["Jan", "Feb", "Mar", "Apr", "May", "Jun", "Jul", "Aug", "Sep", "Oct", "Nov", "Dec"]

  /** A two-digit field (`dd`, `HH`, `mm`, `ss`), zero-padded. */
  function TwoDigits(n: nat): string
    requires n < 100
  {
    [DigitChar(n / 10), DigitChar(n % 10)]
  }

  /** `yyyy`: at least four digits, zero-padded. */
  function YearText(y: nat): string {
    if y < 10000 then TwoDigits(y / 100) + TwoDigits(y % 100) else Digits(y)
  }

  /** The formatted instant. */
  function GetServerTime(now: DateTime): (r: string)
    requires ValidDateTime(now)
    ensures now.year < 10000 ==> |r| == 29
    ensures '\n' !in r
  {
    DigitsRoundTrip(now.year);
    DayNames[now.weekday] + ", " + TwoDigits(now.day) + " " + MonthNames[now.month - 1] + " "
      + YearText(now.year) + " " + TwoDigits(now.hour) + ":" + TwoDigits(now.minute) + ":"
      + TwoDigits(now.second) + " GMT"
  }

  function DayIndex(name: string): Option<nat> {
    match name
    case "Sun" => Some(0)
    case "Mon" => Some(1)
    case "Tue" => Some(2)
    case "Wed" => Some(3)
    case "Thu" => Some(4)
    case "Fri" => Some(5)
    case "Sat" => Some(6)
    case _ => None
  }

  function MonthIndex(name: string): Option<nat> {
    match name
    case "Jan" => Some(1)
    case "Feb" => Some(2)
    case "Mar" => Some(3)
    case "Apr" => Some(4)
    case "May" => Some(5)
    case "Jun" => Some(6)
    case "Jul" => Some(7)
    case "Aug" => Some(8)
    case "Sep" => Some(9)
    case "Oct" => Some(10)
    case "Nov" => Some(11)
    case "Dec" => Some(12)
    case _ => None
  }

  function TwoDigitsValue(s: string): nat
    requires |s| == 2 && IsDigit(s[0]) && IsDigit(s[1])
  {
    10 * DigitValue(s[0]) + DigitValue(s[1])
  }

  predicate TwoDigitField(s: string) {
    |s| == 2 && IsDigit(s[0]) && IsDigit(s[1])
  }

  /** Reads a 29-character formatted instant back; anything else is rejected. */
  function ParseServerTime(s: string): Option<DateTime> {
    if |s| != 29 || s[3..5] != ", " || s[7] != ' ' || s[11] != ' ' || s[16] != ' '
       || s[19] != ':' || s[22] != ':' || s[25..] != " GMT"
       || !TwoDigitField(s[5..7]) || !TwoDigitField(s[12..14]) || !TwoDigitField(s[14..16])
       || !TwoDigitField(s[17..19]) || !TwoDigitField(s[20..22]) || !TwoDigitField(s[23..25])
    then None
    else
      match (DayIndex(s[..3]), MonthIndex(s[8..11]))
      case (Some(weekday), Some(month)) =>
        var t := DateTime(weekday, TwoDigitsValue(s[5..7]), month,
                          100 * TwoDigitsValue(s[12..14]) + TwoDigitsValue(s[14..16]),
                          TwoDigitsValue(s[17..19]), TwoDigitsValue(s[20..22]), TwoDigitsValue(s[23..25]));
        if ValidDateTime(t) then Some(t) else None
      case _ => None
  }

  lemma TwoDigitsRoundTrip(n: nat)
    requires n < 100
    ensures TwoDigitField(TwoDigits(n)) && TwoDigitsValue(TwoDigits(n)) == n
  {
  }

  lemma NamesRoundTrip(t: DateTime)
    requires ValidDateTime(t)
    ensures DayIndex(DayNames[t.weekday]) == Some(t.weekday)
    ensures MonthIndex(MonthNames[t.month - 1]) == Some(t.month)
  {
  }

  /** The last piece of a prefix of `s` sits at that prefix's end, and the
      rest of the prefix is itself a prefix of `s`. */
  lemma PieceAt(s: string, p: string, piece: string)
    requires |p| + |piece| <= |s| && s[..|p| + |piece|] == p + piece
    ensures s[..|p|] == p
    ensures s[|p|..|p| + |piece|] == piece
  {
    var n := |p| + |piece|;
    assert s[..|p|] == s[..n][..|p|] == (p + piece)[..|p|];
    assert s[|p|..n] == s[..n][|p|..] == (p + piece)[|p|..];
  }

  /** Where each piece lands in the concatenation that `GetServerTime`
      builds, given the pieces' lengths. The proof walks the text from its end,
      peeling one piece off the prefix at a time. */
  lemma FixdateLayout(day: string, dd: string, mon: string, year: string, hh: string, mi: string, ss: string)
    requires |day| == 3 && |dd| == 2 && |mon| == 3 && |year| == 4 && |hh| == 2 && |mi| == 2 && |ss| == 2
    ensures var s := day + ", " + dd + " " + mon + " " + year + " " + hh + ":" + mi + ":" + ss + " GMT";
      |s| == 29 && s[..3] == day && s[3..5] == ", " && s[5..7] == dd && s[7] == ' '
      && s[8..11] == mon && s[11] == ' ' && s[12..14] == year[..2] && s[14..16] == year[2..]
      && s[16] == ' ' && s[17..19] == hh && s[19] == ':' && s[20..22] == mi && s[22] == ':'
      && s[23..25] == ss && s[25..] == " GMT"
  {
    var p2 := day + ", ";
    var p3 := p2 + dd;
    var p4 := p3 + " ";
    var p5 := p4 + mon;
    var p6 := p5 + " ";
    var p7 := p6 + year;
    var p8 := p7 + " ";
    var p9 := p8 + hh;
    var p10 := p9 + ":";
    var p11 := p10 + mi;
    var p12 := p11 + ":";
    var p13 := p12 + ss;
    var s := p13 + " GMT";
    assert s[..29] == s;
    PieceAt(s, p13, " GMT");
    PieceAt(s, p12, ss);
    PieceAt(s, p11, ":");
    PieceAt(s, p10, mi);
    PieceAt(s, p9, ":");
    PieceAt(s, p8, hh);
    PieceAt(s, p7, " ");
    PieceAt(s, p6, year);
    PieceAt(s, p5, " ");
    PieceAt(s, p4, mon);
    PieceAt(s, p3, " ");
    PieceAt(s, p2, dd);
    PieceAt(s, day, ", ");
    assert s[19] == s[19..20][0] && s[22] == s[22..23][0];
    assert s[7] == s[7..8][0] && s[11] == s[11..12][0] && s[16] == s[16..17][0];
    assert s[12..14] == s[12..16][..2] && s[14..16] == s[12..16][2..];
  }

  /** Formatting loses nothing for four-digit years: the text parses back to
      the same instant. */
  lemma ServerTimeRoundTrip(t: DateTime)
    requires ValidDateTime(t) && t.year < 10000
    ensures ParseServerTime(GetServerTime(t)) == Some(t)
  {
    var s := GetServerTime(t);
    FixdateLayout(DayNames[t.weekday], TwoDigits(t.day), MonthNames[t.month - 1], YearText(t.year),
                  TwoDigits(t.hour), TwoDigits(t.minute), TwoDigits(t.second));
    TwoDigitsRoundTrip(t.day);
    TwoDigitsRoundTrip(t.year / 100);
    TwoDigitsRoundTrip(t.year % 100);
    TwoDigitsRoundTrip(t.hour);
    TwoDigitsRoundTrip(t.minute);
    TwoDigitsRoundTrip(t.second);
    NamesRoundTrip(t);
    assert DayIndex(s[..3]) == Some(t.weekday) && MonthIndex(s[8..11]) == Some(t.month);
    assert 100 * TwoDigitsValue(s[12..14]) + TwoDigitsValue(s[14..16]) == t.year;
  }
}
