/**
  The StandardOrderParams element of a date-range download: a DateRange
  holding a Start and an End date, each written as yyyy-MM-dd.
*/
module StartEndDateOrderParams {
  import opened Wrappers

  /** The calendar and clock fields of a .NET DateTime. */
  datatype DateTimeFields = DateTimeFields(
    year: int, month: int, day: int,
    hour: int, minute: int, second: int, millisecond: int)

  predicate IsLeapYear(y: int) {
    y % 4 == 0 && (y % 100 != 0 || y % 400 == 0)
  }

  function DaysInMonth(y: int, m: int): int
    requires 1 <= m <= 12
  {
    if m == 2 then (if IsLeapYear(y) then 29 else 28)
    else if m == 4 || m == 6 || m == 9 || m == 11 then 30
    else 31
  }

  /** The range a DateTime can hold: years 1 to 9999 of the Gregorian calendar. */
  predicate ValidFields(d: DateTimeFields) {
    && 1 <= d.year <= 9999
    && 1 <= d.month <= 12
    && 1 <= d.day <= DaysInMonth(d.year, d.month)
    && 0 <= d.hour < 24 && 0 <= d.minute < 60 && 0 <= d.second < 60
    && 0 <= d.millisecond < 1000
  }

  type DateTime = d: DateTimeFields | ValidFields(d) witness DateTimeFields(1, 1, 1, 0, 0, 0, 0)

  /** The calendar day of a DateTime, without its time of day. */
  datatype Date = Date(year: int, month: int, day: int)

  function DateOf(d: DateTime): Date {
    Date(d.year, d.month, d.day)
  }

  predicate IsDigit(c: char) {
    '0' <= c <= '9'
  }

  function Digit(n: int): (c: char)
    requires 0 <= n < 10
    ensures IsDigit(c)
  {
    (48 + n) as char
  }

  function DigitValue(c: char): int
    requires IsDigit(c)
  {
    c as int - 48
  }

  function Pad2(n: int): string
    requires 0 <= n < 100
  {
    [Digit(n / 10), Digit(n % 10)]
  }

  function Pad4(n: int): string
    requires 0 <= n < 10000
  {
    var q1 := n / 10;
    var q2 := q1 / 10;
    [Digit(q2 / 10), Digit(q2 % 10), Digit(q1 % 10), Digit(n % 10)]
  }

  /** The shape of a yyyy-MM-dd text: ten characters, dashes at 4 and 7, digits elsewhere. */
  predicate IsDateText(s: string) {
    && |s| == 10
    && s[4] == '-' && s[7] == '-'
    && forall i :: 0 <= i < 10 && i != 4 && i != 7 ==> IsDigit(s[i])
  }

  /** DateTime.ToString("yyyy-MM-dd"): zero-padded year, month and day. */
  function FormatDate(d: DateTime): (s: string)
    ensures IsDateText(s)
  {
    Pad4(d.year) + "-" + Pad2(d.month) + "-" + Pad2(d.day)
  }

  /** The decimal value of a run of digits. */
  function Number(s: string): int
    requires forall i :: 0 <= i < |s| ==> IsDigit(s[i])
  {
    if s == [] then 0 else Number(s[..|s| - 1]) * 10 + DigitValue(s[|s| - 1])
  }

  /** Reads a yyyy-MM-dd text back into a calendar day: the inverse of FormatDate. */
  function ParseDate(s: string): Option<Date> {
    if IsDateText(s) then Some(Date(Number(s[0..4]), Number(s[5..7]), Number(s[8..10])))
    else None
  }

  lemma {:induction false} Pad4Value(n: int)
    requires 0 <= n < 10000
    ensures Number(Pad4(n)) == n
  {
    var s := Pad4(n);
    var q1 := n / 10;
    var q2 := q1 / 10;
    assert DigitValue(s[0]) == q2 / 10 && DigitValue(s[1]) == q2 % 10;
    assert DigitValue(s[2]) == q1 % 10 && DigitValue(s[3]) == n % 10;
    assert Number(s[..1]) == q2 / 10 by { assert s[..1][..0] == []; }
    assert Number(s[..2]) == q2 by { assert s[..2][..1] == s[..1]; }
    assert Number(s[..3]) == q1 by { assert s[..3][..2] == s[..2]; }
    assert Number(s) == Number(s[..3]) * 10 + DigitValue(s[3]);
  }

  lemma {:induction false} Pad2Value(n: int)
    requires 0 <= n < 100
    ensures Number(Pad2(n)) == n
  {
    var s := Pad2(n);
    assert Number(s[..1]) == DigitValue(s[0]) by { assert s[..1][..0] == []; }
    assert Number(s) == Number(s[..1]) * 10 + DigitValue(s[1]);
  }

  /** Round trip: the rendered text reads back as the DateTime's calendar day. */
  lemma {:induction false} FormatDateRoundTrip(d: DateTime)
    ensures ParseDate(FormatDate(d)) == Some(DateOf(d))
  {
    var s := FormatDate(d);
    assert s[0..4] == Pad4(d.year);
    assert s[5..7] == Pad2(d.month);
    assert s[8..10] == Pad2(d.day);
    Pad4Value(d.year);
    Pad2Value(d.month);
    Pad2Value(d.day);
  }

  /** Two DateTimes render identically exactly when they fall on the same calendar day. */
  lemma {:induction false} FormatDateIdentifiesDay(a: DateTime, b: DateTime)
    ensures FormatDate(a) == FormatDate(b) <==> DateOf(a) == DateOf(b)
  {
    if FormatDate(a) == FormatDate(b) {
      FormatDateRoundTrip(a);
      FormatDateRoundTrip(b);
    }
  }

  /** The slice of an XML element tree the serialiser builds. */
  datatype XElement = XElement(name: string, text: string, children: seq<XElement>)

  /** StandardOrderParams / DateRange / (Start, End), the dates rendered as yyyy-MM-dd. */
  function Serialize(startDate: DateTime, endDate: DateTime): (e: XElement)
    ensures e.name == "StandardOrderParams" && |e.children| == 1
    ensures e.children[0].name == "DateRange" && |e.children[0].children| == 2
    ensures e.children[0].children[0].name == "Start" && IsDateText(e.children[0].children[0].text)
    ensures e.children[0].children[1].name == "End" && IsDateText(e.children[0].children[1].text)
  {
    XElement("StandardOrderParams", "", [
      XElement("DateRange", "", [
        XElement("Start", FormatDate(startDate), []),
        XElement("End", FormatDate(endDate), [])])])
  }

  /** Reads the calendar days back from a StandardOrderParams element, in (Start, End) order. */
  function ReadDateRange(e: XElement): Option<(Date, Date)> {
    if && e.name == "StandardOrderParams" && |e.children| == 1
       && e.children[0].name == "DateRange" && |e.children[0].children| == 2
       && e.children[0].children[0].name == "Start"
       && e.children[0].children[1].name == "End"
    then
      match (ParseDate(e.children[0].children[0].text), ParseDate(e.children[0].children[1].text))
      case (Some(s), Some(t)) => Some((s, t))
      case _ => None
    else None
  }

  /**
    The element holds the start day then the end day, as given: no order
    between them is demanded or imposed, and the time of day is dropped.
  */
  lemma {:induction false} SerializeRoundTrip(startDate: DateTime, endDate: DateTime)
    ensures ReadDateRange(Serialize(startDate, endDate)) == Some((DateOf(startDate), DateOf(endDate)))
  {
    FormatDateRoundTrip(startDate);
    FormatDateRoundTrip(endDate);
  }

  /**
    Time of day is ignored: two date pairs serialise identically exactly
    when they fall on the same calendar days.
  */
  lemma SerializeIgnoresTimeOfDay(s1: DateTime, e1: DateTime, s2: DateTime, e2: DateTime)
    ensures Serialize(s1, e1) == Serialize(s2, e2) <==> DateOf(s1) == DateOf(s2) && DateOf(e1) == DateOf(e2)
  {
    FormatDateIdentifiesDay(s1, s2);
    FormatDateIdentifiesDay(e1, e2);
  }
}
