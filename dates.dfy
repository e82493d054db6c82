/**
 * Calendar dates as QDate holds them (proleptic Gregorian, no year 0), their
 * rendering as a DICOM DA value "YYYYMMDD" (DICOM PS3.5 section 6.2), the
 * manager's dateToString helper that maps an invalid date to the wildcard
 * "*", and the "dd/MM/yyyy" text the patient tree displays.
 */
module DcmDates {
  import opened DcmCommon

  datatype Date = Date(year: int, month: int, day: int)

  /** The null date QDate() (invalid). */
  const NULL_DATE := Date(0, 0, 0)

  predicate IsLeapYear(year: int) {
    // the year before 1 is -1, so a negative year is shifted by one first
    var y := if year < 1 then year + 1 else year;
    y % 4 == 0 && (y % 100 != 0 || y % 400 == 0)
  }

  function DaysInMonth(year: int, month: int): int
    requires 1 <= month <= 12
  {
    if month == 2 then (if IsLeapYear(year) then 29 else 28)
    else if month == 4 || month == 6 || month == 9 || month == 11 then 30
    else 31
  }

  predicate IsValid(d: Date) {
    d.year != 0 && 1 <= d.month <= 12 && 1 <= d.day <= DaysInMonth(d.year, d.month)
  }

  /** Chronological order; on valid dates it is the order of the calendar. */
  predicate Before(a: Date, b: Date) {
    a.year < b.year
    || (a.year == b.year && a.month < b.month)
    || (a.year == b.year && a.month == b.month && a.day < b.day)
  }

  predicate NotAfter(a: Date, b: Date) {
    !Before(b, a)
  }

  lemma BeforeIsStrict(a: Date, b: Date)
    ensures Before(a, b) ==> !Before(b, a)
    ensures !Before(a, b) && !Before(b, a) ==> a == b
  {
  }

  function Zeros(n: nat): (s: string)
    ensures |s| == n
  {
    seq(n, _ => '0')
  }

  function Pow10(k: nat): nat {
    if k == 0 then 1 else 10 * Pow10(k - 1)
  }

  /** n in decimal, left-padded with zeros to at least `width` characters. */
  function PadDigits(n: nat, width: nat): (s: string)
    ensures AllDigits(s) && width <= |s|
  {
    var digits := NatToDigits(n);
    if |digits| < width then Zeros(width - |digits|) + digits else digits
  }

  /** The "yyyy" field: four digits at least, a minus sign before a negative year. */
  function YearText(year: int): string {
    if year < 0 then "-" + PadDigits(-year, 4) else PadDigits(year, 4)
  }

  /** QDate::toString("yyyyMMdd"): the empty string for an invalid date. */
  function FormatYyyyMMdd(d: Date): string {
    if IsValid(d) then YearText(d.year) + PadDigits(d.month, 2) + PadDigits(d.day, 2) else ""
  }

  /** The manager's dateToString: "*" (match any date) for an invalid date, the DA value otherwise. */
  function DateToString(d: Date): (s: string)
    ensures s == "*" <==> !IsValid(d)
    ensures IsValid(d) ==> 8 <= |s|
  {
    if !IsValid(d) then "*" else FormatYyyyMMdd(d)
  }

  /** Reads a DICOM DA value: exactly eight digits YYYYMMDD. */
  function ParseDA(s: string): Option<Date> {
    if |s| == 8 && AllDigits(s) then
      Some(Date(DigitsValue(s[..4]), DigitsValue(s[4..6]), DigitsValue(s[6..])))
    else None
  }

  /** QDate::toString("dd/MM/yyyy"), the birth date text of the patient tree. */
  function FormatDdMMyyyy(d: Date): string {
    if IsValid(d) then PadDigits(d.day, 2) + "/" + PadDigits(d.month, 2) + "/" + YearText(d.year) else ""
  }

  /** QDate::fromString(s, "dd/MM/yyyy") before the validity check: two, two and four digits. */
  function ParseDdMMyyyy(s: string): Option<Date> {
    if |s| == 10 && s[2] == '/' && s[5] == '/' && AllDigits(s[..2]) && AllDigits(s[3..5]) && AllDigits(s[6..]) then
      Some(Date(DigitsValue(s[6..]), DigitsValue(s[3..5]), DigitsValue(s[..2])))
    else None
  }

  /**
   * The birth date conversion of addPatientDataToFetch: the "dd/MM/yyyy" text
   * re-rendered as "yyyyMMdd", the empty string when it does not denote a date.
   */
  function BirthDateToDA(s: string): string {
    match ParseDdMMyyyy(s)
    case Some(d) => FormatYyyyMMdd(d)
    case None => ""
  }

  lemma {:induction false} ZerosValue(k: nat)
    ensures AllDigits(Zeros(k)) && DigitsValue(Zeros(k)) == 0
  {
    if k > 0 {
      assert Zeros(k)[..k - 1] == Zeros(k - 1);
      ZerosValue(k - 1);
    }
  }

  lemma {:induction false} LeadingZerosValue(k: nat, s: string)
    requires AllDigits(s)
    ensures AllDigits(Zeros(k) + s) && DigitsValue(Zeros(k) + s) == DigitsValue(s)
  {
    ZerosValue(k);
    var t := Zeros(k) + s;
    if s == [] {
      assert t == Zeros(k);
    } else {
      assert t[..|t| - 1] == Zeros(k) + s[..|s| - 1];
      LeadingZerosValue(k, s[..|s| - 1]);
    }
  }

  lemma {:induction false} DigitsLength(n: nat, width: nat)
    requires 1 <= width && n < Pow10(width)
    ensures |NatToDigits(n)| <= width
  {
    if n >= 10 {
      assert width >= 2;
      assert n / 10 < Pow10(width - 1);
      DigitsLength(n / 10, width - 1);
    }
  }

  /** A number below 10^width pads to exactly `width` digits and reads back as itself. */
  lemma PadRoundTrip(n: nat, width: nat)
    requires 1 <= width && n < Pow10(width)
    ensures |PadDigits(n, width)| == width && DigitsValue(PadDigits(n, width)) == n
  {
    DigitsLength(n, width);
    DigitsRoundTrip(n);
    var digits := NatToDigits(n);
    if |digits| < width {
      LeadingZerosValue(width - |digits|, digits);
    }
  }

  /** A valid date of years 1 to 9999 renders as eight digits that read back as the same date. */
  lemma DateToStringRoundTrip(d: Date)
    requires IsValid(d) && 1 <= d.year <= 9999
    ensures |DateToString(d)| == 8 && AllDigits(DateToString(d))
    ensures ParseDA(DateToString(d)) == Some(d)
  {
    assert Pow10(2) == 100 && Pow10(4) == 10000;
    PadRoundTrip(d.year, 4);
    PadRoundTrip(d.month, 2);
    PadRoundTrip(d.day, 2);
    var s := DateToString(d);
    assert s[..4] == PadDigits(d.year, 4);
    assert s[4..6] == PadDigits(d.month, 2);
    assert s[6..] == PadDigits(d.day, 2);
  }

  /** The date text the patient tree shows converts to the DA value of the same date. */
  lemma BirthDateRoundTrip(d: Date)
    requires IsValid(d) && 1 <= d.year <= 9999
    ensures BirthDateToDA(FormatDdMMyyyy(d)) == DateToString(d)
  {
    assert Pow10(2) == 100 && Pow10(4) == 10000;
    PadRoundTrip(d.year, 4);
    PadRoundTrip(d.month, 2);
    PadRoundTrip(d.day, 2);
    var s := FormatDdMMyyyy(d);
    assert s[..2] == PadDigits(d.day, 2);
    assert s[3..5] == PadDigits(d.month, 2);
    assert s[6..] == PadDigits(d.year, 4);
    assert ParseDdMMyyyy(s) == Some(d);
  }
}
