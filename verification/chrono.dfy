/**
 * The part of the `chrono` crate that the datetime item uses: `NaiveDate`,
 * `NaiveDateTime`, `from_ymd_opt`, `and_hms_opt`, and the parser and
 * formatter, which stay uninterpreted functions of a `Chrono` value.
 */
module Chrono {
  import opened Wrappers

  /** The year range of `NaiveDate` (`i32::MIN >> 13 ..= i32::MAX >> 13`). */
  const MinYear: int := -262144
  const MaxYear: int := 262143

  datatype NaiveDate = NaiveDate(year: int, month: nat, day: nat)
  datatype NaiveDateTime = NaiveDateTime(date: NaiveDate, hour: nat, minute: nat, second: nat)

  /** Proleptic Gregorian leap years. */
  predicate IsLeapYear(year: int)
  {
    year % 4 == 0 && (year % 100 != 0 || year % 400 == 0)
  }

  function DaysInMonth(year: int, month: nat): nat
    requires 1 <= month <= 12
  {
    if month == 2 then (if IsLeapYear(year) then 29 else 28)
    else if month == 4 || month == 6 || month == 9 || month == 11 then 30
    else 31
  }

  predicate ValidDate(d: NaiveDate)
  {
    && MinYear <= d.year <= MaxYear
    && 1 <= d.month <= 12
    && 1 <= d.day <= DaysInMonth(d.year, d.month)
  }

  predicate ValidDateTime(d: NaiveDateTime)
  {
    ValidDate(d.date) && d.hour < 24 && d.minute < 60 && d.second < 60
  }

  /** `NaiveDate::from_ymd_opt`. */
  function FromYmdOpt(year: int, month: nat, day: nat): Option<NaiveDate>
  {
    if ValidDate(NaiveDate(year, month, day)) then Some(NaiveDate(year, month, day)) else None
  }

  /** `NaiveDate::and_hms_opt`. */
  function AndHmsOpt(date: NaiveDate, hour: nat, minute: nat, second: nat): Option<NaiveDateTime>
  {
    if hour < 24 && minute < 60 && second < 60 then Some(NaiveDateTime(date, hour, minute, second)) else None
  }

  /**
   * `NaiveDateTime::parse_from_str` (`None` for a parse error) and
   * `NaiveDateTime::format(..).to_string()`, both taking the format string.
   */
  datatype Chrono = Chrono(
    parseFromStr: (string, string) -> Option<NaiveDateTime>,
    format: (NaiveDateTime, string) -> string)

  /** The parser only produces dates and times that exist. */
  ghost predicate ParsesValid(c: Chrono)
  {
    forall s, f :: c.parseFromStr(s, f).Some? ==> ValidDateTime(c.parseFromStr(s, f).value)
  }
}
