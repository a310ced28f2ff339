/** Calendar dates as the database stores them (`yyyy-MM-dd`), and the
    day count that date arithmetic works with. The time of day, time zones
    and the date library's parsing are not modelled: "today" is a date. */
module Calendar {
  import Text

  /** A proleptic Gregorian date; `month` runs 1..12 (JavaScript's
      `getMonth()` is `month - 1`). */
  datatype CivilDate = CivilDate(year: int, month: int, day: int)

  predicate IsLeapYear(y: int) {
    (y % 4 == 0 && y % 100 != 0) || y % 400 == 0
  }

  /** `new Date(y, m, 0).getDate()`: the number of days of month `m`. */
  function DaysInMonth(y: int, m: int): (r: int)
    ensures 28 <= r <= 31
  {
    if m == 2 then (if IsLeapYear(y) then 29 else 28)
    else if m == 4 || m == 6 || m == 9 || m == 11 then 30
    else 31
  }

  /** A date that names a real calendar day, as every stored date does. */
  predicate ValidDate(d: CivilDate) {
    1 <= d.month <= 12 && 1 <= d.day <= DaysInMonth(d.year, d.month)
  }

  /** Days since 1970-01-01 (negative before it): the count behind
      `getTime()` differences and `subDays`. */
  function DayNumber(d: CivilDate): int {
    var y := if d.month <= 2 then d.year - 1 else d.year;
    var era := y / 400;
    var yoe := y % 400;
    var mp := if d.month > 2 then d.month - 3 else d.month + 9;
    var doy := (153 * mp + 2) / 5 + d.day - 1;
    var doe := yoe * 365 + yoe / 4 - yoe / 100 + doy;
    era * 146097 + doe - 719468
  }

  /** Zero-pads `s` on the left to `width` characters. */
  function Pad(s: string, width: nat): (r: string)
    ensures |r| >= width && |r| >= |s|
    ensures forall k :: 0 <= k < |r| ==> r[k] == '0' || r[k] in s
    decreases width - |s|
  {
    if |s| >= width then s else Pad("0" + s, width)
  }

  /** `format(d, 'yyyy-MM-dd')`: digits and dashes only. */
  function DateText(d: CivilDate): (r: string)
    ensures forall k :: 0 <= k < |r| ==> r[k] == '-' || '0' <= r[k] <= '9'
  {
    (if d.year < 0 then "-" + Pad(Text.NatToString(-d.year), 4) else Pad(Text.NatToString(d.year), 4))
      + "-" + Pad(Text.IntToString(d.month), 2) + "-" + Pad(Text.IntToString(d.day), 2)
  }
}
