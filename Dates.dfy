/** Calendar dates at day granularity, and the two ways the application moves a
    date by whole months:
    - date-fns `addMonths`, which clamps the day to the length of the target month
      (Jan 31 + 1 month = Feb 28 or 29);
    - JavaScript's own `setMonth` / `setFullYear`, which let an impossible day
      overflow into the following month (Jan 31 with month set to February = Mar 3).
    Dates are compared the way `isBefore` and `<` compare two `Date` values. */
module Dates {

  datatype Date = Date(year: int, month: int, day: int)

  predicate IsLeapYear(y: int) {
    (y % 4 == 0 && y % 100 != 0) || y % 400 == 0
  }

  function DaysInMonth(y: int, m: int): (n: int)
    requires 1 <= m <= 12
    ensures 28 <= n <= 31
    ensures n == 31 <==> m in {1, 3, 5, 7, 8, 10, 12}
    ensures n == 28 <==> (m == 2 && !IsLeapYear(y))
  {
    if m == 2 then (if IsLeapYear(y) then 29 else 28)
    else if m == 4 || m == 6 || m == 9 || m == 11 then 30
    else 31
  }

  /** What a JavaScript `Date` always is: a real day of the Gregorian calendar. */
  predicate ValidDate(d: Date) {
    1 <= d.month <= 12 && 1 <= d.day <= DaysInMonth(d.year, d.month)
  }

  /** `isBefore(a, b)`, equivalently `a < b` on two dates: strictly earlier. */
  predicate Before(a: Date, b: Date) {
    a.year < b.year
    || (a.year == b.year && a.month < b.month)
    || (a.year == b.year && a.month == b.month && a.day < b.day)
  }

  /** Months elapsed since January of year 0. */
  function MonthIndex(d: Date): int {
    d.year * 12 + d.month - 1
  }

  /** The year and month `k` months after month `m` of year `y`. */
  function ShiftMonth(y: int, m: int, k: int): (r: (int, int))
    requires 1 <= m <= 12
    ensures 1 <= r.1 <= 12
    ensures r.0 * 12 + r.1 - 1 == y * 12 + m - 1 + k
  {
    var total := y * 12 + m - 1 + k;
    (total / 12, total % 12 + 1)
  }

  /** date-fns `addMonths(d, k)`: move `k` months and clamp the day to the month. */
  function AddMonths(d: Date, k: int): (r: Date)
    requires ValidDate(d)
    ensures ValidDate(r)
    ensures MonthIndex(r) == MonthIndex(d) + k
    ensures r.day == d.day || (r.day < d.day && r.day == DaysInMonth(r.year, r.month))
  {
    var ym := ShiftMonth(d.year, d.month, k);
    var last := DaysInMonth(ym.0, ym.1);
    Date(ym.0, ym.1, if d.day <= last then d.day else last)
  }

  /** `new Date(y, m, day)` for a day that is at most 31: a day past the end of the
      month rolls over into the next month. */
  function Overflow(y: int, m: int, day: int): (r: Date)
    requires 1 <= m <= 12 && 1 <= day <= 31
    ensures ValidDate(r)
    ensures day <= DaysInMonth(y, m) ==> r == Date(y, m, day)
    ensures day > DaysInMonth(y, m) ==>
              MonthIndex(r) == y * 12 + m && r.day == day - DaysInMonth(y, m)
  {
    var last := DaysInMonth(y, m);
    if day <= last then Date(y, m, day)
    else
      var next := ShiftMonth(y, m, 1);
      Date(next.0, next.1, day - last)
  }

  /** `new Date(d.setMonth(d.getMonth() + k))`. */
  function SetMonthPlus(d: Date, k: int): (r: Date)
    requires ValidDate(d)
    ensures ValidDate(r)
    ensures var t := ShiftMonth(d.year, d.month, k);
      d.day <= DaysInMonth(t.0, t.1) ==> MonthIndex(r) == MonthIndex(d) + k && r.day == d.day
    ensures var t := ShiftMonth(d.year, d.month, k);
      d.day > DaysInMonth(t.0, t.1) ==>
        MonthIndex(r) == MonthIndex(d) + k + 1 && r.day == d.day - DaysInMonth(t.0, t.1)
  {
    var ym := ShiftMonth(d.year, d.month, k);
    Overflow(ym.0, ym.1, d.day)
  }

  /** `new Date(d.setFullYear(d.getFullYear() + k))`. */
  function SetYearPlus(d: Date, k: int): (r: Date)
    requires ValidDate(d)
    ensures ValidDate(r)
    ensures r == Date(d.year + k, d.month, d.day)
            || (d.month == 2 && d.day == 29 && r == Date(d.year + k, 3, 1))
    ensures ValidDate(Date(d.year + k, d.month, d.day)) ==> r == Date(d.year + k, d.month, d.day)
  {
    Overflow(d.year + k, d.month, d.day)
  }

  /** `Before` is the strict lexicographic order on (year, month, day). */
  lemma BeforeTransitive(a: Date, b: Date, c: Date)
    requires Before(a, b) && Before(b, c)
    ensures Before(a, c)
  {
  }

  lemma BeforeMonthIndex(a: Date, b: Date)
    requires ValidDate(a) && ValidDate(b)
    ensures MonthIndex(a) < MonthIndex(b) ==> Before(a, b)
    ensures Before(a, b) ==> MonthIndex(a) <= MonthIndex(b)
  {
  }

  /** Adding at least one month always gives a strictly later date. */
  lemma AddMonthsIsLater(d: Date, k: int)
    requires ValidDate(d) && k >= 1
    ensures Before(d, AddMonths(d, k))
  {
    BeforeMonthIndex(d, AddMonths(d, k));
  }
}
