# Prorated rent

A Dafny model of the prorated-rent calculator `calculate_prorated_rent`
(`app.py`). Given a monthly rent, a year, a month number and a move-in day,
the calculator looks up the number of days in that month, rejects a move-in
day outside the month, counts the occupied days (the move-in day counts),
derives a daily rate and the rent owed, and returns a `ProratedRentResult`
dataclass. The dataclass is not frozen, so Python would let it be changed, but
nothing changes it after construction; the model makes it an immutable
datatype.

- `calendar.dfy` (module `Calendar`): the Gregorian days-in-month rule that
  stands in for `calendar.monthrange(year, month)[1]`, with the library's
  table-plus-leap-day form as an independent reference definition.
- `proration.dfy` (module `Proration`): the `MONTHS` table, the result
  record, the error cases and `CalculateProratedRent`, with lemmas for the
  full-month, last-day, bounds, split and monotonicity properties.

Money amounts (`monthlyRent`, `dailyRate`, `proratedRent`) are `real`.
The calculation returns `Result`: `Ok(record)` or `Err(error)` in place of the
raised exception.

Where the docstring and the code differ: the docstring says `month_index` is
1..12, but the function does not check it; `calendar.monthrange` does, and
raises for any other month. The model follows the code and returns
`Err(IllegalMonth(monthIndex))` for such a month, instead of restricting
callers with a precondition. Any year is accepted, as in the code; the
1900..2100 bound belongs to the input widget only.

Declarations that model source entities but carry no contract of their own:

- `Proration.Months` models the `MONTHS` table (app.py:5-8).
- `Proration.ProratedRentResult` models the result dataclass (app.py:10-19).
- `Proration.ProrationError` models the two rejections: `IllegalMonth` for
  the error `calendar.monthrange` raises on a month outside 1..12 (app.py:27),
  `MoveInDayOutOfRange` for the `ValueError` (app.py:29-30).
- `Calendar.IsLeapYear` is the leap-year rule behind app.py:27.
- `Calendar.TableDaysInMonth` is the library's own form of the month length,
  the common-year table plus one day for a leap-year February (app.py:27).

## Model

| member | source | states |
|---|---|---|
| Calendar.DaysInMonth | app.py:27 | every month has 28, 29, 30 or 31 days; only February can have 28 or 29 |
| Calendar.DaysInMonthMatchesTable | app.py:27 | the Gregorian rule equals the common-year table plus one day for February of a leap year, for every year and month |
| Calendar.FebruaryLength | app.py:27 | February has 29 days exactly in leap years and 28 otherwise |
| Calendar.OnlyFebruaryDependsOnYear | app.py:27 | every month other than February has the same length in every year |
| Calendar.LeapYearExamples | app.py:27 | 2024-02 and 2000-02 have 29 days, 2023-02 and 1900-02 have 28, 2026-01 has 31 |
| Calendar.YearLength | app.py:27 | the twelve month lengths sum to 366 in a leap year and 365 otherwise |
| Proration.DaysOccupied | app.py:32 | a valid move-in day leaves between 1 and days-in-month occupied days, and the occupied days plus the days before move-in make up the month |
| Proration.DailyRate | app.py:33 | the daily rate times the month's length gives back the monthly rent |
| Proration.ProratedAmount | app.py:34 | one daily rate per occupied day equals the rent times occupied/days in month (the fraction of the caption at app.py:78), and for a non-negative rent it lies between 0 and the rent |
| Proration.ProratedAmountMonotone | app.py:34 | for a non-negative rent fewer occupied days never owe more |
| Proration.CalculateProratedRent | app.py:22-45 | a result exists exactly when the month is 1..12 and the move-in day is in 1..days-in-month; otherwise the matching error, carrying the month's length for a bad day; a result echoes the inputs, names the month from `MONTHS`, has occupied days + days before move-in = days in month, daily rate × days in month = rent, and prorated rent = rent × occupied/days in month |
| Proration.FullMonth | app.py:32-34 | moving in on day 1 occupies the whole month and owes the full rent |
| Proration.LastDay | app.py:32-34 | moving in on the last day occupies one day and owes one daily rate, rent / days in month |
| Proration.ProratedWithinRent | app.py:33-34 | for a non-negative rent the amount owed lies between 0 and the monthly rent |
| Proration.RentSplitsAtMoveIn | app.py:32-34 | the rent owed plus one daily rate per day before move-in equals the monthly rent |
| Proration.OneDayLater | app.py:32-34 | moving in one day later leaves the daily rate unchanged and owes exactly one daily rate less |
| Proration.LaterMoveInOwesLess | app.py:32-34 | for a non-negative rent a later move-in never owes more |
| Proration.JanuaryExample | app.py:32-45 | rent 1750, January 2026, day 18: 31 days, 14 occupied, daily rate between 56.45 and 56.46, owed 24500/31, between 790.32 and 790.33 |
| Proration.BoundaryDaysRejected | app.py:29-30 | move-in day 0 and days-in-month + 1 are rejected |

## Left out

- Floating-point rounding: money amounts are exact reals, so the model does not capture IEEE rounding of the daily rate or the prorated rent.
- Non-finite rents: the function itself accepts a NaN or infinite `monthly_rent` (only the form at app.py:51 keeps it at 0 or above), and reals cannot represent those values.
- The weekday that `calendar.monthrange` also returns: the calculation never uses it.
- The error message text: the model keeps the error kind and the bound the message names, not the formatted string.
- The Streamlit form, its input bounds and the `:.2f` display (app.py:48-78): user-interface code.
- The spreadsheet estimator (`estimator.py`): file copying, cell writes through a spreadsheet library and formula recalculation by an external engine, none of which is logic of this repository.
