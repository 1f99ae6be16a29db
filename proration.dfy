/** The prorated-rent calculation: the rent owed for a partial month in which
    the tenant moves in on `moveInDay`, that day itself counting as occupied.
    Money amounts are real numbers, not floating point. */
module Proration {
  import opened Calendar

  /** Month names, indexed by month number minus one. */
  const Months: seq<string> := [
    "January", "February", "March", "April", "May", "June",
    "July", "August", "September", "October", "November", "December"
  ]

  /** One proration, built once per calculation and never updated. */
  datatype ProratedRentResult = ProratedRentResult(
    month: string,
    year: int,
    monthlyRent: real,
    moveInDay: int,
    daysInMonth: int,
    daysOccupied: int,
    dailyRate: real,
    proratedRent: real
  )

  /** The two ways the calculation is rejected: a month number the calendar
      refuses, and a move-in day outside 1..daysInMonth (the error carries
      the bound its message names). */
  datatype ProrationError =
    | IllegalMonth(monthIndex: int)
    | MoveInDayOutOfRange(moveInDay: int, daysInMonth: int)

  datatype Result<+T> = Ok(value: T) | Err(error: ProrationError)

  /** The record's invariant: the move-in day lies in the month, the occupied
      days and the days before move-in make up the month, the daily rate
      times the month's length gives back the rent, and the prorated rent is
      the rent times the occupied fraction of the month. */
  predicate WellFormed(res: ProratedRentResult) {
    28 <= res.daysInMonth <= 31
    && 1 <= res.moveInDay <= res.daysInMonth
    && 1 <= res.daysOccupied <= res.daysInMonth
    && res.daysOccupied + (res.moveInDay - 1) == res.daysInMonth
    && res.dailyRate * res.daysInMonth as real == res.monthlyRent
    && res.proratedRent == res.monthlyRent * res.daysOccupied as real / res.daysInMonth as real
  }

  /** The record repeats the caller's inputs unchanged, with the month given
      by name. */
  predicate Echoes(res: ProratedRentResult, monthlyRent: real, year: int, monthIndex: int, moveInDay: int)
    requires IsMonth(monthIndex)
  {
    res.month == Months[monthIndex - 1]
    && res.year == year
    && res.monthlyRent == monthlyRent
    && res.moveInDay == moveInDay
  }

  /** The move-in day is acceptable exactly when it falls inside the month. */
  predicate ValidRequest(year: int, monthIndex: int, moveInDay: int) {
    IsMonth(monthIndex) && 1 <= moveInDay <= DaysInMonth(year, monthIndex)
  }

  /** Days from the move-in day to the end of the month, the move-in day
      included. */
  function DaysOccupied(daysInMonth: int, moveInDay: int): (occupied: int)
    requires 1 <= moveInDay <= daysInMonth
    ensures 1 <= occupied <= daysInMonth
    ensures occupied + (moveInDay - 1) == daysInMonth
  {
    daysInMonth - moveInDay + 1
  }

  /** The month's rent spread evenly over its days. */
  function DailyRate(monthlyRent: real, daysInMonth: int): (rate: real)
    requires 0 < daysInMonth
    ensures rate * daysInMonth as real == monthlyRent
  {
    monthlyRent / daysInMonth as real
  }

  /** One daily rate for each occupied day: the rent times the occupied
      fraction of the month, and, for a non-negative rent, between nothing
      and the full rent. */
  function ProratedAmount(monthlyRent: real, daysInMonth: int, daysOccupied: int): (owed: real)
    requires 1 <= daysOccupied <= daysInMonth
    ensures owed == monthlyRent * daysOccupied as real / daysInMonth as real
    ensures monthlyRent >= 0.0 ==> 0.0 <= owed <= monthlyRent
  {
    var rate := DailyRate(monthlyRent, daysInMonth);
    var d, o := daysInMonth as real, daysOccupied as real;
    assert monthlyRent >= 0.0 ==> 0.0 <= rate * o <= monthlyRent by {
      if monthlyRent >= 0.0 {
        ProductNonNegative(rate, o);
        ProductNonNegative(rate, d - o);
        assert rate * d == rate * o + rate * (d - o);
      }
    }
    rate * o
  }

  function CalculateProratedRent(monthlyRent: real, year: int, monthIndex: int, moveInDay: int): (r: Result<ProratedRentResult>)
    ensures r.Ok? <==> ValidRequest(year, monthIndex, moveInDay)
    ensures !IsMonth(monthIndex) ==> r == Err(IllegalMonth(monthIndex))
    ensures IsMonth(monthIndex) && !(1 <= moveInDay <= DaysInMonth(year, monthIndex)) ==>
      r == Err(MoveInDayOutOfRange(moveInDay, DaysInMonth(year, monthIndex)))
    ensures r.Ok? ==> WellFormed(r.value) && Echoes(r.value, monthlyRent, year, monthIndex, moveInDay)
    ensures r.Ok? ==> r.value.daysInMonth == DaysInMonth(year, monthIndex)
  {
    if !IsMonth(monthIndex) then
      Err(IllegalMonth(monthIndex))
    else
      var daysInMonth := DaysInMonth(year, monthIndex);
      if !(1 <= moveInDay <= daysInMonth) then
        Err(MoveInDayOutOfRange(moveInDay, daysInMonth))
      else
        var daysOccupied := DaysOccupied(daysInMonth, moveInDay);
        var dailyRate := DailyRate(monthlyRent, daysInMonth);
        var proratedRent := ProratedAmount(monthlyRent, daysInMonth, daysOccupied);
        Ok(ProratedRentResult(
          month := Months[monthIndex - 1],
          year := year,
          monthlyRent := monthlyRent,
          moveInDay := moveInDay,
          daysInMonth := daysInMonth,
          daysOccupied := daysOccupied,
          dailyRate := dailyRate,
          proratedRent := proratedRent
        ))
  }

  /** Moving in on the first day owes the whole month's rent. */
  lemma FullMonth(monthlyRent: real, year: int, monthIndex: int)
    requires IsMonth(monthIndex)
    ensures CalculateProratedRent(monthlyRent, year, monthIndex, 1).Ok?
    ensures CalculateProratedRent(monthlyRent, year, monthIndex, 1).value.daysOccupied
         == DaysInMonth(year, monthIndex)
    ensures CalculateProratedRent(monthlyRent, year, monthIndex, 1).value.proratedRent == monthlyRent
  {
  }

  /** Moving in on the last day owes exactly one day's rate. */
  lemma LastDay(monthlyRent: real, year: int, monthIndex: int)
    requires IsMonth(monthIndex)
    ensures var r := CalculateProratedRent(monthlyRent, year, monthIndex, DaysInMonth(year, monthIndex));
      r.Ok? && r.value.daysOccupied == 1
      && r.value.proratedRent == r.value.dailyRate
      && r.value.proratedRent == monthlyRent / DaysInMonth(year, monthIndex) as real
  {
  }

  /** For a non-negative rent, the amount owed is never negative and never
      more than the full month's rent. */
  lemma ProratedWithinRent(monthlyRent: real, year: int, monthIndex: int, moveInDay: int)
    requires monthlyRent >= 0.0
    requires ValidRequest(year, monthIndex, moveInDay)
    ensures var res := CalculateProratedRent(monthlyRent, year, monthIndex, moveInDay).value;
      0.0 <= res.proratedRent <= res.monthlyRent
  {
  }

  /** The rent for the days before move-in and the rent owed make up the
      month's rent. */
  lemma RentSplitsAtMoveIn(monthlyRent: real, year: int, monthIndex: int, moveInDay: int)
    requires ValidRequest(year, monthIndex, moveInDay)
    ensures var res := CalculateProratedRent(monthlyRent, year, monthIndex, moveInDay).value;
      res.proratedRent + res.dailyRate * (moveInDay - 1) as real == monthlyRent
  {
  }

  /** Moving in one day later saves exactly one day's rate. */
  lemma OneDayLater(monthlyRent: real, year: int, monthIndex: int, moveInDay: int)
    requires ValidRequest(year, monthIndex, moveInDay + 1) && 1 <= moveInDay
    ensures var early := CalculateProratedRent(monthlyRent, year, monthIndex, moveInDay);
      var late := CalculateProratedRent(monthlyRent, year, monthIndex, moveInDay + 1);
      early.Ok? && late.Ok?
      && early.value.dailyRate == late.value.dailyRate
      && early.value.proratedRent == late.value.proratedRent + late.value.dailyRate
  {
  }

  /** For a non-negative rent, a later move-in never owes more. */
  lemma LaterMoveInOwesLess(monthlyRent: real, year: int, monthIndex: int, day1: int, day2: int)
    requires monthlyRent >= 0.0
    requires ValidRequest(year, monthIndex, day1) && ValidRequest(year, monthIndex, day2)
    requires day1 <= day2
    ensures CalculateProratedRent(monthlyRent, year, monthIndex, day2).value.proratedRent
         <= CalculateProratedRent(monthlyRent, year, monthIndex, day1).value.proratedRent
  {
    var d := DaysInMonth(year, monthIndex);
    ProratedAmountMonotone(monthlyRent, d, DaysOccupied(d, day2), DaysOccupied(d, day1));
  }

  /** For a non-negative rent, fewer occupied days never owe more. */
  lemma ProratedAmountMonotone(monthlyRent: real, daysInMonth: int, fewer: int, more: int)
    requires 0.0 <= monthlyRent && 1 <= fewer <= more <= daysInMonth
    ensures ProratedAmount(monthlyRent, daysInMonth, fewer) <= ProratedAmount(monthlyRent, daysInMonth, more)
  {
    var d := daysInMonth as real;
    ProductNonNegative(monthlyRent, (more - fewer) as real);
    assert monthlyRent * more as real == monthlyRent * fewer as real + monthlyRent * (more - fewer) as real;
    assert monthlyRent * fewer as real / d <= monthlyRent * more as real / d;
  }

  /** The product of two non-negative reals is non-negative. */
  lemma ProductNonNegative(a: real, b: real)
    requires 0.0 <= a && 0.0 <= b
    ensures 0.0 <= a * b
  {
  }

  /** A rent of 1750 for a move-in on 18 January 2026: 14 of 31 days are
      occupied, a daily rate of about 56.45 and about 790.32 owed. */
  lemma JanuaryExample()
    ensures var r := CalculateProratedRent(1750.0, 2026, 1, 18);
      r.Ok?
      && r.value.month == "January"
      && r.value.daysInMonth == 31
      && r.value.daysOccupied == 14
      && r.value.proratedRent == 24500.0 / 31.0
      && 56.45 < r.value.dailyRate < 56.46
      && 790.32 < r.value.proratedRent < 790.33
  {
  }

  /** Day 0 and the day after the month's last are both rejected. */
  lemma BoundaryDaysRejected(monthlyRent: real, year: int, monthIndex: int)
    requires IsMonth(monthIndex)
    ensures CalculateProratedRent(monthlyRent, year, monthIndex, 0).Err?
    ensures CalculateProratedRent(monthlyRent, year, monthIndex, DaysInMonth(year, monthIndex) + 1).Err?
  {
  }
}
