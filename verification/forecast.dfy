/**
 * The integrated month forecast: from the month's totals collected by the
 * other modules it projects leads and revenue at the current daily run rate,
 * sets the revenue target at 115% of the projection, and derives the gaps,
 * the daily pace still needed, the risk level and the alert and action lists.
 */
module Forecast {
  import opened Wrappers

  // ---------------------------------------------------------------------------
  // Calendar
  // ---------------------------------------------------------------------------

  predicate IsLeap(y: int) {
    y % 4 == 0 && (y % 100 != 0 || y % 400 == 0)
  }

  /** The Gregorian month lengths. */
  function DaysInMonth(y: int, m: int): (r: int)
    requires 1 <= m <= 12
    ensures 28 <= r <= 31
    ensures m == 2 ==> (r == 29 <==> IsLeap(y))
  {
    if m == 2 then (if IsLeap(y) then 29 else 28)
    else if m == 4 || m == 6 || m == 9 || m == 11 then 30
    else 31
  }

  /** Days of year `y` before the first of month `m`. */
  function DaysBeforeMonth(y: int, m: int): int
    requires 1 <= m <= 12
  {
    if m == 1 then 0 else DaysBeforeMonth(y, m - 1) + DaysInMonth(y, m - 1)
  }

  /** The number of leap years among 1 .. y - 1. */
  function LeapsBefore(y: int): int
    requires y >= 1
  {
    (y - 1) / 4 - (y - 1) / 100 + (y - 1) / 400
  }

  /** The day number (days since 1970-01-01) of the first of month `m` of year `y`. */
  function MonthStart(y: int, m: int): int
    requires y >= 1 && 1 <= m <= 12
  {
    365 * (y - 1970) + LeapsBefore(y) - LeapsBefore(1970) + DaysBeforeMonth(y, m)
  }

  /** The day number of the first of the month after `m`. */
  function NextMonthStart(y: int, m: int): int
    requires y >= 1 && 1 <= m <= 12
  {
    if m == 12 then MonthStart(y + 1, 1) else MonthStart(y, m + 1)
  }

  /**
   * The number of days in the month, found as the source finds it: the last
   * day of the month is the day before the first of the next month.
   */
  function MonthLength(y: int, m: int): int
    requires y >= 1 && 1 <= m <= 12
  {
    NextMonthStart(y, m) - MonthStart(y, m)
  }

  /** A year adds a leap day exactly when it is a leap year. */
  lemma LeapsBeforeStep(y: int)
    requires y >= 1
    ensures LeapsBefore(y + 1) - LeapsBefore(y) == if IsLeap(y) then 1 else 0
  {
    FloorStep4(y - 1);
    FloorStep100(y - 1);
    FloorStep400(y - 1);
    CenturiesAreLeapCandidates(y);
    LeapCount(y % 4 == 0, y % 100 == 0, y % 400 == 0);
  }

  lemma CenturiesAreLeapCandidates(y: int)
    ensures y % 400 == 0 ==> y % 100 == 0
    ensures y % 100 == 0 ==> y % 4 == 0
  {
    if y % 400 == 0 {
      var k := y / 400;
      MultipleOf100(4 * k);
      assert y == 100 * (4 * k);
    }
    if y % 100 == 0 {
      var k := y / 100;
      MultipleOf4(25 * k);
      assert y == 4 * (25 * k);
    }
  }

  lemma MultipleOf100(m: int)
    ensures (100 * m) % 100 == 0
  {
  }

  lemma MultipleOf4(m: int)
    ensures (4 * m) % 4 == 0
  {
  }

  /** The inclusion-exclusion count of one year's leap day. */
  lemma LeapCount(by4: bool, by100: bool, by400: bool)
    requires by400 ==> by100
    requires by100 ==> by4
    ensures (if by4 then 1 else 0) - (if by100 then 1 else 0) + (if by400 then 1 else 0)
            == if by4 && (!by100 || by400) then 1 else 0
  {
  }

  lemma FloorStep4(x: nat)
    ensures (x + 1) / 4 == x / 4 + (if (x + 1) % 4 == 0 then 1 else 0)
  {
  }

  lemma FloorStep100(x: nat)
    ensures (x + 1) / 100 == x / 100 + (if (x + 1) % 100 == 0 then 1 else 0)
  {
  }

  lemma FloorStep400(x: nat)
    ensures (x + 1) / 400 == x / 400 + (if (x + 1) % 400 == 0 then 1 else 0)
  {
  }

  /** A whole year before December: 334 days, one more in a leap year. */
  lemma DaysBeforeDecember(y: int)
    ensures DaysBeforeMonth(y, 12) == 334 + (if IsLeap(y) then 1 else 0)
  {
    var feb := if IsLeap(y) then 29 else 28;
    assert DaysBeforeMonth(y, 2) == 31;
    assert DaysBeforeMonth(y, 3) == 31 + feb;
    assert DaysBeforeMonth(y, 4) == 62 + feb;
    assert DaysBeforeMonth(y, 5) == 92 + feb;
    assert DaysBeforeMonth(y, 6) == 123 + feb;
    assert DaysBeforeMonth(y, 7) == 153 + feb;
    assert DaysBeforeMonth(y, 8) == 184 + feb;
    assert DaysBeforeMonth(y, 9) == 215 + feb;
    assert DaysBeforeMonth(y, 10) == 245 + feb;
    assert DaysBeforeMonth(y, 11) == 276 + feb;
  }

  /** Counting from the first of the month to the first of the next month gives the month length. */
  lemma MonthLengthIsDaysInMonth(y: int, m: int)
    requires y >= 1 && 1 <= m <= 12
    ensures MonthLength(y, m) == DaysInMonth(y, m)
  {
    if m == 12 {
      LeapsBeforeStep(y);
      DaysBeforeDecember(y);
    }
  }

  // ---------------------------------------------------------------------------
  // Inputs and outputs
  // ---------------------------------------------------------------------------

  /** The month's totals collected from the other modules. */
  datatype ModuleTotals = ModuleTotals(
    totalLeads: real,
    wonDeals: real,
    lostDeals: real,
    revenue: real,
    winRate: real,
    avgTicket: real)

  /** One row of `forecast_receita` for a month. */
  datatype MonthForecast = MonthForecast(
    target: real,
    projectedRevenue: real,
    projectedLeads: int,
    projectedSales: int,
    forecastWinRate: real,
    forecastTicket: real,
    daysElapsed: int,
    daysLeft: int,
    daysInMonth: int)

  /** Python's `int(x)` on a float: truncation toward zero. */
  function Trunc(x: real): (r: int)
    ensures x >= 0.0 ==> r as real <= x < r as real + 1.0
    ensures x < 0.0 ==> r as real - 1.0 < x <= r as real
  {
    if x >= 0.0 then x.Floor else -((-x).Floor)
  }

  /** `value / days * month` when some days have passed, 0 otherwise. */
  function RunRate(value: real, elapsed: int, month: int): (r: real)
    ensures elapsed <= 0 ==> r == 0.0
    ensures elapsed > 0 ==> r * elapsed as real == value * month as real
  {
    if elapsed > 0 then value / elapsed as real * month as real else 0.0
  }

  /**
   * `min(delta.days + 1, month)` for a time `since` seconds after the first of
   * the month: the whole days passed, rounded down, plus one, capped at the
   * month length.
   */
  function DaysElapsed(since: int, month: int): (r: int)
    ensures (r < month && (r - 1) * 86400 <= since < r * 86400) || (r == month && since >= (month - 1) * 86400)
    ensures since < 0 ==> r <= 0
  {
    var whole := since / 86400;
    WholeDays(since);
    if whole + 1 < month then
      assert (whole + 1 - 1) * 86400 == whole * 86400;
      whole + 1
    else
      DayMultipleMonotone(month - 1, whole);
      month
  }

  /** The sales expected from `leads` leads at a win rate of `winRate` percent. */
  function SalesOf(leads: real, winRate: real): (r: real)
    ensures r * 100.0 == leads * winRate
  {
    leads * winRate / 100.0
  }

  /** The target's growth factor over the projected revenue. */
  const Growth: real := 1.15

  /** The greatest year `strptime`'s `%Y` accepts. */
  const MaxYear := 9999

  /**
   * `calculate_forecast_based_on_modules`. The month is `year`-`month`; `now`
   * is the current time in seconds since 1970-01-01. Missing totals, a month
   * `strptime` rejects, and December 9999 (whose next month cannot be
   * represented) give `None`.
   */
  function CalculateForecast(year: int, month: int, data: Option<ModuleTotals>, now: int): (r: Option<MonthForecast>)
    ensures r.Some? <==> data.Some? && 1 <= year <= MaxYear && 1 <= month <= 12 && !(year == MaxYear && month == 12)
  {
    if data.None? || !(1 <= year <= MaxYear && 1 <= month <= 12) || (year == MaxYear && month == 12) then None
    else
      var d := data.value;
      var inMonth := MonthLength(year, month);
      var passed := DaysElapsed(now - MonthStart(year, month) * 86400, inMonth);
      var left := if inMonth - passed > 0 then inMonth - passed else 0;
      var leads := RunRate(d.totalLeads, passed, inMonth);
      var revenue := RunRate(d.revenue, passed, inMonth);
      Some(MonthForecast(
        revenue * Growth, revenue, Trunc(leads), Trunc(SalesOf(leads, d.winRate)),
        d.winRate, d.avgTicket, passed, left, inMonth))
  }

  /**
   * The projection: the days elapsed are the whole days since the first of the
   * month plus one, capped at the month length; leads and revenue are projected
   * at their run rate over those days, and sales are the projected leads times
   * the win rate. Before the month starts nothing is projected.
   */
  lemma ForecastProjection(year: int, month: int, data: Option<ModuleTotals>, now: int)
    requires CalculateForecast(year, month, data, now).Some?
    ensures var f := CalculateForecast(year, month, data, now).value;
            var d := data.value;
            var n := DaysInMonth(year, month);
            var since := now - MonthStart(year, month) * 86400;
              (f.daysElapsed < n && (f.daysElapsed - 1) * 86400 <= since < f.daysElapsed * 86400)
              || (f.daysElapsed == n && since >= (n - 1) * 86400)
    ensures var f := CalculateForecast(year, month, data, now).value;
            var d := data.value;
            var leads := RunRate(d.totalLeads, f.daysElapsed, f.daysInMonth);
              f.projectedRevenue == RunRate(d.revenue, f.daysElapsed, f.daysInMonth)
              && f.projectedLeads == Trunc(leads)
              && f.projectedSales == Trunc(SalesOf(leads, d.winRate))
    ensures now < MonthStart(year, month) * 86400 ==>
              var f := CalculateForecast(year, month, data, now).value;
              f.projectedRevenue == 0.0 && f.projectedLeads == 0 && f.projectedSales == 0
  {
    var f := CalculateForecast(year, month, data, now).value;
    var d := data.value;
    var since := now - MonthStart(year, month) * 86400;
    MonthLengthIsDaysInMonth(year, month);
    assert f.daysInMonth == MonthLength(year, month) == DaysInMonth(year, month);
    assert f.daysElapsed == DaysElapsed(since, f.daysInMonth);
  }

  /** Euclidean division by a day's seconds counts the whole days, rounding down. */
  lemma WholeDays(since: int)
    ensures (since / 86400) * 86400 <= since < (since / 86400) * 86400 + 86400
    ensures since < 0 ==> since / 86400 < 0
  {
  }

  lemma DayMultipleMonotone(a: int, b: int)
    requires a <= b
    ensures a * 86400 <= b * 86400
  {
  }

  /** The elapsed and remaining days add up to the month length, a Gregorian month length. */
  lemma ForecastDays(year: int, month: int, data: Option<ModuleTotals>, now: int)
    requires CalculateForecast(year, month, data, now).Some?
    ensures var f := CalculateForecast(year, month, data, now).value;
              f.daysElapsed + f.daysLeft == f.daysInMonth && f.daysElapsed <= f.daysInMonth
              && f.daysLeft >= 0 && f.daysInMonth == DaysInMonth(year, month)
  {
    MonthLengthIsDaysInMonth(year, month);
  }

  /**
   * The target is 115% of the projected revenue; the win rate and ticket are
   * kept as they are; a month with no revenue has target 0.
   */
  lemma ForecastFields(year: int, month: int, data: Option<ModuleTotals>, now: int)
    requires CalculateForecast(year, month, data, now).Some?
    ensures var f := CalculateForecast(year, month, data, now).value;
              f.target == Growth * f.projectedRevenue
              && f.forecastWinRate == data.value.winRate && f.forecastTicket == data.value.avgTicket
              && (data.value.revenue == 0.0 ==> f.target == 0.0)
              && (f.projectedRevenue >= 0.0 ==> f.target >= f.projectedRevenue)
  {
    var f := CalculateForecast(year, month, data, now).value;
    assert f.projectedRevenue == RunRate(data.value.revenue, f.daysElapsed, f.daysInMonth);
    if data.value.revenue == 0.0 {
      RunRateOfNothing(f.daysElapsed, f.daysInMonth);
    }
  }

  lemma RunRateOfNothing(elapsed: int, month: int)
    ensures RunRate(0.0, elapsed, month) == 0.0
  {
  }

  /** On the last day of the month (or later) the projections are the actual totals. */
  lemma FullMonthProjectsActuals(year: int, month: int, data: Option<ModuleTotals>, now: int)
    requires CalculateForecast(year, month, data, now).Some?
    requires CalculateForecast(year, month, data, now).value.daysLeft == 0
    ensures var f := CalculateForecast(year, month, data, now).value;
              f.projectedRevenue == data.value.revenue && f.projectedLeads == Trunc(data.value.totalLeads)
  {
    var f := CalculateForecast(year, month, data, now).value;
    ForecastDays(year, month, data, now);
    assert f.daysElapsed == f.daysInMonth > 0;
    assert f.projectedRevenue == RunRate(data.value.revenue, f.daysElapsed, f.daysInMonth);
    assert f.projectedLeads == Trunc(RunRate(data.value.totalLeads, f.daysElapsed, f.daysInMonth));
    RunRateOverWholeMonth(data.value.revenue, f.daysInMonth);
    RunRateOverWholeMonth(data.value.totalLeads, f.daysInMonth);
  }

  /** Once the whole month has passed the run rate is the value itself. */
  lemma RunRateOverWholeMonth(value: real, days: int)
    requires days > 0
    ensures RunRate(value, days, days) == value
  {
    var n := days as real;
    assert RunRate(value, days, days) * n == value * n;
  }

  // ---------------------------------------------------------------------------
  // Gaps, risk, alerts and actions
  // ---------------------------------------------------------------------------

  datatype Risk = Low | Medium | High | Critical

  function RiskRank(r: Risk): nat {
    match r
    case Low => 0
    case Medium => 1
    case High => 2
    case Critical => 3
  }

  /** `risco_meta`: the first of 30%, 20%, 10% of the target that the revenue gap exceeds. */
  function RiskOf(gap: real, target: real): Risk {
    if gap > target * 0.3 then Critical
    else if gap > target * 0.2 then High
    else if gap > target * 0.1 then Medium
    else Low
  }

  /** A larger gap never lowers the risk. */
  lemma RiskMonotone(g1: real, g2: real, target: real)
    requires g1 <= g2
    ensures RiskRank(RiskOf(g1, target)) <= RiskRank(RiskOf(g2, target))
  {
  }

  /**
   * No gap under a non-negative target is low risk; a gap of exactly 30% of a
   * positive target is high, not critical; any gap above 30% is critical.
   */
  lemma RiskLevels(gap: real, target: real)
    ensures gap <= 0.0 && target >= 0.0 ==> RiskOf(gap, target) == Low
    ensures target > 0.0 && gap == target * 0.3 ==> RiskOf(gap, target) == High
    ensures gap > target * 0.3 ==> RiskOf(gap, target) == Critical
  {
  }

  /** An alert; the message wording and number formatting are not modelled. */
  datatype Alert = RevenueGap(amount: real) | LeadGap(leads: real) | WinRateBelow(actual: real, expected: real)

  /** A recommended action. */
  datatype Action = RaiseDailyRevenue(amount: real) | CaptureDailyLeads(leads: real) | ImproveWinRate(rate: real)

  datatype Gaps = Gaps(
    revenueGap: real,
    leadGap: real,
    winRateGap: real,
    ticketGap: real,
    dailyRevenue: real,
    dailyLeads: real,
    neededWinRate: real,
    neededTicket: real,
    risk: Risk,
    alerts: seq<Alert>,
    actions: seq<Action>)

  /** `gap / days` when days remain, 0 otherwise. */
  function PerDay(gap: real, days: int): (r: real)
    ensures days <= 0 ==> r == 0.0
    ensures days > 0 ==> r * days as real == gap
  {
    if days > 0 then gap / days as real else 0.0
  }

  /** The alerts, in this order: revenue gap, lead gap, win rate below forecast. */
  function AlertsOf(revenueGap: real, leadGap: real, winRate: real, forecastWinRate: real): (r: seq<Alert>)
    ensures |r| <= 3
    ensures RevenueGap(revenueGap) in r <==> revenueGap > 0.0
    ensures LeadGap(leadGap) in r <==> leadGap > 0.0
    ensures WinRateBelow(winRate, forecastWinRate) in r <==> winRate < forecastWinRate
    ensures forall a :: a in r ==> a in [RevenueGap(revenueGap), LeadGap(leadGap), WinRateBelow(winRate, forecastWinRate)]
  {
    (if revenueGap > 0.0 then [RevenueGap(revenueGap)] else [])
    + (if leadGap > 0.0 then [LeadGap(leadGap)] else [])
    + (if winRate < forecastWinRate then [WinRateBelow(winRate, forecastWinRate)] else [])
  }

  /** The actions, in this order: daily revenue, daily leads, win rate. */
  function ActionsOf(dailyRevenue: real, dailyLeads: real, neededWinRate: real, winRate: real): (r: seq<Action>)
    ensures |r| <= 3
    ensures RaiseDailyRevenue(dailyRevenue) in r <==> dailyRevenue > 0.0
    ensures CaptureDailyLeads(dailyLeads) in r <==> dailyLeads > 0.0
    ensures ImproveWinRate(neededWinRate) in r <==> neededWinRate > winRate
    ensures forall a :: a in r ==> a in [RaiseDailyRevenue(dailyRevenue), CaptureDailyLeads(dailyLeads), ImproveWinRate(neededWinRate)]
  {
    (if dailyRevenue > 0.0 then [RaiseDailyRevenue(dailyRevenue)] else [])
    + (if dailyLeads > 0.0 then [CaptureDailyLeads(dailyLeads)] else [])
    + (if neededWinRate > winRate then [ImproveWinRate(neededWinRate)] else [])
  }

  /** Sales needed to close the revenue gap at the forecast ticket, 0 without a positive ticket. */
  function SalesNeeded(gap: real, ticket: real): (r: real)
    ensures ticket <= 0.0 ==> r == 0.0
    ensures ticket > 0.0 ==> r * ticket == gap
    ensures ticket > 0.0 ==> (r > 0.0 <==> gap > 0.0)
  {
    if ticket > 0.0 then gap / ticket else 0.0
  }

  /** Ticket needed: the gap over the sales needed, 0 unless those are positive. */
  function TicketNeeded(gap: real, sales: real): (r: real)
    ensures sales <= 0.0 ==> r == 0.0
    ensures sales > 0.0 ==> r * sales == gap
  {
    if sales > 0.0 then gap / sales else 0.0
  }

  /** Win rate needed: sales needed over the leads still needed, in percent, 0 without such leads. */
  function WinRateNeeded(sales: real, leads: real): (r: real)
    ensures leads <= 0.0 ==> r == 0.0
    ensures leads > 0.0 ==> r * leads == sales * 100.0
  {
    if leads > 0.0 then sales / leads * 100.0 else 0.0
  }

  /** `calculate_gaps_and_alerts`; no forecast or no totals give `None`. */
  function CalculateGaps(forecast: Option<MonthForecast>, data: Option<ModuleTotals>): (r: Option<Gaps>)
    ensures r.Some? <==> forecast.Some? && data.Some?
    ensures r.Some? ==> r.value.revenueGap == forecast.value.target - data.value.revenue
                        && r.value.leadGap == forecast.value.projectedLeads as real - data.value.totalLeads
                        && r.value.risk == RiskOf(r.value.revenueGap, forecast.value.target)
    ensures r.Some? ==> r.value.dailyRevenue == PerDay(r.value.revenueGap, forecast.value.daysLeft)
                        && r.value.dailyLeads == PerDay(r.value.leadGap, forecast.value.daysLeft)
  {
    if forecast.None? || data.None? then None
    else
      var f := forecast.value;
      var d := data.value;
      var revenueGap := f.target - d.revenue;
      var leadGap := f.projectedLeads as real - d.totalLeads;
      var dailyRevenue := PerDay(revenueGap, f.daysLeft);
      var dailyLeads := PerDay(leadGap, f.daysLeft);
      var leadsNeeded := dailyLeads * f.daysLeft as real;
      var sales := SalesNeeded(revenueGap, f.forecastTicket);
      var neededWinRate := WinRateNeeded(sales, leadsNeeded);
      Some(Gaps(
        revenueGap, leadGap, f.forecastWinRate - d.winRate, f.forecastTicket - d.avgTicket,
        dailyRevenue, dailyLeads, neededWinRate, TicketNeeded(revenueGap, sales),
        RiskOf(revenueGap, f.target),
        AlertsOf(revenueGap, leadGap, d.winRate, f.forecastWinRate),
        ActionsOf(dailyRevenue, dailyLeads, neededWinRate, d.winRate)))
  }

  /**
   * With a positive ticket and a revenue gap, the ticket needed is the
   * forecast ticket itself; otherwise it is 0.
   */
  lemma NeededTicketIsForecastTicket(forecast: MonthForecast, data: ModuleTotals)
    ensures var g := CalculateGaps(Some(forecast), Some(data)).value;
              (forecast.forecastTicket > 0.0 && g.revenueGap > 0.0 ==> g.neededTicket == forecast.forecastTicket)
              && (!(forecast.forecastTicket > 0.0 && g.revenueGap > 0.0) ==> g.neededTicket == 0.0)
  {
    var gap := forecast.target - data.revenue;
    var t := forecast.forecastTicket;
    var sales := SalesNeeded(gap, t);
    if t > 0.0 && gap > 0.0 {
      var n := TicketNeeded(gap, sales);
      assert n * sales == sales * t;
      assert n == t;
    }
  }

  /**
   * Gaps computed from a forecast of the same totals: the win rate and ticket
   * gaps are 0 and the win rate alert never fires.
   */
  lemma ForecastThenGaps(year: int, month: int, data: Option<ModuleTotals>, now: int)
    requires CalculateForecast(year, month, data, now).Some?
    ensures var g := CalculateGaps(CalculateForecast(year, month, data, now), data).value;
              g.winRateGap == 0.0 && g.ticketGap == 0.0
              && (forall a :: a in g.alerts ==> !a.WinRateBelow?)
  {
    ForecastFields(year, month, data, now);
    GapsOfKeptRates(CalculateForecast(year, month, data, now).value, data.value);
  }

  /** Gaps against a forecast that keeps the actual win rate and ticket. */
  lemma GapsOfKeptRates(f: MonthForecast, d: ModuleTotals)
    requires f.forecastWinRate == d.winRate && f.forecastTicket == d.avgTicket
    ensures var g := CalculateGaps(Some(f), Some(d)).value;
              g.winRateGap == 0.0 && g.ticketGap == 0.0
              && (forall a :: a in g.alerts ==> !a.WinRateBelow?)
  {
    var g := CalculateGaps(Some(f), Some(d)).value;
    assert g.winRateGap == 0.0 && g.ticketGap == 0.0;
    assert g.alerts == AlertsOf(g.revenueGap, g.leadGap, d.winRate, d.winRate);
    NoAlertOnEqualRates(g.revenueGap, g.leadGap, d.winRate);
  }

  lemma NoAlertOnEqualRates(revenueGap: real, leadGap: real, winRate: real)
    ensures forall a :: a in AlertsOf(revenueGap, leadGap, winRate, winRate) ==> !a.WinRateBelow?
  {
  }
}
