/** `GET /api/reports/summary`: portfolio statistics over the loans issued in
    an optional date window, twelve monthly trend entries, and the bucketing
    of overdue loans by how long they have been overdue. The clock reading,
    the calendar and the per-month store aggregates are parameters. */
module SummaryRoute {
  import opened Common
  import opened LoanUtils

  // ---------------------------------------------------------------------------
  // Date filter

  /** `where.issuedAt = { gte?, lte? }`. */
  datatype DateFilter = DateFilter(gte: Option<int>, lte: Option<int>)

  predicate InWindow(f: DateFilter, issuedAt: int) {
    (f.gte.None? || issuedAt >= f.gte.value) && (f.lte.None? || issuedAt <= f.lte.value)
  }

  /** The filter built field by field from the two query parameters;
      `parseDate` is `new Date(text)` in milliseconds. */
  method BuildDateFilter(startDate: Option<string>, endDate: Option<string>, parseDate: string -> int)
    returns (f: DateFilter)
    ensures Truthy(startDate) ==> f.gte == Some(parseDate(startDate.value))
    ensures !Truthy(startDate) ==> f.gte == None
    ensures Truthy(endDate) ==> f.lte == Some(parseDate(endDate.value))
    ensures !Truthy(endDate) ==> f.lte == None
    // with no parameter at all every loan is in the window
    ensures !Truthy(startDate) && !Truthy(endDate) ==> forall t :: InWindow(f, t)
  {
    f := DateFilter(None, None);
    if Truthy(startDate) {
      f := f.(gte := Some(parseDate(startDate.value)));
    }
    if Truthy(endDate) {
      // the spread keeps a lower bound set just before
      f := f.(lte := Some(parseDate(endDate.value)));
    }
  }

  // ---------------------------------------------------------------------------
  // Risk analysis

  datatype RiskBucket = LowRisk | MediumRisk | HighRisk

  /** `Math.abs(Math.floor((now - dueDate) / DAY))`. */
  function SummaryDaysOverdue(loan: Loan, now: int): nat {
    Abs(FloorDays(now - loan.dueDate))
  }

  /** The bucket of a loan, None when it is not overdue. */
  function Bucket(loan: Loan, now: int): Option<RiskBucket> {
    if !IsOverdue(loan, now) then None
    else if SummaryDaysOverdue(loan, now) <= 30 then Some(LowRisk)
    else if SummaryDaysOverdue(loan, now) <= 90 then Some(MediumRisk)
    else Some(HighRisk)
  }

  function CountBucket(loans: seq<Loan>, now: int, b: RiskBucket): nat {
    if loans == [] then 0
    else CountBucket(loans[..|loans| - 1], now, b) + (if Bucket(loans[|loans| - 1], now) == Some(b) then 1 else 0)
  }

  /** The `forEach` over the loans incrementing one counter per overdue loan. */
  method RiskAnalysis(loans: seq<Loan>, now: int) returns (lowRisk: nat, mediumRisk: nat, highRisk: nat)
    ensures lowRisk == CountBucket(loans, now, LowRisk)
    ensures mediumRisk == CountBucket(loans, now, MediumRisk)
    ensures highRisk == CountBucket(loans, now, HighRisk)
    ensures lowRisk + mediumRisk + highRisk == CountOverdue(loans, now)
  {
    lowRisk, mediumRisk, highRisk := 0, 0, 0;
    for i := 0 to |loans|
      invariant lowRisk == CountBucket(loans[..i], now, LowRisk)
      invariant mediumRisk == CountBucket(loans[..i], now, MediumRisk)
      invariant highRisk == CountBucket(loans[..i], now, HighRisk)
    {
      assert loans[..i + 1][..i] == loans[..i];
      var loan := loans[i];
      var calculation := CalculateLoanDetails(loan, now);
      if calculation.isOverdue {
        var daysOverdue := Abs(FloorDays(now - loan.dueDate));
        if daysOverdue <= 30 {
          lowRisk := lowRisk + 1;
        } else if daysOverdue <= 90 {
          mediumRisk := mediumRisk + 1;
        } else {
          highRisk := highRisk + 1;
        }
      }
    }
    assert loans[..|loans|] == loans;
    BucketsCoverOverdue(loans, now);
  }

  /** Every overdue loan lands in exactly one bucket and no other loan in any. */
  lemma {:induction false} BucketsCoverOverdue(loans: seq<Loan>, now: int)
    ensures CountBucket(loans, now, LowRisk) + CountBucket(loans, now, MediumRisk)
            + CountBucket(loans, now, HighRisk) == CountOverdue(loans, now)
  {
    if loans != [] {
      BucketsCoverOverdue(loans[..|loans| - 1], now);
    }
  }

  /** In milliseconds: an overdue loan is low risk while less than 31 whole
      days have passed since its due date, and high risk from 91 days on. */
  lemma BucketByElapsedTime(loan: Loan, now: int)
    requires IsOverdue(loan, now)
    ensures Bucket(loan, now) == Some(LowRisk) <==> now - loan.dueDate < 31 * DAY
    ensures Bucket(loan, now) == Some(HighRisk) <==> now - loan.dueDate >= 91 * DAY
  {
    var d := FloorDays(now - loan.dueDate);
    assert d >= 0 by {
      assert (d + 1) * DAY > 0;
    }
    if d <= 30 {
      assert (d + 1) * DAY <= 31 * DAY;
    } else {
      assert d * DAY >= 31 * DAY;
    }
    if d <= 90 {
      assert (d + 1) * DAY <= 91 * DAY;
    } else {
      assert d * DAY >= 91 * DAY;
    }
  }

  // ---------------------------------------------------------------------------
  // Monthly trends

  /** The calendar: `monthStart(m)` is `new Date(year, month, 1)` in
      milliseconds for the absolute month number m (year * 12 + month), local
      midnight on the month's first day. Later months start no earlier. */
  ghost predicate MonthsAscend(monthStart: int -> int) {
    forall a, b :: a <= b ==> monthStart(a) <= monthStart(b)
  }

  /** `new Date(year, month + 1, 0)`: local midnight at the START of the
      month's last day, one day before the next month begins (daylight-saving
      shifts aside). */
  function MonthEnd(monthStart: int -> int, m: int): int {
    monthStart(m + 1) - DAY
  }

  /** The window `{ gte: monthStart, lte: monthEnd }` both trend queries use. */
  predicate InTrendWindow(monthStart: int -> int, m: int, t: int) {
    monthStart(m) <= t <= MonthEnd(monthStart, m)
  }

  /** `prisma.loan.count` over the trend window of month `m`. */
  function CountIssuedIn(loans: seq<Loan>, monthStart: int -> int, m: int): (n: nat)
    ensures n <= |loans|
  {
    if loans == [] then 0
    else CountIssuedIn(loans[..|loans| - 1], monthStart, m)
         + (if InTrendWindow(monthStart, m, loans[|loans| - 1].issuedAt) then 1 else 0)
  }

  /** The payments `prisma.payment.aggregate` sums for month `m`. */
  function PaidIn(payments: seq<Payment>, monthStart: int -> int, m: int): (r: seq<Payment>)
    ensures |r| <= |payments|
    ensures forall i :: 0 <= i < |r| ==> r[i] in payments && InTrendWindow(monthStart, m, r[i].paidAt)
  {
    if payments == [] then []
    else
      var p := payments[|payments| - 1];
      PaidIn(payments[..|payments| - 1], monthStart, m) + (if InTrendWindow(monthStart, m, p.paidAt) then [p] else [])
  }

  /** `_sum.amount`: null when no payment falls in the window. */
  function PaymentsSum(payments: seq<Payment>, monthStart: int -> int, m: int): Option<real> {
    var ps := PaidIn(payments, monthStart, m);
    if ps == [] then None else Some(SumAmounts(ps))
  }

  /** Every payment row of the store, loan by loan. */
  function AllPayments(loans: seq<Loan>): seq<Payment> {
    if loans == [] then [] else AllPayments(loans[..|loans| - 1]) + loans[|loans| - 1].payments
  }

  /** One trend entry; `month` is an absolute month number. */
  datatype MonthTrend = MonthTrend(month: int, loansIssued: nat, paymentsReceived: real)

  /** Twelve entries, oldest first, ending with `currentMonth`; each holds the
      month's loan count and payment sum (0 when there is none). */
  predicate TrendsOf(trends: seq<MonthTrend>, currentMonth: int, monthStart: int -> int,
                     loans: seq<Loan>, payments: seq<Payment>) {
    && |trends| == 12
    && (forall k :: 0 <= k < 12 ==> trends[k].month == currentMonth - 11 + k)
    && (forall k :: 0 <= k < 12 ==>
          && trends[k].loansIssued == CountIssuedIn(loans, monthStart, trends[k].month)
          && trends[k].paymentsReceived == PaymentsSum(payments, monthStart, trends[k].month).GetOr(0.0))
  }

  /** The trend loop `for (i = 11; i >= 0; i--)`, with `currentMonth` the
      month of the clock reading. */
  method MonthlyTrends(currentMonth: int, monthStart: int -> int, loans: seq<Loan>, payments: seq<Payment>)
    returns (trends: seq<MonthTrend>)
    ensures TrendsOf(trends, currentMonth, monthStart, loans, payments)
    ensures forall j, k :: 0 <= j < k < 12 ==> trends[j].month < trends[k].month
  {
    trends := [];
    var i := 11;
    while i >= 0
      invariant -1 <= i <= 11
      invariant |trends| == 11 - i
      invariant forall k :: 0 <= k < |trends| ==> trends[k].month == currentMonth - 11 + k
      invariant forall k :: 0 <= k < |trends| ==>
                  && trends[k].loansIssued == CountIssuedIn(loans, monthStart, trends[k].month)
                  && trends[k].paymentsReceived == PaymentsSum(payments, monthStart, trends[k].month).GetOr(0.0)
    {
      var month := currentMonth - i;
      var monthLoans := CountIssuedIn(loans, monthStart, month);
      var monthPayments := PaymentsSum(payments, monthStart, month);
      trends := trends + [MonthTrend(month, monthLoans, monthPayments.GetOr(0.0))];
      i := i - 1;
    }
  }

  /** As written, the window of a month stops at midnight at the start of its
      last day: a payment made at noon on that day lies in the calendar month
      yet in no month's window, so no trend entry ever sums it. */
  lemma LastDayAfternoonInNoMonth(monthStart: int -> int, m: int, p: Payment)
    requires MonthsAscend(monthStart)
    requires monthStart(m) + DAY <= monthStart(m + 1)
    requires p.paidAt == monthStart(m + 1) - DAY / 2
    ensures InMonth(monthStart, m, p.paidAt)
    ensures forall j :: !InTrendWindow(monthStart, j, p.paidAt)
    ensures forall j :: PaymentsSum([p], monthStart, j) == None
  {
    forall j
      ensures !InTrendWindow(monthStart, j, p.paidAt)
    {
      if j <= m {
        assert monthStart(j + 1) <= monthStart(m + 1);
      } else {
        assert monthStart(m + 1) <= monthStart(j);
      }
    }
    forall j
      ensures PaymentsSum([p], monthStart, j) == None
    {
      assert [p][..0] == [];
      assert !InTrendWindow(monthStart, j, p.paidAt);
    }
  }

  /** The evidently intended window: the whole calendar month, up to the
      start of the next one (`lt` the next month's first day). */
  predicate InMonth(monthStart: int -> int, m: int, t: int) {
    monthStart(m) <= t < monthStart(m + 1)
  }

  /** With whole-month windows, every instant from the first month's start to
      the last month's end lies in exactly one month. */
  lemma {:induction false} CalendarMonthsPartition(monthStart: int -> int, lo: int, hi: int, t: int)
    requires MonthsAscend(monthStart)
    requires monthStart(lo) <= t < monthStart(hi)
    ensures exists m :: lo <= m < hi && InMonth(monthStart, m, t)
    ensures forall a, b :: InMonth(monthStart, a, t) && InMonth(monthStart, b, t) ==> a == b
    decreases hi - lo
  {
    if monthStart(lo + 1) <= t {
      CalendarMonthsPartition(monthStart, lo + 1, hi, t);
    } else {
      assert InMonth(monthStart, lo, t);
    }
  }

  // ---------------------------------------------------------------------------
  // The report

  datatype RiskAnalysisCounts = RiskAnalysisCounts(lowRisk: nat, mediumRisk: nat, highRisk: nat)

  datatype SummaryReport = SummaryReport(
    portfolioStats: PortfolioStats,
    monthlyTrends: seq<MonthTrend>,
    riskAnalysis: RiskAnalysisCounts)

  /** The loans the report is about, in the store's order. */
  function LoansInWindow(loans: seq<Loan>, f: DateFilter): seq<Loan> {
    Filter(loans, (l: Loan) => InWindow(f, l.issuedAt))
  }

  /** The GET handler over the loan table `loans` (in the store's order);
      `currentMonth` is the month of `now`. */
  method Summary(loans: seq<Loan>, startDate: Option<string>, endDate: Option<string>, parseDate: string -> int,
                 now: int, currentMonth: int, monthStart: int -> int)
    returns (report: SummaryReport)
    ensures var f := DateFilter(if Truthy(startDate) then Some(parseDate(startDate.value)) else None,
                                if Truthy(endDate) then Some(parseDate(endDate.value)) else None);
            var w := LoansInWindow(loans, f);
            && PortfolioStatsOf(report.portfolioStats, w, now)
            && report.riskAnalysis == RiskAnalysisCounts(CountBucket(w, now, LowRisk), CountBucket(w, now, MediumRisk),
                                                         CountBucket(w, now, HighRisk))
            && report.riskAnalysis.lowRisk + report.riskAnalysis.mediumRisk + report.riskAnalysis.highRisk
               == report.portfolioStats.overdueLoans
    // the trends count every loan and payment of the store, whatever the window
    ensures TrendsOf(report.monthlyTrends, currentMonth, monthStart, loans, AllPayments(loans))
  {
    var f := BuildDateFilter(startDate, endDate, parseDate);
    var inWindow := LoansInWindow(loans, f);
    var stats := CalculatePortfolioStats(inWindow, now);
    var trends := MonthlyTrends(currentMonth, monthStart, loans, AllPayments(loans));
    var low, medium, high := RiskAnalysis(inWindow, now);
    report := SummaryReport(stats, trends, RiskAnalysisCounts(low, medium, high));
  }
}
