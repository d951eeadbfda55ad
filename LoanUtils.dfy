/** Loan accounting: flat (non-compounding) interest, totals, balance,
    overdue and fully-paid flags, payment progress, portfolio statistics and
    the additive risk score, as computed by `src/lib/loan-utils.ts`.
    Money is exact `real`; time is integer milliseconds and the current time
    `now` is always a parameter. */
module LoanUtils {
  import opened Common

  const DAY: int := 1000 * 3600 * 24

  datatype LoanStatus = Active | Paid | Defaulted

  datatype Payment = Payment(
    id: string,
    loanId: string,
    amount: real,
    paidAt: int,
    notes: Option<string>,
    paymentMethod: Option<string>)  // the `method` column (a reserved word here)

  datatype Loan = Loan(
    id: string,
    borrowerId: string,
    amount: real,
    interestRate: Option<real>,
    issuedAt: int,
    dueDate: int,
    status: LoanStatus,
    notes: Option<string>,
    payments: seq<Payment>)

  // ---------------------------------------------------------------------------
  // Per-loan figures

  /** `loan.interestRate || 0`: a missing rate counts as zero. */
  function Rate(loan: Loan): real {
    loan.interestRate.GetOr(0.0)
  }

  function InterestAmount(loan: Loan): real {
    loan.amount * (Rate(loan) / 100.0)
  }

  function TotalOwed(loan: Loan): real {
    loan.amount + InterestAmount(loan)
  }

  /** The left-to-right `reduce` of payment amounts starting from 0. */
  function SumAmounts(ps: seq<Payment>): real {
    if ps == [] then 0.0 else SumAmounts(ps[..|ps| - 1]) + ps[|ps| - 1].amount
  }

  function TotalPaid(loan: Loan): real {
    SumAmounts(loan.payments)
  }

  function Balance(loan: Loan): real {
    TotalOwed(loan) - TotalPaid(loan)
  }

  predicate IsOverdue(loan: Loan, now: int) {
    now > loan.dueDate && loan.status == Active && Balance(loan) > 0.0
  }

  predicate IsFullyPaid(loan: Loan) {
    Balance(loan) <= 0.0 || loan.status == Paid
  }

  function PaymentProgress(loan: Loan): real {
    if TotalOwed(loan) > 0.0 then (TotalPaid(loan) / TotalOwed(loan)) * 100.0 else 0.0
  }

  lemma SumAmountsAppend(ps: seq<Payment>, p: Payment)
    ensures SumAmounts(ps + [p]) == SumAmounts(ps) + p.amount
  {
    assert (ps + [p])[..|ps|] == ps;
  }

  /** Sums of positive amounts are non-negative. */
  lemma {:induction false} SumAmountsNonNegative(ps: seq<Payment>)
    requires forall i :: 0 <= i < |ps| ==> ps[i].amount >= 0.0
    ensures SumAmounts(ps) >= 0.0
  {
    if ps != [] {
      SumAmountsNonNegative(ps[..|ps| - 1]);
    }
  }

  datatype LoanCalculation = LoanCalculation(
    principal: real,
    interestRate: real,
    interestAmount: real,
    totalOwed: real,
    totalPaid: real,
    balance: real,
    isOverdue: bool,
    isFullyPaid: bool,
    paymentProgress: real)

  /** calculateLoanDetails, with the clock reading `new Date()` passed in as `now`. */
  function CalculateLoanDetails(loan: Loan, now: int): (c: LoanCalculation)
    // the loan's own principal, with a missing rate counting as zero
    ensures c.principal == loan.amount
    ensures c.interestRate == (if loan.interestRate.Some? then loan.interestRate.value else 0.0)
    ensures c.interestAmount == loan.amount * c.interestRate / 100.0
    ensures c.totalOwed == c.principal + c.principal * c.interestRate / 100.0
    // the left-to-right sum of the loan's payment amounts
    ensures c.totalPaid == SumAmounts(loan.payments)
    ensures c.balance == c.totalOwed - c.totalPaid
    ensures c.isOverdue <==> now > loan.dueDate && loan.status == Active && c.balance > 0.0
    ensures c.isFullyPaid <==> c.balance <= 0.0 || loan.status == Paid
    ensures c.totalOwed > 0.0 ==> c.paymentProgress == c.totalPaid / c.totalOwed * 100.0
    // an overdue loan is never fully paid
    ensures c.isOverdue ==> !c.isFullyPaid
    // a loan whose payments cover what it owes is fully paid and not overdue
    ensures c.totalPaid >= c.totalOwed ==> c.isFullyPaid && !c.isOverdue
    ensures c.totalOwed <= 0.0 ==> c.paymentProgress == 0.0
    ensures c.totalOwed > 0.0 && c.totalPaid == c.totalOwed ==> c.paymentProgress == 100.0
    ensures c.totalOwed > 0.0 && 0.0 <= c.totalPaid <= c.totalOwed ==> 0.0 <= c.paymentProgress <= 100.0
  {
    var c := LoanCalculation(
      loan.amount, Rate(loan), InterestAmount(loan), TotalOwed(loan), TotalPaid(loan),
      Balance(loan), IsOverdue(loan, now), IsFullyPaid(loan), PaymentProgress(loan));
    ProgressBounded(c.totalPaid, c.totalOwed);
    c
  }

  lemma ProgressBounded(paid: real, owed: real)
    ensures owed > 0.0 && 0.0 <= paid <= owed ==> 0.0 <= (paid / owed) * 100.0 <= 100.0
  {
    if owed > 0.0 && 0.0 <= paid <= owed {
      assert paid / owed <= 1.0;
    }
  }

  /** The fully repaid seed loan: 2000 at 3% owes 2060, and payments of 1000
      and 1060 leave a zero balance, so the loan is fully paid. */
  lemma SeedLoanPaidOff(borrowerId: string, issuedAt: int, dueDate: int, now: int)
    ensures var loan := Loan("loan4", borrowerId, 2000.0, Some(3.0), issuedAt, dueDate, Active, None,
                             [Payment("p1", "loan4", 1000.0, issuedAt, None, None),
                              Payment("p2", "loan4", 1060.0, dueDate, None, None)]);
            TotalOwed(loan) == 2060.0 && Balance(loan) == 0.0 && IsFullyPaid(loan)
            && !IsOverdue(loan, now) && PaymentProgress(loan) == 100.0
  {
    var ps := [Payment("p1", "loan4", 1000.0, issuedAt, None, None),
               Payment("p2", "loan4", 1060.0, dueDate, None, None)];
    assert ps[..1][..0] == [];
    assert SumAmounts(ps[..1]) == 1000.0;
    assert SumAmounts(ps) == 2060.0;
  }

  // ---------------------------------------------------------------------------
  // Monthly payment (zero-rate branch) and day arithmetic

  /** `principal / termInMonths` when the rate is 0; a zero term yields a
      non-finite number in JavaScript, modelled as None. */
  function ZeroRateMonthlyPayment(principal: real, termInMonths: int): (r: Option<real>)
    ensures r.Some? <==> termInMonths != 0
    ensures r.Some? ==> r.value * (termInMonths as real) == principal
  {
    if termInMonths == 0 then None else Some(principal / termInMonths as real)
  }

  /** `Math.floor(ms / DAY)` for integer milliseconds. */
  function FloorDays(ms: int): (d: int)
    ensures d * DAY <= ms < (d + 1) * DAY
  {
    ms / DAY
  }

  /** `Math.ceil(ms / DAY)` for integer milliseconds. */
  function CeilDays(ms: int): (d: int)
    ensures (d - 1) * DAY < ms <= d * DAY
  {
    -((-ms) / DAY)
  }

  /** getDaysUntilDue(dueDate), with the clock passed in. */
  function DaysUntilDue(dueDate: int, now: int): int {
    CeilDays(dueDate - now)
  }

  /** getLoanAgeInDays(issuedAt), with the clock passed in. */
  function LoanAgeInDays(issuedAt: int, now: int): int {
    FloorDays(now - issuedAt)
  }

  function Abs(x: int): nat {
    if x < 0 then -x else x
  }

  /** Past the due date, `|getDaysUntilDue|` counts the whole days elapsed since it. */
  lemma DaysOverdueIsElapsedDays(dueDate: int, now: int)
    requires now > dueDate
    ensures Abs(DaysUntilDue(dueDate, now)) == FloorDays(now - dueDate)
  {
    assert -(dueDate - now) == now - dueDate;
  }

  // ---------------------------------------------------------------------------
  // Portfolio statistics

  datatype PortfolioStats = PortfolioStats(
    totalLoans: nat,
    activeLoans: nat,
    paidLoans: nat,
    overdueLoans: nat,
    defaultedLoans: nat,
    totalPrincipal: real,
    totalDisbursed: real,
    totalRepaid: real,
    totalOutstanding: real,
    totalOverdue: real,
    averageLoanSize: real,
    portfolioAtRisk: real,
    defaultRate: real,
    repaymentRate: real,
    portfolioGrowth: real)

  function CountStatus(loans: seq<Loan>, st: LoanStatus): (n: nat)
    ensures n <= |loans|
  {
    if loans == [] then 0
    else CountStatus(loans[..|loans| - 1], st) + (if loans[|loans| - 1].status == st then 1 else 0)
  }

  function CountOverdue(loans: seq<Loan>, now: int): (n: nat)
    ensures n <= |loans|
  {
    if loans == [] then 0
    else CountOverdue(loans[..|loans| - 1], now) + (if IsOverdue(loans[|loans| - 1], now) then 1 else 0)
  }

  function SumPrincipal(loans: seq<Loan>): real {
    if loans == [] then 0.0 else SumPrincipal(loans[..|loans| - 1]) + loans[|loans| - 1].amount
  }

  function SumOwed(loans: seq<Loan>): real {
    if loans == [] then 0.0 else SumOwed(loans[..|loans| - 1]) + TotalOwed(loans[|loans| - 1])
  }

  function SumRepaid(loans: seq<Loan>): real {
    if loans == [] then 0.0 else SumRepaid(loans[..|loans| - 1]) + TotalPaid(loans[|loans| - 1])
  }

  function SumOutstanding(loans: seq<Loan>): real {
    if loans == [] then 0.0 else SumOutstanding(loans[..|loans| - 1]) + Balance(loans[|loans| - 1])
  }

  function SumOverdueBalance(loans: seq<Loan>, now: int): real {
    if loans == [] then 0.0
    else SumOverdueBalance(loans[..|loans| - 1], now)
         + (if IsOverdue(loans[|loans| - 1], now) then Balance(loans[|loans| - 1]) else 0.0)
  }

  /** `d > 0 ? n / d * 100 : 0`, the zero-denominator guard used for every ratio. */
  function GuardedPercent(n: real, d: real): (r: real)
    ensures d <= 0.0 ==> r == 0.0
    ensures d > 0.0 ==> r * d == n * 100.0
  {
    if d > 0.0 then (n / d) * 100.0 else 0.0
  }

  /** calculatePortfolioStats: one pass over the loans updating the counters
      and sums of a `stats` record, then the derived ratios. */
  method CalculatePortfolioStats(loans: seq<Loan>, now: int) returns (stats: PortfolioStats)
    ensures stats.totalLoans == |loans|
    ensures stats.activeLoans == CountStatus(loans, Active)
    ensures stats.paidLoans == CountStatus(loans, Paid)
    ensures stats.defaultedLoans == CountStatus(loans, Defaulted)
    ensures stats.overdueLoans == CountOverdue(loans, now)
    ensures stats.totalPrincipal == stats.totalDisbursed == SumPrincipal(loans)
    ensures stats.totalRepaid == SumRepaid(loans)
    ensures stats.totalOutstanding == SumOutstanding(loans)
    ensures stats.totalOverdue == SumOverdueBalance(loans, now)
    ensures stats.averageLoanSize == (if |loans| > 0 then stats.totalPrincipal / |loans| as real else 0.0)
    ensures stats.portfolioAtRisk == GuardedPercent(stats.totalOverdue, stats.totalOutstanding)
    ensures stats.defaultRate == GuardedPercent(stats.defaultedLoans as real, |loans| as real)
    ensures stats.repaymentRate == GuardedPercent(stats.totalRepaid, stats.totalDisbursed)
    ensures stats.portfolioGrowth == 0.0
  {
    var active, paid, overdue, defaulted := 0, 0, 0, 0;
    var principal, disbursed, repaid, outstanding := 0.0, 0.0, 0.0, 0.0;
    var totalOverdueAmount := 0.0;
    var i := 0;
    while i < |loans|
      invariant 0 <= i <= |loans|
      invariant active == CountStatus(loans[..i], Active)
      invariant paid == CountStatus(loans[..i], Paid)
      invariant defaulted == CountStatus(loans[..i], Defaulted)
      invariant overdue == CountOverdue(loans[..i], now)
      invariant principal == disbursed == SumPrincipal(loans[..i])
      invariant repaid == SumRepaid(loans[..i])
      invariant outstanding == SumOutstanding(loans[..i])
      invariant totalOverdueAmount == SumOverdueBalance(loans[..i], now)
    {
      var loan := loans[i];
      var calculation := CalculateLoanDetails(loan, now);
      assert loans[..i + 1][..i] == loans[..i];
      principal := principal + calculation.principal;
      disbursed := disbursed + calculation.principal;
      repaid := repaid + calculation.totalPaid;
      outstanding := outstanding + calculation.balance;
      match loan.status {
        case Active =>
          active := active + 1;
          if calculation.isOverdue {
            overdue := overdue + 1;
            totalOverdueAmount := totalOverdueAmount + calculation.balance;
          }
        case Paid =>
          paid := paid + 1;
        case Defaulted =>
          defaulted := defaulted + 1;
      }
      i := i + 1;
    }
    assert loans[..|loans|] == loans;
    var total := |loans|;
    stats := PortfolioStats(
      total, active, paid, overdue, defaulted,
      principal, disbursed, repaid, outstanding, totalOverdueAmount,
      if total > 0 then principal / total as real else 0.0,
      GuardedPercent(totalOverdueAmount, outstanding),
      GuardedPercent(defaulted as real, total as real),
      GuardedPercent(repaid, disbursed),
      0.0);
  }

  /** The figures `calculatePortfolioStats` reports for `loans`: every field
      its postcondition fixes. */
  predicate PortfolioStatsOf(stats: PortfolioStats, loans: seq<Loan>, now: int) {
    && stats.totalLoans == |loans|
    && stats.activeLoans == CountStatus(loans, Active)
    && stats.paidLoans == CountStatus(loans, Paid)
    && stats.defaultedLoans == CountStatus(loans, Defaulted)
    && stats.overdueLoans == CountOverdue(loans, now)
    && stats.totalPrincipal == stats.totalDisbursed == SumPrincipal(loans)
    && stats.totalRepaid == SumRepaid(loans)
    && stats.totalOutstanding == SumOutstanding(loans)
    && stats.totalOverdue == SumOverdueBalance(loans, now)
    && stats.averageLoanSize == (if |loans| > 0 then stats.totalPrincipal / |loans| as real else 0.0)
    && stats.portfolioAtRisk == GuardedPercent(stats.totalOverdue, stats.totalOutstanding)
    && stats.defaultRate == GuardedPercent(stats.defaultedLoans as real, |loans| as real)
    && stats.repaymentRate == GuardedPercent(stats.totalRepaid, stats.totalDisbursed)
    && stats.portfolioGrowth == 0.0
  }

  /** Each loan is counted in exactly one of active, paid and defaulted. */
  lemma {:induction false} StatusCountsPartition(loans: seq<Loan>)
    ensures CountStatus(loans, Active) + CountStatus(loans, Paid) + CountStatus(loans, Defaulted) == |loans|
  {
    if loans != [] {
      StatusCountsPartition(loans[..|loans| - 1]);
    }
  }

  /** Overdue loans are a subset of the active ones. */
  lemma {:induction false} OverdueAmongActive(loans: seq<Loan>, now: int)
    ensures CountOverdue(loans, now) <= CountStatus(loans, Active)
  {
    if loans != [] {
      OverdueAmongActive(loans[..|loans| - 1], now);
    }
  }

  /** The outstanding total is what is owed minus what has been repaid. */
  lemma {:induction false} OutstandingIsOwedMinusRepaid(loans: seq<Loan>)
    ensures SumOutstanding(loans) == SumOwed(loans) - SumRepaid(loans)
  {
    if loans != [] {
      OutstandingIsOwedMinusRepaid(loans[..|loans| - 1]);
    }
  }

  /** With no loan overpaid, the overdue balance is part of the outstanding
      balance, so the portfolio-at-risk percentage lies in [0, 100]. */
  lemma {:induction false} OverdueWithinOutstanding(loans: seq<Loan>, now: int)
    requires forall i :: 0 <= i < |loans| ==> Balance(loans[i]) >= 0.0
    ensures 0.0 <= SumOverdueBalance(loans, now) <= SumOutstanding(loans)
  {
    if loans != [] {
      OverdueWithinOutstanding(loans[..|loans| - 1], now);
    }
  }

  lemma PortfolioAtRiskBounded(loans: seq<Loan>, now: int)
    requires forall i :: 0 <= i < |loans| ==> Balance(loans[i]) >= 0.0
    ensures 0.0 <= GuardedPercent(SumOverdueBalance(loans, now), SumOutstanding(loans)) <= 100.0
  {
    OverdueWithinOutstanding(loans, now);
    var o, t := SumOverdueBalance(loans, now), SumOutstanding(loans);
    ProgressBounded(o, t);
  }

  // ---------------------------------------------------------------------------
  // Risk assessment

  datatype RiskLevel = Low | Medium | High

  /** The entries pushed onto `riskFactors`, in push order. */
  datatype RiskFactor =
    | OverOneYearOld
    | DaysOverdue(days: nat)
    | LowProgressForAge
    | HighLoanAmount
    | NoRecentPayments

  /** The text of each factor as the application displays it. */
  function FactorText(f: RiskFactor): string {
    match f
    case OverOneYearOld => "Loan is over 1 year old"
    case DaysOverdue(d) => NatToString(d) + " days overdue"
    case LowProgressForAge => "Low payment progress for loan age"
    case HighLoanAmount => "High loan amount"
    case NoRecentPayments => "No payments in last 90 days"
  }

  datatype RiskAssessment = RiskAssessment(riskLevel: RiskLevel, riskFactors: seq<RiskFactor>, riskScore: int)

  function Min(a: int, b: int): int {
    if a <= b then a else b
  }

  /** `|getDaysUntilDue(loan.dueDate)|`. */
  function RiskDaysOverdue(loan: Loan, now: int): nat {
    Abs(DaysUntilDue(loan.dueDate, now))
  }

  function CountRecent(ps: seq<Payment>, now: int): nat {
    if ps == [] then 0
    else CountRecent(ps[..|ps| - 1], now) + (if ps[|ps| - 1].paidAt > now - 90 * DAY then 1 else 0)
  }

  predicate AgeFactor(loan: Loan, now: int) { LoanAgeInDays(loan.issuedAt, now) > 365 }
  predicate ProgressFactor(loan: Loan, now: int) {
    PaymentProgress(loan) < 25.0 && LoanAgeInDays(loan.issuedAt, now) > 90
  }
  predicate AmountFactor(loan: Loan) { loan.amount > 10000.0 }
  predicate StaleFactor(loan: Loan, now: int) {
    CountRecent(loan.payments, now) == 0 && |loan.payments| > 0 && !IsFullyPaid(loan)
  }

  /** The uncapped score: the sum of the five factor weights. */
  function RawRiskScore(loan: Loan, now: int): (raw: int)
    ensures 0 <= raw <= 110
  {
    (if AgeFactor(loan, now) then 20 else 0)
    + (if IsOverdue(loan, now) then Min(RiskDaysOverdue(loan, now) * 2, 40) else 0)
    + (if ProgressFactor(loan, now) then 15 else 0)
    + (if AmountFactor(loan) then 10 else 0)
    + (if StaleFactor(loan, now) then 25 else 0)
  }

  function RiskFactors(loan: Loan, now: int): seq<RiskFactor> {
    (if AgeFactor(loan, now) then [OverOneYearOld] else [])
    + (if IsOverdue(loan, now) then [DaysOverdue(RiskDaysOverdue(loan, now))] else [])
    + (if ProgressFactor(loan, now) then [LowProgressForAge] else [])
    + (if AmountFactor(loan) then [HighLoanAmount] else [])
    + (if StaleFactor(loan, now) then [NoRecentPayments] else [])
  }

  function LevelOf(raw: int): (level: RiskLevel)
    ensures level == Low <==> raw <= 20
    ensures level == Medium <==> 20 < raw <= 50
    ensures level == High <==> raw > 50
  {
    if raw <= 20 then Low else if raw <= 50 then Medium else High
  }

  /** Counts the payments made in the last 90 days (the `filter` in assessLoanRisk). */
  method CountRecentPayments(ps: seq<Payment>, now: int) returns (n: nat)
    ensures n == CountRecent(ps, now)
    ensures n <= |ps|
  {
    n := 0;
    var i := 0;
    while i < |ps|
      invariant 0 <= i <= |ps|
      invariant n == CountRecent(ps[..i], now) && n <= i
    {
      assert ps[..i + 1][..i] == ps[..i];
      if ps[i].paidAt > now - 90 * DAY {
        n := n + 1;
      }
      i := i + 1;
    }
    assert ps[..|ps|] == ps;
  }

  /** assessLoanRisk: accumulates `riskScore` and pushes `riskFactors` factor by factor. */
  method AssessLoanRisk(loan: Loan, now: int) returns (r: RiskAssessment)
    ensures r.riskFactors == RiskFactors(loan, now)
    ensures r.riskLevel == LevelOf(RawRiskScore(loan, now))
    ensures r.riskScore == Min(RawRiskScore(loan, now), 100)
    ensures 0 <= r.riskScore <= 100
  {
    var calculation := CalculateLoanDetails(loan, now);
    var riskFactors: seq<RiskFactor> := [];
    var riskScore := 0;

    var loanAge := LoanAgeInDays(loan.issuedAt, now);
    if loanAge > 365 {
      riskFactors := riskFactors + [OverOneYearOld];
      riskScore := riskScore + 20;
    }
    if calculation.isOverdue {
      var daysOverdue := Abs(DaysUntilDue(loan.dueDate, now));
      riskFactors := riskFactors + [DaysOverdue(daysOverdue)];
      riskScore := riskScore + Min(daysOverdue * 2, 40);
    }
    if calculation.paymentProgress < 25.0 && loanAge > 90 {
      riskFactors := riskFactors + [LowProgressForAge];
      riskScore := riskScore + 15;
    }
    if loan.amount > 10000.0 {
      riskFactors := riskFactors + [HighLoanAmount];
      riskScore := riskScore + 10;
    }
    var recent := CountRecentPayments(loan.payments, now);
    if recent == 0 && |loan.payments| > 0 && !calculation.isFullyPaid {
      riskFactors := riskFactors + [NoRecentPayments];
      riskScore := riskScore + 25;
    }

    var riskLevel;
    if riskScore <= 20 {
      riskLevel := Low;
    } else if riskScore <= 50 {
      riskLevel := Medium;
    } else {
      riskLevel := High;
    }
    r := RiskAssessment(riskLevel, riskFactors, Min(riskScore, 100));
  }

  /** The raw score can exceed 100 (all five factors give 110), which is why
      the reported score is capped while the level uses the raw score. */
  lemma RawScoreCanExceedCap()
    ensures exists loan: Loan, now: int :: RawRiskScore(loan, now) == 110
  {
    var now := 1000 * DAY;
    var p := Payment("p", "l", 1.0, 0, None, None);
    var loan := Loan("l", "b", 20000.0, None, 0, 500 * DAY, Active, None, [p]);
    assert [p][..0] == [];
    assert SumAmounts([p]) == 1.0;
    assert TotalPaid(loan) == 1.0;
    assert PaymentProgress(loan) < 25.0;
    assert CountRecent(loan.payments, now) == 0;
    assert RiskDaysOverdue(loan, now) == 500;
    assert RawRiskScore(loan, now) == 110;
  }

  /** The "no recent payments" factor fires only for a loan that has payments
      and is not fully paid. */
  lemma StaleFactorNeedsPaymentsAndBalance(loan: Loan, now: int)
    requires NoRecentPayments in RiskFactors(loan, now)
    ensures |loan.payments| > 0 && !IsFullyPaid(loan) && Balance(loan) > 0.0
  {
  }

  /** An overdue loan carries the days-overdue factor, naming the whole days
      elapsed since the due date, and no other days-overdue entry. */
  lemma OverdueFactorPresent(loan: Loan, now: int)
    requires IsOverdue(loan, now)
    ensures DaysOverdue(FloorDays(now - loan.dueDate)) in RiskFactors(loan, now)
    ensures forall f :: f in RiskFactors(loan, now) && f.DaysOverdue? ==> f == DaysOverdue(FloorDays(now - loan.dueDate))
  {
    DaysOverdueIsElapsedDays(loan.dueDate, now);
  }
}
