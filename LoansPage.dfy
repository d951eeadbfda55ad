/** The admin loans page: the status badge of a listed loan, the repayment
    progress bar, the loan form's interest-rate default, the edit form's
    pre-filled values and the status filter select. */
module LoansPage {
  import opened Common
  import opened LoanUtils
  import opened LoansRoute

  // ---------------------------------------------------------------------------
  // Status badge

  datatype Badge = PaidBadge | OverdueBadge | DefaultedBadge | ActiveBadge

  /** `getStatusBadge`: PAID first, then the row's overdue flag, then
      DEFAULTED, otherwise Active. */
  function StatusBadge(e: EnrichedLoan): Badge {
    if e.loan.status == Paid then PaidBadge
    else if e.isOverdue then OverdueBadge
    else if e.loan.status == Defaulted then DefaultedBadge
    else ActiveBadge
  }

  /** For a row as the list endpoint enriches it, the badge names the stored
      status, except that an ACTIVE loan past its due date shows Overdue,
      whatever its balance. */
  lemma BadgeOfListedLoan(loan: Loan, now: int)
    ensures var b := StatusBadge(Enrich(loan, now));
            && (b == PaidBadge <==> loan.status == Paid)
            && (b == DefaultedBadge <==> loan.status == Defaulted)
            && (b == OverdueBadge <==> loan.status == Active && now > loan.dueDate)
            && (b == ActiveBadge <==> loan.status == Active && now <= loan.dueDate)
  {
  }

  // ---------------------------------------------------------------------------
  // Progress bar

  /** `(totalPaid / totalOwed) * 100` as printed under the bar; a zero
      `totalOwed` gives a non-finite number, modelled as None. */
  function ProgressPercent(totalPaid: real, totalOwed: real): (p: Option<real>)
    ensures p.Some? <==> totalOwed != 0.0
  {
    if totalOwed == 0.0 then None else Some(totalPaid / totalOwed * 100.0)
  }

  /** The bar width `Math.min(percent, 100)`: +Infinity (something paid on
      nothing owed) is cut to 100, NaN and -Infinity have no width (None). */
  function ProgressWidth(totalPaid: real, totalOwed: real): (w: Option<real>)
    ensures w.Some? ==> w.value <= 100.0
  {
    match ProgressPercent(totalPaid, totalOwed)
    case Some(p) => Some(if p < 100.0 then p else 100.0)
    case None => if totalPaid > 0.0 then Some(100.0) else None
  }

  /** The width is the printed percentage cut at 100: equal below 100, and
      100 for an overpaid loan while the text still shows more than 100. */
  lemma WidthIsClampedPercent(totalPaid: real, totalOwed: real)
    requires totalOwed != 0.0
    ensures var p := ProgressPercent(totalPaid, totalOwed).value;
            var w := ProgressWidth(totalPaid, totalOwed).value;
            && (p <= 100.0 ==> w == p)
            && (p > 100.0 ==> w == 100.0 < p)
  {
  }

  /** For a listed loan that owes something, the printed percentage is the
      shared `paymentProgress`. */
  lemma PercentIsPaymentProgress(loan: Loan, now: int)
    requires TotalOwed(loan) > 0.0
    ensures var e := Enrich(loan, now);
            ProgressPercent(e.totalPaid, e.totalOwed) == Some(PaymentProgress(loan))
  {
    EnrichAgreesWithLoanDetails(loan, now);
  }

  /** An overpaid loan fills the bar but is reported above 100%. */
  lemma OverpaidLoanFillsBar()
    ensures ProgressPercent(150.0, 100.0) == Some(150.0)
    ensures ProgressWidth(150.0, 100.0) == Some(100.0)
  {
  }

  // ---------------------------------------------------------------------------
  // Loan form

  /** `interestRate` in `LoanSchema`: an empty input is 0, anything else goes
      through `parseFloat` (a parameter here). */
  function FormRate(text: string, parseNumber: string -> real): (rate: real)
    ensures text == "" ==> rate == 0.0
    ensures text != "" ==> rate == parseNumber(text)
  {
    if text == "" then 0.0 else parseNumber(text)
  }

  datatype EditPrefill = EditPrefill(interestRate: string, issuedAt: string, dueDate: string)

  /** `handleEdit`: the rate's text, or '0' when the rate is missing or its
      text is empty, and the date part of each ISO timestamp (the text before
      the first 'T'). `numberText` stands for `Number.prototype.toString`. */
  function Prefill(rate: Option<real>, issuedAtIso: string, dueDateIso: string,
                   numberText: real -> string): (f: EditPrefill)
    ensures f.interestRate != ""
    ensures rate.None? ==> f.interestRate == "0"
    ensures StartsWith(issuedAtIso, f.issuedAt) && 'T' !in f.issuedAt
    ensures StartsWith(dueDateIso, f.dueDate) && 'T' !in f.dueDate
  {
    var t := if rate.Some? then numberText(rate.value) else "";
    EditPrefill(if t == "" then "0" else t, BeforeFirst(issuedAtIso, 'T'), BeforeFirst(dueDateIso, 'T'))
  }

  /** A timestamp `<date>T<time>` is cut back to `<date>`, whatever the date
      text is, as long as it holds no 'T'. */
  lemma PrefillKeepsDatePart(date: string, time: string)
    requires 'T' !in date
    ensures BeforeFirst(date + ['T'] + time, 'T') == date
  {
    var s := date + ['T'] + time;
    assert s[|date|] == 'T';
    assert s[..|date|] == date;
  }

  // ---------------------------------------------------------------------------
  // Status filter

  /** The select shows `statusFilter || "ALL"`. */
  function SelectValue(statusFilter: string): string {
    if statusFilter == "" then "ALL" else statusFilter
  }

  /** Picking "ALL" clears the filter; any other item becomes the filter. */
  function FilterOfChoice(choice: string): string {
    if choice == "ALL" then "" else choice
  }

  /** `status: statusFilter || undefined` in the list request. */
  function StatusQuery(statusFilter: string): (q: Option<string>)
    ensures q.None? <==> statusFilter == ""
    ensures q.Some? ==> Truthy(q)
  {
    if statusFilter == "" then None else Some(statusFilter)
  }

  /** Every item of the select shows as itself once chosen; "ALL" sends no
      status and so lists loans of every status. */
  lemma FilterChoiceRoundTrip(choice: string)
    requires choice != ""
    ensures SelectValue(FilterOfChoice(choice)) == choice
    ensures choice == "ALL" <==> StatusQuery(FilterOfChoice(choice)).None?
    ensures choice == "ALL" ==> StatusFilter(StatusQuery(FilterOfChoice(choice))).None?
  {
  }

  /** The select also offers "OVERDUE", which is not a stored status, so the
      list endpoint refuses that query; the three stored statuses filter. */
  lemma OverdueChoiceRefused(ordered: seq<Loan>, page: int, limit: int, now: int)
    ensures ListLoans(ordered, StatusQuery(FilterOfChoice("OVERDUE")), None, page, limit, now).None?
    ensures StatusFilter(StatusQuery(FilterOfChoice("ACTIVE"))) == Some(Active)
    ensures StatusFilter(StatusQuery(FilterOfChoice("PAID"))) == Some(Paid)
    ensures StatusFilter(StatusQuery(FilterOfChoice("DEFAULTED"))) == Some(Defaulted)
  {
  }
}
