/** `/api/loans`: GET lists loans a page at a time, each enriched with its
    balance figures and a route-local overdue flag; POST checks that the
    borrower exists, inserts the loan and writes one audit entry. */
module LoansRoute {
  import opened Common
  import opened LoanUtils
  import opened Db
  import opened Pagination
  import opened PaymentsRoute

  // ---------------------------------------------------------------------------
  // GET /api/loans

  /** A loan row with the figures the list endpoint adds to it. */
  datatype EnrichedLoan = EnrichedLoan(
    loan: Loan,
    totalPaid: real,
    interestAmount: real,
    totalOwed: real,
    balance: real,
    isOverdue: bool)

  /** The per-loan enrichment, with the clock reading passed in as `now`.
      Its overdue flag does not look at the balance. */
  function Enrich(loan: Loan, now: int): EnrichedLoan {
    var totalPaid := SumAmounts(loan.payments);
    var interestAmount := loan.amount * (loan.interestRate.GetOr(0.0) / 100.0);
    var totalOwed := loan.amount + interestAmount;
    EnrichedLoan(loan, totalPaid, interestAmount, totalOwed, totalOwed - totalPaid,
                 now > loan.dueDate && loan.status == Active)
  }

  /** The enriched figures agree with `calculateLoanDetails`, the loan row is
      carried over unchanged, and the route's overdue flag is the shared one
      widened to loans with nothing left to pay. */
  lemma EnrichAgreesWithLoanDetails(loan: Loan, now: int)
    ensures var e := Enrich(loan, now);
            var c := CalculateLoanDetails(loan, now);
            && e.loan == loan
            && e.totalPaid == c.totalPaid && e.interestAmount == c.interestAmount
            && e.totalOwed == c.totalOwed && e.balance == c.balance
            && (e.isOverdue <==> c.isOverdue || (now > loan.dueDate && loan.status == Active && c.balance <= 0.0))
  {
  }

  /** The two overdue flags really differ: a settled ACTIVE loan past its due
      date is overdue for this route but not for `calculateLoanDetails`. */
  lemma SettledLoanFlaggedOverdue()
    ensures var p := Payment("p1", "l1", 500.0, 0, None, None);
            var loan := Loan("l1", "b1", 500.0, None, 0, 10, Active, None, [p]);
            Enrich(loan, 20).isOverdue && !CalculateLoanDetails(loan, 20).isOverdue
  {
    var p := Payment("p1", "l1", 500.0, 0, None, None);
    assert [p][..0] == [];
  }

  /** The `status` query value; anything but the three enum names makes the
      store reject the query. */
  function ParseStatus(s: string): (st: Option<LoanStatus>)
    ensures st == Some(Active) <==> s == "ACTIVE"
    ensures st == Some(Paid) <==> s == "PAID"
    ensures st == Some(Defaulted) <==> s == "DEFAULTED"
  {
    if s == "ACTIVE" then Some(Active)
    else if s == "PAID" then Some(Paid)
    else if s == "DEFAULTED" then Some(Defaulted)
    else None
  }

  /** The `where` clause: `status` and `borrowerId` each filter only when truthy. */
  predicate LoanMatches(status: Option<LoanStatus>, borrowerIdParam: Option<string>, loan: Loan) {
    && (status.None? || loan.status == status.value)
    && (!Truthy(borrowerIdParam) || loan.borrowerId == borrowerIdParam.value)
  }

  function EnrichAll(loans: seq<Loan>, now: int): (es: seq<EnrichedLoan>)
    ensures |es| == |loans|
    ensures forall i :: 0 <= i < |loans| ==> es[i] == Enrich(loans[i], now)
  {
    if loans == [] then [] else [Enrich(loans[0], now)] + EnrichAll(loans[1..], now)
  }

  /** `if (status) where.status = status`: None means no status filter. */
  function StatusFilter(statusParam: Option<string>): Option<LoanStatus> {
    if Truthy(statusParam) then ParseStatus(statusParam.value) else None
  }

  /** One page of enriched loans; `ordered` is the loan table in the store's
      `createdAt`-descending order. An unknown status name is refused by the
      store (None, a 500 response). */
  function ListLoans(ordered: seq<Loan>, statusParam: Option<string>, borrowerIdParam: Option<string>,
                     page: int, limit: int, now: int): Option<Listing<EnrichedLoan>>
  {
    var status := StatusFilter(statusParam);
    if Truthy(statusParam) && status.None? then None
    else
      var l := List(Filter(ordered, loan => LoanMatches(status, borrowerIdParam, loan)), page, limit);
      var rows := if l.rows.Some? then Some(EnrichAll(l.rows.value, now)) else None;
      Some(Listing(rows, l.page, l.limit, l.total, l.pages))
  }

  /** Every listed loan passes the `where` filter (the requested status and
      borrower, when given), and its balance is that of `calculateLoanDetails`. */
  lemma {:induction false} ListedLoansMatch(ordered: seq<Loan>, statusParam: Option<string>, borrowerIdParam: Option<string>,
                                            page: int, limit: int, now: int)
    ensures var r := ListLoans(ordered, statusParam, borrowerIdParam, page, limit, now);
            r.Some? && r.value.rows.Some? ==>
              && (Truthy(statusParam) ==> StatusFilter(statusParam).Some?)
              && forall i :: 0 <= i < |r.value.rows.value| ==>
                   && LoanMatches(StatusFilter(statusParam), borrowerIdParam, r.value.rows.value[i].loan)
                   && r.value.rows.value[i].balance == Balance(r.value.rows.value[i].loan)
  {
    var r := ListLoans(ordered, statusParam, borrowerIdParam, page, limit, now);
    if r.Some? && r.value.rows.Some? {
      var status := StatusFilter(statusParam);
      var matches := loan => LoanMatches(status, borrowerIdParam, loan);
      var matching := Filter(ordered, matches);
      PageRowsKeep(matching, page, limit, matches);
      var rows := PageRows(matching, page, limit).value;
      assert r.value.rows.value == EnrichAll(rows, now);
      forall i | 0 <= i < |rows|
        ensures LoanMatches(status, borrowerIdParam, EnrichAll(rows, now)[i].loan)
        ensures EnrichAll(rows, now)[i].balance == Balance(EnrichAll(rows, now)[i].loan)
      {
        assert matches(rows[i]);
        EnrichBalance(rows[i], now);
      }
    }
  }

  lemma EnrichBalance(loan: Loan, now: int)
    ensures Enrich(loan, now).loan == loan && Enrich(loan, now).balance == Balance(loan)
  {
  }

  // ---------------------------------------------------------------------------
  // POST /api/loans

  /** The POST body; the two dates are `new Date(text)`, None when the text
      does not parse. */
  datatype LoanRequest = LoanRequest(
    borrowerId: string,
    amount: real,
    interestRate: Option<real>,
    issuedAt: Option<int>,
    dueDate: Option<int>,
    notes: Option<string>)

  /** `CreateLoanSchema`: a borrower id, a positive amount and, when given, a
      non-negative rate. */
  predicate ValidLoanRequest(req: LoanRequest) {
    && |req.borrowerId| >= 1
    && req.amount > 0.0
    && (req.interestRate.Some? ==> req.interestRate.value >= 0.0)
  }

  datatype LoanOutcome =
    | LoanValidationFailed
    | BorrowerNotFound
    | LoanCreateFailed
    | LoanStored(loan: Loan)
  {
    function StatusCode(): int {
      match this
      case LoanValidationFailed => 400
      case BorrowerNotFound => 404
      case LoanCreateFailed => 500
      case LoanStored(_) => 201
    }
  }

  /** The response of the POST handler from the borrower table; an invalid
      date is only noticed by the store when the row is inserted. New loans
      take the table's default status, ACTIVE. */
  function DecideLoan(borrowers: map<string, Borrower>, req: LoanRequest, loanId: string): LoanOutcome {
    if !ValidLoanRequest(req) then LoanValidationFailed
    else if req.borrowerId !in borrowers then BorrowerNotFound
    else if req.issuedAt.None? || req.dueDate.None? then LoanCreateFailed
    else LoanStored(Loan(loanId, req.borrowerId, req.amount, req.interestRate,
                          req.issuedAt.value, req.dueDate.value, Active, req.notes, []))
  }

  /** POST /api/loans as one sequential step; `loanId` is the id the store
      generates for the new row. */
  method CreateLoan(db: Store, req: LoanRequest, loanId: string) returns (outcome: LoanOutcome)
    requires db.Valid() && loanId !in db.loans
    modifies db
    ensures db.Valid()
    ensures outcome == DecideLoan(old(db.borrowers), req, loanId)
    ensures outcome.LoanStored? ==>
              && db.loans == old(db.loans)[loanId := outcome.loan]
              && db.audit == old(db.audit) + [LoanCreated(loanId, req.borrowerId, req.amount)]
    ensures !outcome.LoanStored? ==> db.loans == old(db.loans) && db.audit == old(db.audit)
    ensures db.borrowers == old(db.borrowers) && db.applications == old(db.applications)
    ensures db.users == old(db.users) && db.resetTokens == old(db.resetTokens)
    ensures db.profiles == old(db.profiles)
  {
    if !ValidLoanRequest(req) {
      return LoanValidationFailed;
    }
    if req.borrowerId !in db.borrowers {
      return BorrowerNotFound;
    }
    if req.issuedAt.None? || req.dueDate.None? {
      return LoanCreateFailed;
    }
    var loan := Loan(loanId, req.borrowerId, req.amount, req.interestRate,
                     req.issuedAt.value, req.dueDate.value, Active, req.notes, []);
    db.loans := db.loans[loanId := loan];
    db.audit := db.audit + [LoanCreated(loan.id, loan.borrowerId, loan.amount)];
    outcome := LoanStored(loan);
  }

  /** An unknown borrower is answered with 404, whatever the rest of a valid body. */
  lemma UnknownBorrowerIsNotFound(borrowers: map<string, Borrower>, req: LoanRequest, loanId: string)
    requires ValidLoanRequest(req) && req.borrowerId !in borrowers
    ensures DecideLoan(borrowers, req, loanId).StatusCode() == 404
  {
  }

  /** A new loan is ACTIVE with no payments, its balance is everything it
      owes, and that is at least the (positive) principal. */
  lemma NewLoanOwesItsPrincipal(borrowers: map<string, Borrower>, req: LoanRequest, loanId: string)
    requires DecideLoan(borrowers, req, loanId).LoanStored?
    ensures var loan := DecideLoan(borrowers, req, loanId).loan;
            && loan.status == Active && loan.payments == []
            && loan.amount == req.amount && loan.borrowerId == req.borrowerId
            && Balance(loan) == TotalOwed(loan) >= loan.amount > 0.0
            && !IsFullyPaid(loan)
  {
    var loan := DecideLoan(borrowers, req, loanId).loan;
    assert Rate(loan) >= 0.0;
    assert InterestAmount(loan) >= 0.0 by {
      NonNegativeProduct(loan.amount, Rate(loan) / 100.0);
    }
  }

  lemma NonNegativeProduct(a: real, b: real)
    requires a >= 0.0 && b >= 0.0
    ensures a * b >= 0.0
  {
  }

  /** Creating a loan keeps every loan within what it owes. */
  lemma CreatePreservesWithinOwed(loans: map<string, Loan>, borrowers: map<string, Borrower>, req: LoanRequest, loanId: string)
    requires WithinOwed(loans)
    ensures var o := DecideLoan(borrowers, req, loanId);
            o.LoanStored? ==> WithinOwed(loans[loanId := o.loan])
  {
    var o := DecideLoan(borrowers, req, loanId);
    if o.LoanStored? {
      NewLoanOwesItsPrincipal(borrowers, req, loanId);
    }
  }
}
