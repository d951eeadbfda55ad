/** The payment ledger behind `/api/payments`: POST is a guarded append to a
    loan's payment list (validation, existence, not already PAID, amount within
    the remaining balance), followed by the conditional flip of the loan to
    PAID and one audit entry; GET lists payments a page at a time. */
module PaymentsRoute {
  import opened Common
  import opened LoanUtils
  import opened Db
  import opened Pagination

  /** The POST body; `paidAt` is already converted to milliseconds. */
  datatype PaymentRequest = PaymentRequest(
    loanId: string,
    amount: real,
    paidAt: Option<int>,
    notes: Option<string>,
    paymentMethod: Option<string>)  // the body's `method` field (a reserved word here)

  /** `CreatePaymentSchema`: a non-empty loan id and a positive amount. */
  predicate ValidRequest(req: PaymentRequest) {
    |req.loanId| >= 1 && req.amount > 0.0
  }

  datatype PostOutcome =
    | ValidationFailed
    | LoanNotFound
    | LoanAlreadyPaid
    | ExceedsBalance
    | Created(payment: Payment)
  {
    function StatusCode(): int {
      match this
      case ValidationFailed => 400
      case LoanNotFound => 404
      case LoanAlreadyPaid => 400
      case ExceedsBalance => 400
      case Created(_) => 201
    }
  }

  /** The payment row the handler inserts, with `paidAt` defaulting to now. */
  function NewPayment(req: PaymentRequest, now: int, paymentId: string): Payment {
    Payment(paymentId, req.loanId, req.amount, req.paidAt.GetOr(now), req.notes, req.paymentMethod)
  }

  /** Which response the POST handler gives, from the loan table before the call. */
  function Decide(loans: map<string, Loan>, req: PaymentRequest, now: int, paymentId: string): PostOutcome {
    if !ValidRequest(req) then ValidationFailed
    else if req.loanId !in loans then LoanNotFound
    else if loans[req.loanId].status == Paid then LoanAlreadyPaid
    else if req.amount > Balance(loans[req.loanId]) then ExceedsBalance
    else Created(NewPayment(req, now, paymentId))
  }

  /** The loan after a payment is recorded: the payment is appended and the
      status becomes PAID once the new total covers what is owed. */
  function RecordPayment(loan: Loan, p: Payment): Loan {
    var newTotalPaid := TotalPaid(loan) + p.amount;
    loan.(payments := loan.payments + [p],
          status := if newTotalPaid >= TotalOwed(loan) then Paid else loan.status)
  }

  /** POST /api/payments as one sequential step over the store. */
  method CreatePayment(db: Store, req: PaymentRequest, now: int, paymentId: string)
    returns (outcome: PostOutcome)
    requires db.Valid()
    modifies db
    ensures db.Valid()
    ensures outcome == Decide(old(db.loans), req, now, paymentId)
    ensures outcome.Created? ==>
              && db.loans == old(db.loans)[req.loanId := RecordPayment(old(db.loans)[req.loanId], outcome.payment)]
              && db.audit == old(db.audit) + [PaymentReceived(paymentId, req.loanId, req.amount)]
              && TotalPaid(db.loans[req.loanId]) <= TotalOwed(db.loans[req.loanId])
    ensures !outcome.Created? ==> db.loans == old(db.loans) && db.audit == old(db.audit)
    ensures db.borrowers == old(db.borrowers) && db.applications == old(db.applications)
    ensures db.users == old(db.users) && db.resetTokens == old(db.resetTokens)
    ensures db.profiles == old(db.profiles)
  {
    if !ValidRequest(req) {
      return ValidationFailed;
    }
    if req.loanId !in db.loans {
      return LoanNotFound;
    }
    var loan := db.loans[req.loanId];
    if loan.status == Paid {
      return LoanAlreadyPaid;
    }
    var totalPaid := TotalPaid(loan);
    var totalOwed := TotalOwed(loan);
    var currentBalance := totalOwed - totalPaid;
    if req.amount > currentBalance {
      return ExceedsBalance;
    }
    var payment := NewPayment(req, now, paymentId);
    var updated := loan.(payments := loan.payments + [payment]);
    var newTotalPaid := totalPaid + req.amount;
    if newTotalPaid >= totalOwed {
      updated := updated.(status := Paid);
    }
    db.loans := db.loans[req.loanId := updated];
    db.audit := db.audit + [PaymentReceived(payment.id, payment.loanId, payment.amount)];
    KeepsPaidWithinOwed(loan, payment);
    outcome := Created(payment);
  }

  // ---------------------------------------------------------------------------
  // Properties of the POST decision

  /** A malformed body is refused before the loan table is consulted. */
  lemma ValidationComesFirst(loans: map<string, Loan>, req: PaymentRequest, now: int, paymentId: string)
    requires req.amount <= 0.0 || req.loanId == ""
    ensures Decide(loans, req, now, paymentId) == ValidationFailed
    ensures Decide(loans, req, now, paymentId).StatusCode() == 400
  {
  }

  /** The guards in order: each rejection is reported for exactly its cause. */
  lemma DecideOutcomes(loans: map<string, Loan>, req: PaymentRequest, now: int, paymentId: string)
    ensures var o := Decide(loans, req, now, paymentId);
            && (o == LoanNotFound <==> ValidRequest(req) && req.loanId !in loans)
            && (o == LoanAlreadyPaid <==> ValidRequest(req) && req.loanId in loans && loans[req.loanId].status == Paid)
            && (o == ExceedsBalance <==> ValidRequest(req) && req.loanId in loans && loans[req.loanId].status != Paid
                                         && req.amount > TotalOwed(loans[req.loanId]) - TotalPaid(loans[req.loanId]))
            && (o.Created? <==> ValidRequest(req) && req.loanId in loans && loans[req.loanId].status != Paid
                                && req.amount <= TotalOwed(loans[req.loanId]) - TotalPaid(loans[req.loanId]))
  {
  }

  /** Paying exactly the remaining balance is accepted and settles the loan. */
  lemma ExactBalanceSettles(loans: map<string, Loan>, req: PaymentRequest, now: int, paymentId: string)
    requires ValidRequest(req) && req.loanId in loans && loans[req.loanId].status != Paid
    requires req.amount == Balance(loans[req.loanId])
    ensures Decide(loans, req, now, paymentId).Created?
    ensures var loan' := RecordPayment(loans[req.loanId], Decide(loans, req, now, paymentId).payment);
            loan'.status == Paid && Balance(loan') == 0.0
  {
    var loan := loans[req.loanId];
    SumAmountsAppend(loan.payments, NewPayment(req, now, paymentId));
  }

  /** A loan of 1000 at 0% with 1000 already paid (still ACTIVE) refuses one more cent. */
  lemma OverpaymentByOneCentRefused(now: int)
    ensures var p := Payment("p1", "l1", 1000.0, 0, None, None);
            var loan := Loan("l1", "b1", 1000.0, Some(0.0), 0, 0, Active, None, [p]);
            var req := PaymentRequest("l1", 0.01, None, None, None);
            Decide(map["l1" := loan], req, now, "p2") == ExceedsBalance
  {
    var p := Payment("p1", "l1", 1000.0, 0, None, None);
    assert SumAmounts([p]) == SumAmounts([]) + 1000.0 by {
      assert [p][..0] == [];
    }
  }

  /** A successful payment appends exactly the new row (amount as given,
      `paidAt` defaulting to now), raises the total paid by that amount and
      changes no other field than the status. */
  lemma {:induction false} RecordPaymentAppendsOne(loan: Loan, req: PaymentRequest, now: int, paymentId: string)
    ensures var loan' := RecordPayment(loan, NewPayment(req, now, paymentId));
            && |loan'.payments| == |loan.payments| + 1
            && loan'.payments[..|loan.payments|] == loan.payments
            && loan'.payments[|loan.payments|].amount == req.amount
            && loan'.payments[|loan.payments|].paidAt == (if req.paidAt.Some? then req.paidAt.value else now)
            && TotalPaid(loan') == TotalPaid(loan) + req.amount
            && TotalOwed(loan') == TotalOwed(loan)
            && loan'.(payments := loan.payments, status := loan.status) == loan
  {
    var loan' := RecordPayment(loan, NewPayment(req, now, paymentId));
    SumAmountsAppend(loan.payments, NewPayment(req, now, paymentId));
    RecordPaymentKeepsOwed(loan, NewPayment(req, now, paymentId));
  }

  /** The loan becomes PAID exactly when the new total covers what is owed;
      otherwise its status is left alone (so a DEFAULTED loan stays DEFAULTED). */
  lemma {:induction false} PaidIffCovered(loan: Loan, p: Payment)
    requires loan.status != Paid
    ensures var loan' := RecordPayment(loan, p);
            && (loan'.status == Paid <==> TotalPaid(loan') >= TotalOwed(loan))
            && (loan'.status != Paid ==> loan'.status == loan.status)
  {
    SumAmountsAppend(loan.payments, p);
  }

  lemma DefaultedStaysDefaultedOnPartialPayment(loan: Loan, p: Payment)
    requires loan.status == Defaulted && p.amount < Balance(loan)
    ensures RecordPayment(loan, p).status == Defaulted
  {
  }

  /** The ledger invariant: a payment the guards let through never takes the
      total paid beyond the total owed. */
  lemma {:induction false} KeepsPaidWithinOwed(loan: Loan, p: Payment)
    requires p.amount <= Balance(loan)
    ensures TotalPaid(RecordPayment(loan, p)) <= TotalOwed(RecordPayment(loan, p))
  {
    var loan' := RecordPayment(loan, p);
    SumAmountsAppend(loan.payments, p);
    assert TotalPaid(loan') == TotalPaid(loan) + p.amount;
    RecordPaymentKeepsOwed(loan, p);
    assert Balance(loan) == TotalOwed(loan) - TotalPaid(loan);
  }

  /** Recording a payment leaves the principal and rate, hence what is owed, alone. */
  lemma RecordPaymentKeepsOwed(loan: Loan, p: Payment)
    ensures TotalOwed(RecordPayment(loan, p)) == TotalOwed(loan)
  {
    var loan' := RecordPayment(loan, p);
    assert loan'.amount == loan.amount && loan'.interestRate == loan.interestRate;
    assert InterestAmount(loan') == InterestAmount(loan);
  }

  /** Every loan in the table has paid no more than it owes. */
  ghost predicate WithinOwed(loans: map<string, Loan>) {
    forall id :: id in loans ==> TotalPaid(loans[id]) <= TotalOwed(loans[id])
  }

  /** A successful POST preserves `WithinOwed` over the whole loan table, and
      a rejected one leaves the table as it was. */
  lemma PostPreservesWithinOwed(loans: map<string, Loan>, req: PaymentRequest, now: int, paymentId: string)
    requires WithinOwed(loans)
    ensures var o := Decide(loans, req, now, paymentId);
            o.Created? ==> WithinOwed(loans[req.loanId := RecordPayment(loans[req.loanId], o.payment)])
  {
    var o := Decide(loans, req, now, paymentId);
    if o.Created? {
      KeepsPaidWithinOwed(loans[req.loanId], o.payment);
    }
  }

  // ---------------------------------------------------------------------------
  // GET /api/payments

  /** `where = loanId ? { loanId } : {}`: an absent or empty parameter filters nothing. */
  predicate PaymentMatches(loanIdParam: Option<string>, p: Payment) {
    !Truthy(loanIdParam) || p.loanId == loanIdParam.value
  }

  /** One page of payments; `ordered` is the payment table in the store's
      `paidAt`-descending order. */
  function ListPayments(ordered: seq<Payment>, loanIdParam: Option<string>, page: int, limit: int): Listing<Payment> {
    List(Filter(ordered, p => PaymentMatches(loanIdParam, p)), page, limit)
  }

  /** With a loan id, every listed payment belongs to that loan and `total`
      counts only that loan's payments; without one, every payment is counted. */
  lemma {:induction false} ListedPaymentsMatch(ordered: seq<Payment>, loanIdParam: Option<string>, page: int, limit: int)
    ensures var l := ListPayments(ordered, loanIdParam, page, limit);
            && (l.rows.Some? && Truthy(loanIdParam) ==>
                  forall i :: 0 <= i < |l.rows.value| ==> l.rows.value[i].loanId == loanIdParam.value)
            && (!Truthy(loanIdParam) ==> l.total == |ordered|)
            && l.total <= |ordered|
  {
    var matching := Filter(ordered, p => PaymentMatches(loanIdParam, p));
    var l := ListPayments(ordered, loanIdParam, page, limit);
    if l.rows.Some? && Truthy(loanIdParam) {
      forall i | 0 <= i < |l.rows.value|
        ensures l.rows.value[i].loanId == loanIdParam.value
      {
        assert l.rows.value[i] == matching[Skip(page, limit) + i];
      }
    }
    if !Truthy(loanIdParam) {
      FilterAll(ordered, p => PaymentMatches(loanIdParam, p));
    }
  }
}
