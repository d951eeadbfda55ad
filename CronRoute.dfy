/** `GET /api/cron/overdue-notifications`: a secret-guarded sweep over the
    ACTIVE loans past their due date that sends one reminder per loan with a
    reachable borrower and an amount still due, collects per-loan errors,
    and records the run in the audit log. */
module CronRoute {
  import opened Common
  import opened LoanUtils
  import opened Db

  // ---------------------------------------------------------------------------
  // Access check

  /** `verifyCronSecret`: the `authorization` header, the `CRON_SECRET` and
      `NODE_ENV` environment variables, each absent or a string. */
  predicate VerifyCronSecret(authHeader: Option<string>, cronSecret: Option<string>, nodeEnv: Option<string>) {
    if !Truthy(cronSecret) && nodeEnv == Some("development") then true
    else authHeader == Some("Bearer " + (if cronSecret.Some? then cronSecret.value else "undefined"))
  }

  /** With a secret configured, exactly the header `Bearer <secret>` passes. */
  lemma SecretRequiresExactHeader(authHeader: Option<string>, secret: string, nodeEnv: Option<string>)
    requires secret != ""
    ensures VerifyCronSecret(authHeader, Some(secret), nodeEnv) <==> authHeader == Some("Bearer " + secret)
  {
  }

  /** Without a secret, development lets every request in, while any other
      environment accepts only the literal header "Bearer undefined". */
  lemma NoSecretConfigured(authHeader: Option<string>, nodeEnv: Option<string>)
    ensures nodeEnv == Some("development") ==> VerifyCronSecret(authHeader, None, nodeEnv)
    ensures nodeEnv != Some("development") ==>
              (VerifyCronSecret(authHeader, None, nodeEnv) <==> authHeader == Some("Bearer undefined"))
  {
    assert "Bearer " + "undefined" == "Bearer undefined";
  }

  /** A request with no header at all is refused unless in development without a secret. */
  lemma MissingHeaderRefused(cronSecret: Option<string>, nodeEnv: Option<string>)
    ensures VerifyCronSecret(None, cronSecret, nodeEnv) <==> !Truthy(cronSecret) && nodeEnv == Some("development")
  {
  }

  // ---------------------------------------------------------------------------
  // Selection and amount due

  /** The selection: ACTIVE and due strictly before the clock reading. */
  predicate Selected(loan: Loan, now: int) {
    loan.status == Active && loan.dueDate < now
  }

  /** `payments: { orderBy: { paidAt: 'desc' }, take: 1 }`: the most recent
      payment, if any (the first of several with the same `paidAt`). */
  function LatestPayment(ps: seq<Payment>): (r: seq<Payment>)
    ensures |r| <= 1 && (|r| == 1 <==> ps != [])
    ensures |r| == 1 ==> r[0] in ps && forall i :: 0 <= i < |ps| ==> ps[i].paidAt <= r[0].paidAt
  {
    if ps == [] then []
    else
      var rest := LatestPayment(ps[1..]);
      if rest == [] || ps[0].paidAt >= rest[0].paidAt then [ps[0]] else rest
  }

  /** `loan.amount - totalPaid` over the one payment fetched: interest is
      ignored and only the latest payment is subtracted. */
  function AmountDue(loan: Loan): real {
    loan.amount - SumAmounts(LatestPayment(loan.payments))
  }

  /** The amount due is the principal less the latest payment; it differs
      from the balance as soon as there is interest or a second payment. */
  lemma AmountDueIgnoresInterestAndOlderPayments()
    ensures var p1 := Payment("p1", "l1", 50.0, 1, None, None);
            var p2 := Payment("p2", "l1", 100.0, 2, None, None);
            var loan := Loan("l1", "b1", 1000.0, Some(10.0), 0, 5, Active, None, [p1, p2]);
            AmountDue(loan) == 900.0 && Balance(loan) == 950.0
  {
    var p1 := Payment("p1", "l1", 50.0, 1, None, None);
    var p2 := Payment("p2", "l1", 100.0, 2, None, None);
    var ps := [p1, p2];
    assert ps[1..] == [p2];
    assert [p2][1..] == [];
    assert LatestPayment(ps) == [p2];
    assert [p2][..0] == [];
    assert ps[..1] == [p1];
    assert [p1][..0] == [];
    assert SumAmounts([p1]) == 50.0;
    assert SumAmounts(ps) == 150.0;
  }

  /** The evidently intended amount due, the "remaining balance": what the
      loan owes, interest included, less all of its payments. */
  function RemainingDue(loan: Loan): real {
    Balance(loan)
  }

  /** With the remaining balance as the amount due, a selected loan is skipped
      exactly when it counts as fully paid, so every overdue loan gets its
      reminder attempt. */
  lemma RemainingDueSkipsOnlySettledLoans(loan: Loan, now: int)
    requires Selected(loan, now)
    ensures RemainingDue(loan) <= 0.0 <==> IsFullyPaid(loan)
    ensures IsOverdue(loan, now) ==> RemainingDue(loan) > 0.0
  {
  }

  // ---------------------------------------------------------------------------
  // The sweep

  /** An overdue loan with its borrower's e-mail address. */
  datatype OverdueRow = OverdueRow(loan: Loan, email: Option<string>)

  datatype RowOutcome = NoEmail | NothingDue | Sent | SendFailed(error: string)

  /** What the loop body does with one row; `sendThrows` is the error text
      if the reminder call throws, None when it returns. */
  function RowResult(row: OverdueRow, sendThrows: Loan -> Option<string>): RowOutcome {
    if !Truthy(row.email) then NoEmail
    else if AmountDue(row.loan) <= 0.0 then NothingDue
    else match sendThrows(row.loan)
      case None => Sent
      case Some(e) => SendFailed(e)
  }

  /** As written, a loan whose latest payment repaid the principal while its
      interest is still owed counts as having nothing due: the overdue
      borrower gets no reminder and no error is reported. */
  lemma InterestStillOwedGetsNoReminder(email: string, sendThrows: Loan -> Option<string>)
    requires email != ""
    ensures var p := Payment("p1", "l1", 1000.0, 1, None, None);
            var loan := Loan("l1", "b1", 1000.0, Some(10.0), 0, 5, Active, None, [p]);
            && IsOverdue(loan, 10) && Balance(loan) == 100.0
            && RowResult(OverdueRow(loan, Some(email)), sendThrows) == NothingDue
  {
    var p := Payment("p1", "l1", 1000.0, 1, None, None);
    assert [p][1..] == [];
    assert [p][..0] == [];
    assert LatestPayment([p]) == [p];
    assert SumAmounts([p]) == 1000.0;
  }

  function CountSent(rows: seq<OverdueRow>, sendThrows: Loan -> Option<string>): nat {
    if rows == [] then 0
    else CountSent(rows[..|rows| - 1], sendThrows) + (if RowResult(rows[|rows| - 1], sendThrows) == Sent then 1 else 0)
  }

  function CountNothingDue(rows: seq<OverdueRow>, sendThrows: Loan -> Option<string>): nat {
    if rows == [] then 0
    else CountNothingDue(rows[..|rows| - 1], sendThrows)
         + (if RowResult(rows[|rows| - 1], sendThrows) == NothingDue then 1 else 0)
  }

  function ErrorText(row: OverdueRow, sendThrows: Loan -> Option<string>): seq<string> {
    match RowResult(row, sendThrows)
    case NoEmail => ["Loan " + row.loan.id + ": Borrower has no email"]
    case SendFailed(e) => ["Loan " + row.loan.id + ": Failed to send email - " + e]
    case _ => []
  }

  function Errors(rows: seq<OverdueRow>, sendThrows: Loan -> Option<string>): seq<string> {
    if rows == [] then []
    else Errors(rows[..|rows| - 1], sendThrows) + ErrorText(rows[|rows| - 1], sendThrows)
  }

  /** The `for ... of` loop with its `continue` branches. */
  method Sweep(rows: seq<OverdueRow>, sendThrows: Loan -> Option<string>)
    returns (emailsSent: nat, errors: seq<string>)
    ensures emailsSent == CountSent(rows, sendThrows)
    ensures errors == Errors(rows, sendThrows)
    ensures emailsSent + |errors| + CountNothingDue(rows, sendThrows) == |rows|
  {
    emailsSent, errors := 0, [];
    for i := 0 to |rows|
      invariant emailsSent == CountSent(rows[..i], sendThrows)
      invariant errors == Errors(rows[..i], sendThrows)
    {
      assert rows[..i + 1][..i] == rows[..i];
      var row := rows[i];
      if !Truthy(row.email) {
        errors := errors + ["Loan " + row.loan.id + ": Borrower has no email"];
        continue;
      }
      var amountDue := row.loan.amount - SumAmounts(LatestPayment(row.loan.payments));
      if amountDue <= 0.0 {
        continue;
      }
      match sendThrows(row.loan) {
        case None =>
          emailsSent := emailsSent + 1;
        case Some(e) =>
          errors := errors + ["Loan " + row.loan.id + ": Failed to send email - " + e];
      }
    }
    assert rows[..|rows|] == rows;
    EveryRowAccountedFor(rows, sendThrows);
  }

  /** Each row is either sent, reported as an error, or skipped silently. */
  lemma {:induction false} EveryRowAccountedFor(rows: seq<OverdueRow>, sendThrows: Loan -> Option<string>)
    ensures CountSent(rows, sendThrows) + |Errors(rows, sendThrows)| + CountNothingDue(rows, sendThrows) == |rows|
  {
    if rows != [] {
      EveryRowAccountedFor(rows[..|rows| - 1], sendThrows);
    }
  }

  function CountNoEmail(rows: seq<OverdueRow>): nat {
    if rows == [] then 0
    else CountNoEmail(rows[..|rows| - 1]) + (if !Truthy(rows[|rows| - 1].email) then 1 else 0)
  }

  /** The reminder sender catches its own failures and returns, so it never
      throws: then every error is a missing e-mail and every reachable row
      with something due counts as sent, delivered or not. */
  lemma {:induction false} NonThrowingSenderCountsAttempts(rows: seq<OverdueRow>, sendThrows: Loan -> Option<string>)
    requires forall i :: 0 <= i < |rows| ==> sendThrows(rows[i].loan).None?
    ensures |Errors(rows, sendThrows)| == CountNoEmail(rows)
    ensures CountSent(rows, sendThrows) == |rows| - CountNoEmail(rows) - CountNothingDue(rows, sendThrows)
  {
    if rows != [] {
      NonThrowingSenderCountsAttempts(rows[..|rows| - 1], sendThrows);
      EveryRowAccountedFor(rows, sendThrows);
    }
  }

  // ---------------------------------------------------------------------------
  // The handler

  datatype CronResponse =
    | Unauthorized
    | NoOverdueLoans
    | Completed(overdueLoansCount: nat, emailsSent: nat, errors: seq<string>)
  {
    function StatusCode(): int {
      if Unauthorized? then 401 else 200
    }
  }

  function OverdueRows(loanTable: seq<Loan>, borrowers: map<string, Borrower>, now: int): (rows: seq<OverdueRow>)
    requires forall i :: 0 <= i < |loanTable| ==> loanTable[i].borrowerId in borrowers
    ensures |rows| <= |loanTable|
    ensures forall i :: 0 <= i < |rows| ==> Selected(rows[i].loan, now)
    // every selected loan of the table is a row, with its borrower's e-mail
    ensures forall i :: 0 <= i < |loanTable| && Selected(loanTable[i], now) ==>
              OverdueRow(loanTable[i], borrowers[loanTable[i].borrowerId].email) in rows
  {
    if loanTable == [] then []
    else
      var rest := OverdueRows(loanTable[..|loanTable| - 1], borrowers, now);
      var loan := loanTable[|loanTable| - 1];
      if Selected(loan, now) then rest + [OverdueRow(loan, borrowers[loan.borrowerId].email)] else rest
  }

  /** The GET handler. `loanTable` is the store's loan table listed in the
      store's order: each stored loan exactly once, and nothing else (every
      loan's borrower exists, as the foreign key guarantees). */
  method OverdueNotifications(db: Store, loanTable: seq<Loan>, authHeader: Option<string>,
                              cronSecret: Option<string>, nodeEnv: Option<string>, now: int,
                              sendThrows: Loan -> Option<string>)
    returns (response: CronResponse)
    requires forall i :: 0 <= i < |loanTable| ==> loanTable[i].id in db.loans && db.loans[loanTable[i].id] == loanTable[i]
    requires forall id :: id in db.loans ==> db.loans[id] in loanTable
    requires forall i, j :: 0 <= i < j < |loanTable| ==> loanTable[i].id != loanTable[j].id
    requires forall i :: 0 <= i < |loanTable| ==> loanTable[i].borrowerId in db.borrowers
    modifies db
    ensures !VerifyCronSecret(authHeader, cronSecret, nodeEnv) ==> response == Unauthorized
    ensures var rows := OverdueRows(loanTable, old(db.borrowers), now);
            && (VerifyCronSecret(authHeader, cronSecret, nodeEnv) && rows == [] ==> response == NoOverdueLoans)
            && (VerifyCronSecret(authHeader, cronSecret, nodeEnv) && rows != [] ==>
                  response == Completed(|rows|, CountSent(rows, sendThrows), Errors(rows, sendThrows)))
    ensures response.Completed? ==>
              db.audit == old(db.audit) + [CronOverdueNotifications(response.overdueLoansCount, response.emailsSent, response.errors)]
    ensures !response.Completed? ==> db.audit == old(db.audit)
    ensures db.borrowers == old(db.borrowers) && db.loans == old(db.loans) && db.applications == old(db.applications)
    ensures db.users == old(db.users) && db.resetTokens == old(db.resetTokens) && db.profiles == old(db.profiles)
  {
    if !VerifyCronSecret(authHeader, cronSecret, nodeEnv) {
      return Unauthorized;
    }
    var overdueLoans := OverdueRows(loanTable, db.borrowers, now);
    if |overdueLoans| == 0 {
      return NoOverdueLoans;
    }
    var emailsSent, errors := Sweep(overdueLoans, sendThrows);
    db.audit := db.audit + [CronOverdueNotifications(|overdueLoans|, emailsSent, errors)];
    response := Completed(|overdueLoans|, emailsSent, errors);
  }
}
