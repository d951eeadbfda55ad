/** The admin borrowers page: the Active / Completed / New label of each
    borrower, the two counts in the list header, the "Showing a to b of n"
    range with its Previous / Next buttons, and the borrower form's rules. */
module BorrowersPage {
  import opened Common
  import opened LoanUtils
  import opened Pagination

  /** A listed borrower; `loans` is absent when the row came without them. */
  datatype BorrowerRow = BorrowerRow(name: string, loans: Option<seq<LoanStatus>>)

  datatype BorrowerLabel = ActiveLabel | CompletedLabel | NewLabel

  predicate HasActiveLoan(b: BorrowerRow) {
    b.loans.Some? && exists i | 0 <= i < |b.loans.value| :: b.loans.value[i] == Active
  }

  /** `!b.loans?.length`: no loans, or none listed. */
  predicate HasNoLoans(b: BorrowerRow) {
    b.loans.None? || b.loans.value == []
  }

  /** The label cell: Active when some loan is ACTIVE, Completed when there
      are loans but none ACTIVE, New when there are none. */
  function Label(b: BorrowerRow): (l: BorrowerLabel)
    ensures l == ActiveLabel <==> HasActiveLoan(b)
    ensures l == NewLabel <==> HasNoLoans(b)
    ensures l == CompletedLabel <==> !HasNoLoans(b) && !HasActiveLoan(b)
  {
    if HasActiveLoan(b) then ActiveLabel
    else if b.loans.Some? && |b.loans.value| > 0 then CompletedLabel
    else NewLabel
  }

  /** Every loan of a Completed borrower is PAID or DEFAULTED. */
  lemma CompletedMeansNoActiveLoan(b: BorrowerRow)
    requires Label(b) == CompletedLabel
    ensures forall i :: 0 <= i < |b.loans.value| ==> b.loans.value[i] in {Paid, Defaulted}
  {
    forall i | 0 <= i < |b.loans.value|
      ensures b.loans.value[i] in {Paid, Defaulted}
    {
      if b.loans.value[i] == Active {
        assert HasActiveLoan(b);
      }
    }
  }

  predicate IsActiveRow(b: BorrowerRow) { HasActiveLoan(b) }
  predicate IsNewRow(b: BorrowerRow) { HasNoLoans(b) }
  predicate LabelledActive(b: BorrowerRow) { Label(b) == ActiveLabel }
  predicate LabelledCompleted(b: BorrowerRow) { Label(b) == CompletedLabel }
  predicate LabelledNew(b: BorrowerRow) { Label(b) == NewLabel }

  /** The header's "active" count. */
  function ActiveCount(rows: seq<BorrowerRow>): nat {
    |Filter(rows, IsActiveRow)|
  }

  /** The header's "no loans" count. */
  function NoLoansCount(rows: seq<BorrowerRow>): nat {
    |Filter(rows, IsNewRow)|
  }

  /** The two header counts agree with the labels in the rows below them, and
      the Active, Completed and New rows together are all the rows. */
  lemma {:induction false} HeaderCountsMatchLabels(rows: seq<BorrowerRow>)
    ensures ActiveCount(rows) == |Filter(rows, LabelledActive)|
    ensures NoLoansCount(rows) == |Filter(rows, LabelledNew)|
    ensures |Filter(rows, LabelledActive)| + |Filter(rows, LabelledCompleted)| + |Filter(rows, LabelledNew)| == |rows|
  {
    if rows != [] {
      HeaderCountsMatchLabels(rows[1..]);
    }
  }

  // ---------------------------------------------------------------------------
  // Pagination footer

  /** The footer is shown only when there is more than one page. */
  predicate FooterShown(pages: int) {
    pages > 1
  }

  /** "Showing first to last of total". */
  function FirstShown(page: int, limit: int): int {
    (page - 1) * limit + 1
  }

  function LastShown(page: int, limit: int, total: int): int {
    if page * limit < total then page * limit else total
  }

  predicate PreviousDisabled(page: int) { page == 1 }
  predicate NextDisabled(page: int, pages: int) { page == pages }

  /** On any announced page the range counts exactly the rows that page
      holds, and it lies within 1..total. */
  lemma RangeCountsPageRows<T>(rows: seq<T>, page: int, limit: int)
    requires limit > 0 && 1 <= page <= Pages(|rows|, limit).value
    ensures PageRows(rows, page, limit).Some?
    ensures 1 <= FirstShown(page, limit) <= LastShown(page, limit, |rows|) <= |rows|
    ensures |PageRows(rows, page, limit).value| == LastShown(page, limit, |rows|) - FirstShown(page, limit) + 1
  {
    PagesIsLeastCover(|rows|, limit);
    var p := Pages(|rows|, limit).value;
    MulMonotone(page - 1, p - 1, limit);
    MulMonotone(0, page - 1, limit);
    assert page * limit == (page - 1) * limit + limit;
  }

  /** Within the announced pages the two buttons never move off them:
      Previous is enabled only above page 1 and Next only below the last. */
  lemma ButtonsStayInRange(page: int, pages: int)
    requires 1 <= page <= pages
    ensures !PreviousDisabled(page) ==> 1 <= page - 1
    ensures !NextDisabled(page, pages) ==> page + 1 <= pages
    ensures PreviousDisabled(page) && NextDisabled(page, pages) <==> pages == 1
  {
  }

  // ---------------------------------------------------------------------------
  // Borrower form

  /** `BorrowerSchema`: a name is required; the e-mail may be absent or
      empty, and otherwise must be an address. */
  predicate ValidBorrowerForm(name: string, email: Option<string>) {
    |name| >= 1 && (email.None? || email.value == "" || ValidEmail(email.value))
  }

  /** An empty e-mail is accepted, a malformed one is refused, and an empty
      name is always refused. */
  lemma BorrowerFormRules(name: string, email: string)
    ensures ValidBorrowerForm(name, Some(email)) <==> name != "" && (email == "" || ValidEmail(email))
    ensures !ValidBorrowerForm("", Some(email))
    ensures name != "" ==> ValidBorrowerForm(name, Some("")) && ValidBorrowerForm(name, None)
    ensures '@' !in email ==> !ValidBorrowerForm(name, Some(email)) || email == ""
  {
  }
}
