# LoanManagement rules in Dafny

A verified model of the rules inside the LoanManagement web application.
The application is used by a small lending organisation. Its admins record
borrowers, loans and payments, and review loan applications that borrowers
submit online. The model covers these parts:

- **Loan accounting**: flat interest, total owed, total paid, balance,
  overdue and fully-paid flags, payment progress, portfolio statistics and
  the additive loan risk score.
- **Payment ledger**: the guarded write that appends a payment, flips a
  settled loan to PAID and writes an audit entry.
- **Other write handlers**: loan creation, the loan-application intake, the
  summary report, the overdue-reminder job, password reset (request and
  use), sign-up and the borrower profile table.
- **Route guard**: the admin-route guard and the token/session field
  copying.
- **Mock risk classifiers**: the classifiers used when no model API key is
  set.
- **Admin and borrower pages**: the state machines and decision functions
  of the admin pages (loan-request review, loans, borrowers, users), the
  borrower's three-step application form, the theme toggle and the offline
  cache.

**How the application is represented**
- The database is a `Db.Store` object with one map per table and the audit
  log as a sequence.
- Every route handler is a method over that store. It is proved equal to a
  pure function of the old tables. The properties the application promises
  are lemmas about that function.
- Money and rates are exact `real` numbers.
- Time is an integer number of milliseconds, and the clock reading is a
  parameter `now`.
- These outside dependencies are parameters of the operations that use
  them:
  - password hashing;
  - random tokens and random draws;
  - date parsing;
  - e-mail outcomes;
  - the AI model's reply;
  - identifiers generated by the store.

Modules, one per source file (`Common`, `Db` and `Pagination` are shared):
`Common`, `LoanUtils`, `Db`, `Pagination`, `PaymentsRoute`, `LoansRoute`,
`LoanApplicationsRoute`, `LoanRequestsPage`, `SummaryRoute`, `CronRoute`,
`ForgotPasswordRoute`, `ResetPasswordRoute`, `SignupRoute`, `ProfileRoute`,
`AuthConfig`, `Ai`, `LoansPage`, `BorrowersPage`, `UsersPage`, `ApplyPage`,
`ThemeToggle`, `OfflineSync`.

## Model

| member | source | states |
|---|---|---|
| LoanUtils.CalculateLoanDetails | src/lib/loan-utils.ts:22-45 | principal is the loan amount and a missing rate counts as 0; total owed is principal plus principal·rate/100; total paid is the sum of the loan's payment amounts; balance is owed minus paid; overdue iff past the due date, ACTIVE and a positive balance; fully paid iff balance ≤ 0 or status PAID; progress is paid/owed·100 when something is owed and 0 otherwise, within 0..100 while paid ≤ owed |
| LoanUtils.SumAmountsNonNegative | src/lib/loan-utils.ts:28 | the reduce over positive payment amounts is never negative |
| LoanUtils.SeedLoanPaidOff | prisma/seed.ts:97-169 | 2000 at 3% owes 2060, and payments of 1000 and 1060 leave a zero balance and a fully paid loan |
| LoanUtils.ZeroRateMonthlyPayment | src/lib/loan-utils.ts:51-58 | with a zero rate the monthly payment times the term gives back the principal; a zero term has no payment |
| LoanUtils.FloorDays | src/lib/loan-utils.ts:82 | `Math.floor` of milliseconds over a day is the whole number of days contained |
| LoanUtils.CeilDays | src/lib/loan-utils.ts:73 | `Math.ceil` of milliseconds over a day is the least whole number of days covering it |
| LoanUtils.DaysOverdueIsElapsedDays | src/lib/loan-utils.ts:70-74 | past the due date, the absolute value of days-until-due is the number of whole days elapsed since it |
| LoanUtils.CountStatus | src/lib/loan-utils.ts:160-172 | the per-status counters never exceed the number of loans |
| LoanUtils.GuardedPercent | src/lib/loan-utils.ts:178-186 | a ratio whose denominator is not positive is 0; otherwise ratio·denominator = numerator·100 |
| LoanUtils.CalculatePortfolioStats | src/lib/loan-utils.ts:131-188 | the counting loop yields the loan count, per-status counts, overdue count, principal, repaid, outstanding and overdue sums, the guarded ratios and growth 0 |
| LoanUtils.StatusCountsPartition | src/lib/loan-utils.ts:160-172 | each loan is counted in exactly one of active, paid and defaulted |
| LoanUtils.OverdueAmongActive | src/lib/loan-utils.ts:160-165 | overdue loans are counted only among ACTIVE ones, so overdue ≤ active |
| LoanUtils.OutstandingIsOwedMinusRepaid | src/lib/loan-utils.ts:152-158 | total outstanding equals total owed minus total repaid |
| LoanUtils.OverdueWithinOutstanding | src/lib/loan-utils.ts:163-166 | with no loan overpaid, the overdue balance lies between 0 and the outstanding total |
| LoanUtils.PortfolioAtRiskBounded | src/lib/loan-utils.ts:181-182 | with no loan overpaid, portfolio-at-risk is a percentage in 0..100 |
| LoanUtils.RawRiskScore | src/lib/loan-utils.ts:204-236 | the raw score, the sum of the five factor weights (20, min(2·days, 40), 15, 10, 25), lies in 0..110 |
| LoanUtils.LevelOf | src/lib/loan-utils.ts:240-246 | LOW iff raw ≤ 20, MEDIUM iff 20 < raw ≤ 50, HIGH iff raw > 50 |
| LoanUtils.CountRecentPayments | src/lib/loan-utils.ts:230-232 | the loop counts the payments of the last 90 days, at most all of them |
| LoanUtils.AssessLoanRisk | src/lib/loan-utils.ts:194-255 | the pushed factors are those of the factor list, the level is that of the raw score, and the score is min(raw, 100), within 0..100 |
| LoanUtils.RawScoreCanExceedCap | src/lib/loan-utils.ts:251 | some loan reaches the raw score 110, so the cap at 100 is needed |
| LoanUtils.StaleFactorNeedsPaymentsAndBalance | src/lib/loan-utils.ts:233-236 | the no-recent-payments factor fires only for a loan with payments, not fully paid, with a positive balance |
| LoanUtils.OverdueFactorPresent | src/lib/loan-utils.ts:211-216 | an overdue loan carries the days-overdue factor with the elapsed whole days, and no other days-overdue entry |
| Pagination.Pages | src/app/api/payments/route.ts:53 | `Math.ceil(total / limit)` exists exactly for a non-zero limit |
| Pagination.PagesIsLeastCover | src/app/api/loans/route.ts:81 | for a positive limit, pages is the least page count whose pages hold all rows |
| Pagination.PageRows | src/app/api/payments/route.ts:20-29 | for a non-negative skip and limit, skip/take returns at most `limit` rows, the input rows from position skip on, in order (a negative skip or limit is outside the model) |
| Pagination.RowOnItsPage | src/app/api/loans/route.ts:23-81 | row k appears on page k/limit + 1 at position k mod limit, and that page is among those announced |
| Pagination.PageRowsKeep | src/app/api/loan-applications/route.ts:28-35 | whatever holds of every matching row holds of every row on a page |
| PaymentsRoute.CreatePayment | src/app/api/payments/route.ts:66-154 | the POST's outcome is the decision on the old loan table; success replaces the loan by the one with the payment recorded, appends one PAYMENT_RECEIVED entry and keeps paid ≤ owed; a refusal changes nothing |
| PaymentsRoute.ValidationComesFirst | src/app/api/payments/route.ts:5-11 | a non-positive amount or an empty loan id is a 400 before any lookup |
| PaymentsRoute.DecideOutcomes | src/app/api/payments/route.ts:78-103 | not found iff the loan is absent; already paid iff status PAID; exceeds iff amount > owed − paid; created iff none of these |
| PaymentsRoute.ExactBalanceSettles | src/app/api/payments/route.ts:93-132 | paying exactly the remaining balance is accepted and turns the loan PAID |
| PaymentsRoute.OverpaymentByOneCentRefused | src/app/api/payments/route.ts:98-103 | one cent above the balance is refused |
| PaymentsRoute.RecordPaymentAppendsOne | src/app/api/payments/route.ts:105-109 | the payment list grows by exactly the new row (paidAt defaulting to now), paid grows by the amount, owed and the other loan fields stay |
| PaymentsRoute.PaidIffCovered | src/app/api/payments/route.ts:126-132 | the loan becomes PAID iff the new total covers what is owed, and otherwise keeps its status |
| PaymentsRoute.DefaultedStaysDefaultedOnPartialPayment | src/app/api/payments/route.ts:126-132 | a partial payment leaves a DEFAULTED loan DEFAULTED |
| PaymentsRoute.KeepsPaidWithinOwed | src/app/api/payments/route.ts:98-132 | a payment within the balance never takes total paid above total owed |
| PaymentsRoute.PostPreservesWithinOwed | src/app/api/payments/route.ts:78-132 | a successful POST keeps paid ≤ owed for every loan of the table |
| PaymentsRoute.ListedPaymentsMatch | src/app/api/payments/route.ts:22-45 | with a loan id every listed payment belongs to that loan; without one the total counts all payments |
| LoansRoute.EnrichAgreesWithLoanDetails | src/app/api/loans/route.ts:59-73 | the enriched row keeps the loan and has the figures of calculateLoanDetails; its overdue flag also covers past-due ACTIVE loans with nothing left |
| LoansRoute.SettledLoanFlaggedOverdue | src/app/api/loans/route.ts:71 | a settled ACTIVE past-due loan is overdue for the route but not for calculateLoanDetails |
| LoansRoute.ParseStatus | src/app/api/loans/route.ts:25-27 | a status query selects ACTIVE, PAID or DEFAULTED exactly for those names |
| LoansRoute.EnrichAll | src/app/api/loans/route.ts:59-73 | the map enriches every loan, in order |
| LoansRoute.ListedLoansMatch | src/app/api/loans/route.ts:15-91 | every listed loan passes the status and borrower filters, and its balance is calculateLoanDetails' |
| LoansRoute.CreateLoan | src/app/api/loans/route.ts:93-151 | the POST inserts the loan and one LOAN_CREATED entry (loan id, borrower id, amount) on success, and changes nothing otherwise |
| LoansRoute.UnknownBorrowerIsNotFound | src/app/api/loans/route.ts:98-108 | an unknown borrower gives 404 |
| LoansRoute.NewLoanOwesItsPrincipal | src/app/api/loans/route.ts:110-123 | a created loan is ACTIVE with no payments, owes at least its positive principal, and is not fully paid |
| LoansRoute.CreatePreservesWithinOwed | src/app/api/loans/route.ts:110-123 | creating a loan keeps paid ≤ owed across the loan table |
| LoanApplicationsRoute.SubmitApplication | src/app/api/loan-applications/route.ts:59-123 | 201 with the new row stored and one LOAN_APPLICATION_SUBMITTED entry, or 400 with nothing written, whatever the e-mail's fate |
| LoanApplicationsRoute.NewApplicationIsSubmitted | src/app/api/loan-applications/route.ts:70-83 | a valid application is stored as SUBMITTED with the submitted fields and document list |
| LoanApplicationsRoute.InvalidApplicationRefused | src/app/api/loan-applications/route.ts:7-17 | each schema rule alone (empty field, non-positive number, purpose under 10 characters, bad e-mail) refuses the application |
| LoanApplicationsRoute.TenCharacterPurposeAccepted | src/app/api/loan-applications/route.ts:16 | a purpose of exactly ten characters is accepted |
| LoanApplicationsRoute.ListedApplicationsMatch | src/app/api/loan-applications/route.ts:20-56 | without a status every application is counted; with one, every listed application has that status |
| Db.ParseApplicationStatus | src/app/api/loan-applications/route.ts:28 | a status name that parses names the status it parses to |
| Db.ApplicationStatusNameRoundTrip | src/app/api/loan-applications/route.ts:28 | every status name parses back to its status |
| LoanRequestsPage.RejectOfferedIffPending | src/app/admin/loan-requests/page.tsx:155-170 | reject is offered exactly in SUBMITTED, UNDER_REVIEW and DOCUMENTS_SIGNED, as the second of two actions |
| LoanRequestsPage.NoActionsIffWaitingOrClosed | src/app/admin/loan-requests/page.tsx:155-170 | no action is offered exactly in CONDITIONALLY_APPROVED, DISBURSED and REJECTED |
| LoanRequestsPage.ForwardActionHasOneSource | src/app/admin/loan-requests/page.tsx:155-170 | each forward action is offered in exactly one status |
| LoanRequestsPage.PendingCountSplits | src/app/admin/loan-requests/page.tsx:400-402 | pending and settled applications together are all of them, and the count adds over concatenation |
| LoanRequestsPage.StatusQueryRoundTrip | src/app/admin/loan-requests/page.tsx:88 | ALL sends no status; a status filter sends its name, which parses back to it |
| LoanRequestsPage.ChosenStatusOnlyListed | src/app/admin/loan-requests/page.tsx:88 | choosing a status lists only applications in that status |
| LoanRequestsPage.WithoutIndexRemovesOne | src/app/admin/loan-requests/page.tsx:235 | removing by index deletes exactly that element keeping the order of the rest; an index outside the list changes nothing |
| LoanRequestsPage.WithoutIndexInRange | src/app/admin/loan-requests/page.tsx:235 | the index filter equals the list without that position |
| LoanRequestsPage.SendGuards | src/app/admin/loan-requests/page.tsx:200-384 | nothing is sent while processing; conditional approval needs conditions and a document, reject a reason, disburse an amount |
| LoanRequestsPage.ReviewForms.ResetForms | src/app/admin/loan-requests/page.tsx:125-133 | the forms return to their defaults (two required documents, bank transfer) |
| LoanRequestsPage.ReviewForms.AddDoc | src/app/admin/loan-requests/page.tsx:249-254 | the trimmed text is appended only when non-empty, and the input is cleared |
| LoanRequestsPage.ReviewForms.RemoveDoc | src/app/admin/loan-requests/page.tsx:235 | the document at the index is removed, nothing else changes |
| LoanRequestsPage.ReviewForms.OpenAction | src/app/admin/loan-requests/page.tsx:536-541 | opening an action selects it and resets the forms (pre-filling the amount for disbursement) |
| SummaryRoute.BuildDateFilter | src/app/api/reports/summary/route.ts:12-21 | a lower bound only for a start date, an upper bound only for an end date, both for both, none admits every date |
| SummaryRoute.RiskAnalysis | src/app/api/reports/summary/route.ts:108-129 | the loop's counters are the bucket counts, and they add up to the number of overdue loans |
| SummaryRoute.BucketsCoverOverdue | src/app/api/reports/summary/route.ts:114-129 | only overdue loans fall in a bucket, each in one |
| SummaryRoute.BucketByElapsedTime | src/app/api/reports/summary/route.ts:117-127 | low iff under 31 days past due, high iff at least 91 days |
| SummaryRoute.MonthlyTrends | src/app/api/reports/summary/route.ts:72-105 | 12 entries, oldest month first and ending with the current month, each with the number of loans and the sum of payments (0 when none) whose time lies in the query window from the month's first midnight to midnight at the start of its last day |
| SummaryRoute.LastDayAfternoonInNoMonth | src/app/api/reports/summary/route.ts:76-92 | a payment at noon on a month's last day belongs to that calendar month but to no trend window, so every month's sum leaves it out |
| SummaryRoute.CalendarMonthsPartition | src/app/api/reports/summary/route.ts:75-76 | with windows up to the next month's start, every instant of the covered months lies in exactly one month |
| SummaryRoute.Summary | src/app/api/reports/summary/route.ts:24-129 | the statistics are every figure calculatePortfolioStats gives for the loans in the date window; each risk bucket counts those window loans in it, the three adding up to the overdue count; the trends cover every loan and payment of the store |
| CronRoute.SecretRequiresExactHeader | src/app/api/cron/overdue-notifications/route.ts:6-16 | with a secret, exactly the header `Bearer <secret>` passes |
| CronRoute.NoSecretConfigured | src/app/api/cron/overdue-notifications/route.ts:8-15 | without a secret, development passes everything; elsewhere exactly `Bearer undefined` passes |
| CronRoute.MissingHeaderRefused | src/app/api/cron/overdue-notifications/route.ts:6-16 | without a header only development without a secret passes |
| CronRoute.LatestPayment | src/app/api/cron/overdue-notifications/route.ts:36-39 | the single payment taken is one of the loan's, with the latest paidAt; none only when there are none |
| CronRoute.AmountDueIgnoresInterestAndOlderPayments | src/app/api/cron/overdue-notifications/route.ts:61-62 | the amount due is principal minus the latest payment, not the balance |
| CronRoute.InterestStillOwedGetsNoReminder | src/app/api/cron/overdue-notifications/route.ts:60-66 | a loan whose latest payment repaid the principal while 100 of interest is owed is overdue, yet its row counts as nothing due, so no reminder and no error |
| CronRoute.RemainingDueSkipsOnlySettledLoans | src/app/api/cron/overdue-notifications/route.ts:60-62 | with the remaining balance as the amount due, a selected loan is skipped exactly when it is fully paid, and every overdue loan has something due |
| CronRoute.Sweep | src/app/api/cron/overdue-notifications/route.ts:54-85 | the loop's counter and error list are the row-by-row results; sent + errors + nothing due = rows |
| CronRoute.EveryRowAccountedFor | src/app/api/cron/overdue-notifications/route.ts:54-85 | each overdue loan is sent, an error, or has nothing due |
| CronRoute.NonThrowingSenderCountsAttempts | src/app/api/cron/overdue-notifications/route.ts:68-84 | with a sender that never throws, errors are the rows without e-mail and every other row with something due counts as sent |
| CronRoute.OverdueRows | src/app/api/cron/overdue-notifications/route.ts:27-41 | the rows are exactly the ACTIVE loans of the table due strictly before now: every such loan appears with its borrower's e-mail, and no other loan does |
| CronRoute.OverdueNotifications | src/app/api/cron/overdue-notifications/route.ts:18-112 | over the store's own loan table: 401 without access; no overdue loans writes nothing; otherwise one CRON_OVERDUE_NOTIFICATIONS entry with the sweep's counts; no table but the audit log changes |
| ForgotPasswordRoute.WithoutTokensOf | src/app/api/auth/forgot-password/route.ts:29-31 | exactly the tokens of other e-mails remain, unchanged |
| ForgotPasswordRoute.ForgotPassword | src/app/api/auth/forgot-password/route.ts:12-66 | the handler's response and token table are those of the request on the old tables; users and everything else stay |
| ForgotPasswordRoute.UnknownAccountChangesNothing | src/app/api/auth/forgot-password/route.ts:17-26 | an invalid or unknown e-mail leaves the token table alone (400 or the generic message) |
| ForgotPasswordRoute.KnownAccountGetsOneFreshToken | src/app/api/auth/forgot-password/route.ts:29-44 | a known account ends with exactly one token, expiring at now + 3 600 000 ms, and other accounts' tokens stay |
| ForgotPasswordRoute.ResponseRevealsAccount | src/app/api/auth/forgot-password/route.ts:48-65 | with the missing e-mail function throwing, a known account gets 500 and an unknown one the generic message |
| ForgotPasswordRoute.ResponseHidesAccount | src/app/api/auth/forgot-password/route.ts:22-52 | with a working sender, the response is the same generic message for every valid e-mail |
| ResetPasswordRoute.ResetPassword | src/app/api/auth/reset-password/route.ts:11-82 | the handler's response and tables are those of the reset on the old tables |
| ResetPasswordRoute.RefusalsChangeNothing | src/app/api/auth/reset-password/route.ts:6-26 | a short password or unknown token is a 400 with no change |
| ResetPasswordRoute.ExpiredTokenDeleted | src/app/api/auth/reset-password/route.ts:28-38 | an expired token is deleted, the request refused and the users untouched |
| ResetPasswordRoute.ExpiryInstantAccepted | src/app/api/auth/reset-password/route.ts:29 | a token expiring exactly now is still accepted |
| ResetPasswordRoute.MissingUserKeepsToken | src/app/api/auth/reset-password/route.ts:40-50 | a token whose user is gone gives 404 and stays |
| ResetPasswordRoute.SuccessfulResetIsSingleUse | src/app/api/auth/reset-password/route.ts:52-68 | only the matched user's password changes, to the hash; the token is gone, so a second use is a 400 |
| SignupRoute.SignupUser | src/app/api/auth/signup/route.ts:12-73 | the handler's response and user table are those of the sign-up on the old table |
| SignupRoute.TakenEmailRefused | src/app/api/auth/signup/route.ts:17-27 | an existing e-mail is refused and the user table kept |
| SignupRoute.ShortFieldsRefused | src/app/api/auth/signup/route.ts:6-10 | a name under 2 or a password under 6 characters is refused |
| SignupRoute.NewAccountIsVolunteer | src/app/api/auth/signup/route.ts:29-48 | a new user is a VOLUNTEER with the hashed password, the response has no password, and the e-mail is unique afterwards |
| ProfileRoute.CreateProfile | src/app/api/borrower/profile/route.ts:48-90 | the POST's response and profile table are those of PostProfile on the old table |
| ProfileRoute.UpdateProfile | src/app/api/borrower/profile/route.ts:93-123 | the PUT's response and profile table are those of PutProfile on the old table |
| ProfileRoute.GetRefusals | src/app/api/borrower/profile/route.ts:19-35 | no e-mail gives 400, an unknown e-mail 404 |
| ProfileRoute.DuplicatePostConflicts | src/app/api/borrower/profile/route.ts:54-63 | a second POST for an e-mail is a 409 and the table stays |
| ProfileRoute.PostThenGet | src/app/api/borrower/profile/route.ts:26-73 | GET after a successful POST returns the posted fields, a missing birth date as null |
| ProfileRoute.PutKeepsKeyAndOthers | src/app/api/borrower/profile/route.ts:98-106 | PUT keeps the e-mail key and the other profiles, keeps an absent phone or address, and stores a missing birth date as null |
| ProfileRoute.PutUnknownFails | src/app/api/borrower/profile/route.ts:98-122 | PUT for an unknown e-mail fails and creates nothing |
| AuthConfig.LoginPagesRedirectSignedIn | src/auth.config.ts:14-22 | the login and signup pages send signed-in users to the dashboard and let visitors in |
| AuthConfig.AdminPrefixRequiresSignIn | src/auth.config.ts:13-29 | other /admin paths are allowed iff signed in; all other paths always |
| AuthConfig.PrefixAlsoCoversAdministrator | src/auth.config.ts:13 | `/administrator` is protected too |
| AuthConfig.Jwt | src/auth.config.ts:31-37 | a signed-in user's id and role are copied into the token; otherwise it is unchanged |
| AuthConfig.SessionCallback | src/auth.config.ts:38-44 | when the session has a user, the token's id and role are copied onto it |
| AuthConfig.SignInThenSession | src/auth.config.ts:31-44 | after sign-in the session user carries the user's id and role |
| Ai.Round | src/lib/ai.ts:207 | `Math.round` gives the integer within half of the number |
| Ai.MockRiskScore | src/lib/ai.ts:185-217 | the level follows the ratio; LOW pairs with approve and a score in 20..35, MEDIUM with conditional in 40..60, HIGH with review in 65..90 |
| Ai.MockLevelThresholds | src/lib/ai.ts:186-204 | for a positive income, LOW iff ratio < 0.2, MEDIUM iff 0.2 ≤ ratio < 0.4, HIGH otherwise |
| Ai.MockScoreDeterminesLevel | src/lib/ai.ts:192-207 | the three score ranges do not overlap |
| Ai.Clamp | src/lib/ai.ts:97 | the model's score is clamped into 0..100 and kept when inside |
| Ai.CalculateRiskScore | src/lib/ai.ts:40-107 | a model-provided score is within 0..100 |
| Ai.NoKeyNoModel | src/lib/ai.ts:41-43 | without an API key the mock is returned and the reply never consulted |
| Ai.MockInsightConsistent | src/lib/ai.ts:219-244 | healthy iff low-default-risk trend, healthy implies within limits, needs-attention implies not, the distribution sums to 100 |
| LoansPage.BadgeOfListedLoan | src/app/admin/loans/page.tsx:127-138 | Paid and Defaulted badges name the stored status; an ACTIVE loan shows Overdue iff past due |
| LoansPage.ProgressPercent | src/app/admin/loans/page.tsx:392 | the printed percentage is a number exactly when something is owed |
| LoansPage.ProgressWidth | src/app/admin/loans/page.tsx:387 | the bar width never exceeds 100 |
| LoansPage.WidthIsClampedPercent | src/app/admin/loans/page.tsx:387-392 | the width equals the percentage up to 100, and is 100 while the text shows more |
| LoansPage.PercentIsPaymentProgress | src/app/admin/loans/page.tsx:392 | for a loan that owes something the printed percentage is paymentProgress |
| LoansPage.FormRate | src/app/admin/loans/page.tsx:25 | an empty interest-rate input becomes 0 |
| LoansPage.Prefill | src/app/admin/loans/page.tsx:106-116 | the rate text is never empty ('0' when missing) and each date is the prefix before the first 'T' |
| LoansPage.PrefillKeepsDatePart | src/app/admin/loans/page.tsx:113-114 | a `<date>T<time>` timestamp is cut back to `<date>` |
| LoansPage.StatusQuery | src/app/admin/loans/page.tsx:66-70 | an empty filter sends no status |
| LoansPage.FilterChoiceRoundTrip | src/app/admin/loans/page.tsx:291 | every choice shows as itself; ALL sends no status and so filters nothing |
| LoansPage.OverdueChoiceRefused | src/app/admin/loans/page.tsx:291-300 | the OVERDUE choice is refused by the endpoint; the three stored statuses filter |
| BorrowersPage.Label | src/app/admin/borrowers/page.tsx:491-506 | Active iff some loan is ACTIVE, New iff no loans, Completed iff loans but none ACTIVE |
| BorrowersPage.CompletedMeansNoActiveLoan | src/app/admin/borrowers/page.tsx:491-500 | every loan of a Completed borrower is PAID or DEFAULTED |
| BorrowersPage.HeaderCountsMatchLabels | src/app/admin/borrowers/page.tsx:395-399 | the active and no-loans counts equal the Active and New labels, and the three labels cover all rows |
| BorrowersPage.RangeCountsPageRows | src/app/admin/borrowers/page.tsx:631-636 | on an announced page the range lies in 1..total and counts exactly the rows the page holds |
| BorrowersPage.ButtonsStayInRange | src/app/admin/borrowers/page.tsx:643-652 | Previous and Next never leave the announced pages; both are disabled iff there is one page |
| BorrowersPage.BorrowerFormRules | src/app/admin/borrowers/page.tsx:24-30 | a name is required; the e-mail may be absent or empty, otherwise must be an address |
| UsersPage.FilteredIsSublist | src/app/admin/users/page.tsx:69-75 | the filtered list keeps exactly the matching users, in order |
| UsersPage.EmptyQueryKeepsAll | src/app/admin/users/page.tsx:70-74 | an empty query lists every user |
| UsersPage.MatchIgnoresCase | src/app/admin/users/page.tsx:71-72 | the search ignores the query's case; a user without a name matches only by e-mail |
| UsersPage.RowActionOf | src/app/admin/users/page.tsx:270-294 | a row offers Unban iff the user is banned, Ban otherwise |
| UsersPage.UserManagement.LoadUsers | src/app/admin/users/page.tsx:69-88 | the loaded list replaces the users and the shown list is the search over them |
| UsersPage.UserManagement.SetSearchQuery | src/app/admin/users/page.tsx:69-75 | typing re-filters the same users |
| UsersPage.UserManagement.OpenRowAction | src/app/admin/users/page.tsx:270-294 | the row button selects the user and opens the dialog of the offered action |
| UsersPage.UserManagement.HandleBanUser | src/app/admin/users/page.tsx:113-136 | nothing happens without a selection or with a blank reason; on success the list reloads and the dialog, selection and reason clear |
| UsersPage.UserManagement.HandleUnbanUser | src/app/admin/users/page.tsx:138-155 | needs only a selection; on success the list reloads and the dialog and selection clear |
| ApplyPage.PressAt | src/app/borrower/apply/page.tsx:46-48 | a press advances exactly one step below step 3 and submits at step 3 |
| ApplyPage.PressKeepsStepInRange | src/app/borrower/apply/page.tsx:16-47 | presses keep the step within 1..3 |
| ApplyPage.SendOnlyOnThirdPress | src/app/borrower/apply/page.tsx:46-54 | from step 1, two presses advance and the third submits |
| ApplyPage.ApplyWizard.Request | src/app/borrower/apply/page.tsx:52-68 | the posted body carries the form's fields and the chosen file names |
| ApplyPage.ApplyWizard.ChooseFiles | src/app/borrower/apply/page.tsx:89-93 | any file choice replaces the documents with the names, in order; the typed fields, step and error stay |
| ApplyPage.ApplyWizard.HandleSubmit | src/app/borrower/apply/page.tsx:42-87 | the error is cleared; below step 3 the step advances and nothing else changes; at step 3 the typed form and documents are posted as typed, success redirects and failure shows the message; the typed fields stay |
| ApplyPage.ApplyWizard.Back | src/app/borrower/apply/page.tsx:309-317 | Back retreats one step, only above step 1 and not while submitting; the typed fields, documents and error stay |
| ThemeToggle.CycleTheme | src/components/ui/theme-toggle.tsx:26-38 | the next theme is always light, dark or system |
| ThemeToggle.ThreeClicksCycle | src/components/ui/theme-toggle.tsx:26-38 | three clicks bring each theme back; any other value becomes light |
| ThemeToggle.LabelNamesNextTheme | src/components/ui/theme-toggle.tsx:51-60 | the label names the theme a click moves to |
| ThemeToggle.IconShowsCurrentTheme | src/components/ui/theme-toggle.tsx:40-49 | Sun iff light, Moon iff dark, Monitor otherwise |
| OfflineSync.StorageKeysSeparate | src/hooks/use-offline-sync.ts:175-194 | cache keys of distinct hooks differ, never clash with queued requests, and requests of distinct instants differ |
| OfflineSync.Load | src/hooks/use-offline-sync.ts:193-207 | no entry gives the fallback, not stale; an entry gives its data, stale iff older than one hour |
| OfflineSync.StaleBoundary | src/hooks/use-offline-sync.ts:202-203 | an entry exactly one hour old is fresh, one millisecond older is stale |
| OfflineSync.QueueForSync | src/hooks/use-offline-sync.ts:165-186 | with sync support the request is stored under `pending_request_<now>`; otherwise nothing is |
| OfflineSync.SameInstantOverwrites | src/hooks/use-offline-sync.ts:175 | two requests queued in one millisecond leave only the second |
| OfflineSync.OfflineData.constructor | src/hooks/use-offline-sync.ts:189-207 | mounting shows what Load reads from storage |
| OfflineSync.OfflineData.UpdateCache | src/hooks/use-offline-sync.ts:210-218 | the entry `{data, now}` is stored under this key only and shown as fresh |
| OfflineSync.OfflineData.ClearCache | src/hooks/use-offline-sync.ts:220-224 | this key's entry is removed and the fallback shown as fresh |
| OfflineSync.CacheRoundTrip | src/hooks/use-offline-sync.ts:193-224 | a reload within the hour after an update shows the data fresh, after a clear the fallback, and other keys load as before |
| OfflineSync.UnparseableKeepsFallback | src/hooks/use-offline-sync.ts:204-206 | an unparseable entry leaves the fallback, not stale |
| Common.Filter | src/app/admin/users/page.tsx:70 | `filter` keeps only elements satisfying the predicate, and all of those |
| Common.FilterIsSubsequence | src/app/admin/users/page.tsx:70 | `filter` returns an order-preserving sublist |
| Common.TrimEmptyIffBlank | src/app/admin/users/page.tsx:114 | a trimmed text is empty iff the text is all whitespace |
| Common.NatToStringInjective | src/hooks/use-offline-sync.ts:175 | distinct numbers print differently |

## Left out

- E-mail delivery and templates (`src/lib/email.ts`). The sender's outcome is a parameter: `emailDelivered`, `sendThrows`, or the reminder sender's result.
- OpenAI calls (`src/lib/ai.ts:45-106`, `128-181`). The reply is an `Option` parameter. The AI pass-through routes and `generatePortfolioInsights`' data gathering are not part of this model.
- Ai.MockRiskScore: the factor and summary texts, which use `toFixed` formatting, are not modelled.
- Ai.MockPortfolioInsight: only the decisions are modelled, not the texts.
- Floating point: amounts are exact reals. The `Math.pow` amortisation branch, `generatePaymentSchedule`, `formatCurrency` and `formatPercentage` are not part of this model. NaN and infinities are modelled only where the code makes a decision on them: zero denominators in pagination, the progress bar and the mock ratio.
- Calendar arithmetic: months are absolute month numbers, and the instant each month starts is a parameter. The last day of a month is taken to start one day (86 400 000 ms) before the next month, so daylight-saving shifts are not modelled.
- Password hashing, random token generation and ids generated by the store are parameters. A generated id is required to be fresh.
- Prisma, concurrency and transactions: each handler is one atomic step. Store ordering (`orderBy`) is given as a sequence argument.
- The loan-application PATCH handler (`src/app/api/loan-applications/[id]/route.ts`) is outside the modelled core, so no server-side status transition is modelled. The review page's choice of actions per status is modelled.
- Pass-through routes are not part of this model: `src/app/api/borrowers`, `src/app/api/admin/users`, `src/app/api/reports/monthly`, `src/hooks/use-api.ts`. The same goes for the recent-activity lists of the summary route.
- UI rendering, animations, charts, the command palette, the theme dropdown, the role dialog of the users page, and the service-worker part of `use-offline-sync.ts`.
- `toLowerCase` and `trim` are modelled for ASCII only. `z.string().email()` is modelled by a simplified address predicate, `Common.ValidEmail`.
- `parseInt`/`parseFloat` on malformed text (NaN) are not modelled. Page and limit are integers, and `parseFloat` is a parameter.
- Pagination.PageRows: a negative `limit`, which the store reads as a backwards `take` from the end of the list, and a negative skip are not modelled. The function gives None for them.
- Minimum lengths (`min(10)` on the loan purpose, `min(2)` and `min(6)` at sign-up) count characters, not UTF-16 code units.
- Documents are stored as a list, not as JSON text.
- A payment's `paidAt` text that does not parse is not modelled.
- Casting an unknown status name to a Prisma enum is modelled as a refused query (`None`, a 500 response).
- OfflineSync.Load: a cache text that parses to something other than an entry object is not modelled. The load runs once, at mount.
- ApplyPage.ApplyWizard.HandleSubmit: the `alert` and the browser navigation are reduced to a `redirected` flag.

## Findings

| source | as written | input that shows it | evidently intended | confidence | as-written member | corrected member |
|---|---|---|---|---|---|---|
| src/app/api/auth/forgot-password/route.ts:5, src/app/api/auth/forgot-password/route.ts:48 | `sendPasswordResetEmail` is imported from `src/lib/email.ts`, which exports no such function. The build ignores type errors (`next.config.ts:10-13`), so the call throws after the token is stored. A known account then gets 500 "Something went wrong", while an unknown one gets the generic 200 message. | a valid e-mail of an existing user, compared with a valid e-mail of no user | the same generic message for every valid e-mail, so that the response does not reveal which accounts exist (comment at lines 22-26) | not executed; medium: depends on the bundler leaving the missing import undefined | ForgotPasswordRoute.ResponseRevealsAccount | ForgotPasswordRoute.ResponseHidesAccount |
| src/app/api/reports/summary/route.ts:77 | `monthEnd` is `new Date(year, month + 1, 0)`, which is midnight at the START of the month's last day. Both trend queries use `lte: monthEnd`, so loans issued and payments made later on that day fall in no month. | a payment made at noon on 31 March | each month's entry counts the whole month, up to the next month's first day | not executed; high: `paidAt` defaults to the time of the request (`src/app/api/payments/route.ts:108`) | SummaryRoute.LastDayAfternoonInNoMonth | SummaryRoute.CalendarMonthsPartition |
| src/app/api/cron/overdue-notifications/route.ts:60-62 | The amount due, commented as the remaining balance, is `loan.amount` minus the sum of the payments fetched. That is only the latest payment (`take: 1`, lines 36-39), and the interest is left out. An overdue loan whose latest payment covered the principal counts as having nothing due, so it gets no reminder and no error. | a loan of 1000 at 10% with one payment of 1000, past its due date | the amount due is the loan's balance: what it owes with interest, less all its payments | not executed; high: the query and the subtraction are read directly | CronRoute.InterestStillOwedGetsNoReminder | CronRoute.RemainingDueSkipsOnlySettledLoans |
