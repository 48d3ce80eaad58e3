# A verified model of the procurement platform's ledgers, policies and calculations

The platform records money measures whose amounts carry a status (unknown, estimated, calculated, confirmed) and
an append-only log of events that explain it; it serves several organisations from one database behind row-level
security; and it computes investment figures, rebates, price reviews, spend rankings, forecasts and contract alerts.
The Dafny modules here model that behaviour and prove what the platform relies on.

- **Evidence ledger** (`Sql`, `CheckExpressions`, `EvidenceSchema`, `EvidenceTriggers`, `EvidenceTransactions`,
  `EvidenceConcurrency`, `EvidenceServices`, `EvidenceAcceptance`, `EvidenceHistory`, `EvidenceCopies`,
  `EvidenceStatements`, `EvidenceInterleaving`). CHECK constraints are expressions under three-valued logic; deferred
  triggers judge a queue of firings at commit, first on the queued row images (0021), then on the final rows (0024). Any
  number of sessions interleave statements with row locks; the values a session writes, the old ones included, are
  arbitrary, so a writer may be as stale as it likes. The service writers are a class whose methods are tied to functions
  on the tables, and those functions are proved to be accepted, one call after another. A request reads its row before
  the writer locks it, and the lock does not refresh what was read: so a call carries the copy it works from, and it is
  proved, for single calls and for calls interleaved statement by statement, that it is committed exactly when the copy
  still shows what its event will follow.
- **Tenant context** (`TenantContext`). Sessions over pooled connections with transaction-local settings and the
  empty-string residue a setting leaves, and the policies of 0022 and 0023 over them.
- **Numeric cores** (`Rounding`, `CapitalInvestment`, `CostForecast`). Decimals are exact reals; rounding half to even
  (roundTiesToEven, section 4.3.1 of IEEE 754-2008) is written out where the code quantizes.
- **Greedy and aggregating cores** (`Rebates`, `RebateWaterfall`, `SpendAnalytics`, `PriceReview`, `PriceReviewSummary`).
- **String cores** (`Digits`, `Normalization`, `Matching`, `PackParser`, `DecimalDisplay`) on ASCII text.
- **Contract alerts** (`ContractAlerts`). Days are numbered.

Where the code and its own documentation differ the model follows the code, and a lemma shows the difference:

- `find_variant_group` has a group for extra mature products, but a description with the token "mature" or "matured" is
  always put in the mature group first (`ExtraMatureIsTakenForMature`, `ExtraMatureExactly`), and the spelling
  "full-cream" cannot occur in normalised text.
- The route-cost docstring promises that fixed and variable cost always sum to the pool; an odd pool split at an exact tie
  misses it by one unit (`CostsAddUpUnlessTied`, `OneUnitIsLost`).
- A SKU or barcode of nothing but blanks counts as given, so two products that have one are matched as certain
  (`BlankCodesMatch`).
- A recalculation does not write the spend where its copy had it already, so a row can state the rebate for one spend and
  show another (`CopyRecordsRebate`).
- `multiplyDecimalStringByPowerOfTen` promises shifts in either direction; it is right exactly as far as `ShiftIsExact` says.
- `calculate_irr` documents a range starting at -99.99%, and misses a return lying there (`ZeroKeptExactly`,
  `LowEndReturnIsMissed`): its answer is then None or at least 4950%. Its tolerance is a sum of money, so an answer is near
  the return only as far as the first flow exceeds it (`ReturnIsNear`), and flows that together stay below it are answered
  4950.005% whatever their return (`TinyFlowsAnswerTheMiddle`, `DoublingIsMisjudged`).
- Aggregation is described per period; the queries ignore the period's dates, so one invoice switches every open period of
  the supplier, and one transaction every hand-entered one (`PrecedenceIsPerPeriodExactly`, `UnfoundedMoveLosesSpend`).
- `create_opportunity_from_line` writes no event, so no opportunity it creates can be committed
  (`OpportunityFromLineNeverCommits`).
- The supplier summary counts pack changes by a flag and everything else by movement, so its counts add up exactly when
  the two agree (`PackChangesAddUpExactly`).
- The event writers lock their row so that writers queue up; but the object was read before, and is not read again. Of two
  requests that read one period or one opportunity, the second to record a figure is refused at commit
  (`SecondRecalculationIsRefused`, `SecondRealisationIsRefused`), while a close, which writes no event, is accepted with
  whatever amount its copy held (`StaleCloseIsAccepted`).
- A line's change, movement, risk and yearly impact are meant to be those of its prices. They stop being so when a product
  without a comparable price is chosen, or a quantity is entered on a line set aside, exactly as `ChoosingKeepsTruthExactly`
  and `EnteringKeepsTruthExactly` say; a rejected increase can live on in the counts and in the average
  (`RejectedIncreaseLivesOn`).
- Two prices are said to be compared per unit only when the units agree; choosing another product keeps the unit of the one
  turned down (`ChoosingKeepsTheOldUnit`).

`dafny verify dfyconfig.toml` verifies the project.

## Model

| member | source | states |
|---|---|---|
| CheckExpressions.GuardedIsTwoValued | backend/alembic/versions/0021_financial_amount_status_events.py:204-216 | a constraint whose comparisons are all guarded by IS NOT NULL is never NULL on a row that respects NOT NULL, and agrees with its classical reading |
| CheckExpressions.MissingGuardIsFalse | backend/alembic/versions/0021_financial_amount_status_events.py:210-216 | a required column that is missing makes the whole conjunction FALSE, whatever the rest evaluates to |
| EvidenceSchema.StateChecksAreGuarded | backend/alembic/versions/0021_financial_amount_status_events.py:59-123 | every comparison of the three parent constraints and of the thirteen alternatives of the event constraint is guarded in that sense |
| EvidenceSchema.SnapshotCheckMeans | backend/alembic/versions/0021_financial_amount_status_events.py:59-123 | a parent table's constraint evaluates to TRUE on exactly the allowed combinations of status, amount, basis, dates and approval, and to FALSE otherwise |
| EvidenceSchema.EventCheckMeans | backend/alembic/versions/0021_financial_amount_status_events.py:217-276 | the event constraint, written out separately in thirteen alternatives, does the same for every measure |
| EvidenceSchema.EventCheckCarriesOver | backend/alembic/versions/0021_financial_amount_status_events.py:217-276 | the two separately written texts agree: a snapshot copied from an event that passed the event constraint passes the parent's own |
| EvidenceSchema.EventConstraintsMean | backend/alembic/versions/0021_financial_amount_status_events.py:163-276 | all event constraints together hold of exactly the events the rest of the model allows |
| EvidenceSchema.SnapshotConstraintsMean | backend/alembic/versions/0021_financial_amount_status_events.py:673-711 | likewise the constraints on a snapshot |
| EvidenceSchema.EventConstraintsCarryOver | backend/alembic/versions/0021_financial_amount_status_events.py:163-276 | an event that passes all its constraints passes, as a snapshot, all constraints of its parent, vocabularies included |
| EvidenceSchema.UnguardedEstimateAcceptsMissingBasis | backend/alembic/versions/0021_financial_amount_status_events.py:210-216 | with the guard of one alternative removed the whole constraint accepts an estimate exactly with its proper basis or with none |
| EvidenceSchema.GuardedEstimateNeedsItsBasis | backend/alembic/versions/0021_financial_amount_status_events.py:59-76 | with its guard the constraint accepts it only with the proper basis |
| EvidenceTriggers.TablesAgree | backend/app/analytics/management_accounting.py:473-504 | the tier table and the reason codes of the Python side, written out separately, are those of the trigger's CASE |
| EvidenceTriggers.DowngradeRulesAgree | backend/app/analytics/management_accounting.py:473-504 | so the Python downgrade test answers as the chain trigger does for every pair of statuses, and fails exactly outside the vocabulary |
| EvidenceTriggers.LatestExists | backend/alembic/versions/0024_p03_parent_final_state_triggers.py:88-93 | ORDER BY version DESC LIMIT 1 finds an event in every log that has one, with the greatest version |
| EvidenceTriggers.SnapshotTriggerMeans | backend/alembic/versions/0024_p03_parent_final_state_triggers.py:61-97 | with unique versions the three-valued trigger text accepts exactly the rows that point at the latest event of their log and repeat it |
| EvidenceTriggers.OrphanEventSlipsThrough | backend/alembic/versions/0024_p03_parent_final_state_triggers.py:74-78 | without the constraint of exactly one parent, comparisons with NULL would let a row point at an event of no parent |
| EvidenceTransactions.ImagesAcceptedImpliesFinalRowsAccepted | backend/alembic/versions/0024_p03_parent_final_state_triggers.py:38-48 | every statement list the image-based triggers accept, the final-state triggers accept |
| EvidenceTransactions.OldTriggersExactly | backend/alembic/versions/0021_financial_amount_status_events.py:556-668 | without deletes the old triggers accept exactly the transactions the new ones accept in which no row image ever differed from the final row in a governed column |
| EvidenceTransactions.FinalVerdictIgnoresHistory | backend/alembic/versions/0024_p03_parent_final_state_triggers.py:60-170 | the new verdict depends only on the final tables and on which parents were touched |
| EvidenceTransactions.LifecycleVerdicts | backend/alembic/versions/0024_p03_parent_final_state_triggers.py:28-36 | for a new row of either kind and all its measures: inserted while a measure points nowhere, then given events and references in any order, it is always rejected by 0021 and accepted by 0024 exactly when it repeats the first event of each measure |
| EvidenceTransactions.AcceptedRowsAgree | backend/alembic/versions/0024_p03_parent_final_state_triggers.py:79-93 | the columns of an accepted row are determined by the event log |
| EvidenceConcurrency.StepKeepsConsistent | backend/alembic/versions/0021_financial_amount_status_events.py:362-416 | every step of every session, commit and rollback included, keeps the committed ledger and all open sessions in order |
| EvidenceConcurrency.PublishKeepsLedger | backend/alembic/versions/0024_p03_parent_final_state_triggers.py:61-170 | publishing a session whose firings all passed leaves the committed ledger in order |
| EvidenceConcurrency.PublishKeepsOthers | backend/app/services/opportunity_service.py:39-107 | and spoils nothing another open session has written or had judged |
| EvidenceConcurrency.ExecutionsStayConsistent | backend/alembic/versions/0021_financial_amount_status_events.py:277-285 | so every state of every interleaving is in order |
| EvidenceConcurrency.EveryReachableLogIsComplete | backend/app/services/rebate_service.py:57-100 | in every committed state each log has versions 1..n once each, event 1 has no past, each later event starts where its predecessor ended, and the parent row repeats event n, however stale the writers' values |
| EvidenceConcurrency.DisciplineIsNeeded | backend/alembic/versions/0024_p03_parent_final_state_triggers.py:60-170 | a transaction whose triggers all pass leaves the ledger in order if and only if it wrote the parent row of each event it added |
| EvidenceConcurrency.TierFallsOnlyByCorrection | backend/alembic/versions/0021_financial_amount_status_events.py:394-405 | between any two versions of a log the evidence tier does not fall unless some event between gave one of the three correction reasons |
| EvidenceServices.LedgerSession.NextVersion | backend/app/services/opportunity_service.py:46-51 | one more than the greatest version of the log, 1 for an empty one |
| EvidenceServices.LedgerSession.WriteMeasureEvent | backend/app/services/opportunity_service.py:39-107 | the tables and the trigger queue after one event write: event, snapshot, reference |
| EvidenceServices.LedgerSession.RecalculateExpected | backend/app/services/rebate_service.py:138-181 | row and event state exactly the rebate the agreement gives for the spend, as calculated now, or that it is unknown without a spend; fails exactly for an agreement that cannot be evaluated, with nothing written |
| EvidenceServices.LedgerSession.RecordPeriodActual | backend/app/services/rebate_service.py:184-213 | inserts the period with its spend, and row and first event state the rebate for it in the same way, with the same failure |
| EvidenceServices.LedgerSession.CreateOpportunity | backend/app/services/opportunity_service.py:110-174 | refuses an estimate without a date before any statement, and otherwise inserts the row and both first events |
| EvidenceServices.LedgerSession.RecordRealisedSavings | backend/app/services/opportunity_service.py:212-263 | refuses outside implementation, and otherwise writes the confirmed event, three evidence rows and the new stage |
| EvidenceServices.LastVersionIsCounted | backend/app/services/opportunity_service.py:46-51 | the greatest version bounds the log and is 0 exactly for an empty log |
| EvidenceAcceptance.WrittenEvent | backend/app/services/opportunity_service.py:53-91 | the inserted event passes every constraint, extends the log by one, and passes the chain trigger exactly when it is first or no bare downgrade |
| EvidenceAcceptance.WriteKeepsOrder | backend/app/services/opportunity_service.py:90-107 | a write that is no bare downgrade leaves all logs and rows in order |
| EvidenceAcceptance.OrderIsAccepted | backend/alembic/versions/0024_p03_parent_final_state_triggers.py:60-170 | tables in order satisfy every deferred trigger, whatever was queued |
| EvidenceAcceptance.RecalculationAccepted | backend/app/services/rebate_service.py:154-181 | a fresh recalculation commits if and only if the row is not confirmed, or, with no spend, only if it was unknown or not applicable |
| EvidenceAcceptance.NewPeriodAccepted | backend/app/services/rebate_service.py:184-213 | recording a period always commits and keeps the ledger in order |
| EvidenceAcceptance.NewOpportunityAccepted | backend/app/services/opportunity_service.py:120-166 | creating an opportunity always commits once its arguments are accepted |
| EvidenceAcceptance.NewRowsNeverPassedImages | backend/alembic/versions/0024_p03_parent_final_state_triggers.py:28-36 | neither of the two could ever commit under the triggers of 0021 |
| EvidenceAcceptance.OpportunityFromLineNeverCommits | backend/app/services/price_review_service.py:386-415 | an opportunity created from a price review line violates its constraint when the line has a yearly impact, and is refused by the deferred trigger in any case |
| EvidenceAcceptance.RealisationAccepted | backend/app/services/opportunity_service.py:228-255 | recording realised savings always commits, its three evidence rows being sufficient |
| EvidenceAcceptance.UngovernedUpdateKeepsOrder | backend/app/services/opportunity_service.py:177-209 | updates of other columns of a parent keep the ledger in order |
| EvidenceHistory.BackfillStartsTheLedger | backend/alembic/versions/0021_financial_amount_status_events.py:469-527 | from any legacy rows the backfill keeps every amount in the row and in its first event, marks it unverified, or unknown where there is none, says nothing else of it, and leaves the ledger in order |
| EvidenceHistory.CallCommits | backend/app/services/rebate_service.py:154-213 | each service call from a ledger in order is accepted and leaves one in order |
| EvidenceHistory.CallRecords | backend/app/services/opportunity_service.py:110-263 | column by column, a call records what it was given on its own row and in its new events, and touches no other row and no earlier event |
| EvidenceHistory.CallRecordsRebate | backend/app/services/rebate_service.py:121-181 | a recalculated or newly recorded period states the rebate its agreement gives for its spend |
| EvidenceHistory.HistoriesNeverFail | backend/app/services/opportunity_service.py:143-166 | no call of any history of service calls is refused at commit |
| EvidenceHistory.CallsAreHabitual | backend/app/services/opportunity_service.py:90-107 | every service call writes the parent row of each event it adds, the habit the interleaving result rests on |
| EvidenceHistory.LoneEventIsAccepted | backend/alembic/versions/0024_p03_parent_final_state_triggers.py:60-170 | for every parent and measure, a transaction that inserts only the next event is accepted exactly when that event is no bare downgrade and has its evidence, and always leaves the row behind the log |
| EvidenceCopies.WriteFromCopyAcceptedExactly | backend/app/services/rebate_service.py:57-100 | an event written from any copy of the row is accepted at commit if and only if the copy's facts are those of the row and it is no bare downgrade |
| EvidenceCopies.CallFromCopyCommitsExactly | backend/app/services/opportunity_service.py:39-107 | every service call, made from any copy read before the row was locked, commits if and only if the copy still shows what its event will follow, and then keeps the ledger in order |
| EvidenceCopies.CopyRecordsRebate | backend/app/services/rebate_service.py:154-181 | a recalculation from a copy that commits records its amount, and the row states the rebate for the spend it shows if and only if the copy had another spend or the row still has that one |
| EvidenceCopies.NewPeriodFromCopyRecordsRebate | backend/app/services/rebate_service.py:184-213 | a recorded period states its rebate whatever was read before |
| EvidenceCopies.SecondRecalculationIsRefused | backend/app/services/rebate_service.py:138-181 | of two requests that read one period and recalculate it, the first commits and the second commits if and only if the first recorded exactly what was there before |
| EvidenceCopies.SecondRealisationIsRefused | backend/app/services/opportunity_service.py:212-263 | likewise of two requests that record savings of one opportunity |
| EvidenceCopies.StaleCloseIsAccepted | backend/app/services/rebate_service.py:257-291 | a close from any copy is accepted, overwrites what was earned meanwhile, and leaves earned equal to expected if and only if the copy's amount still is the expected one |
| EvidenceCopies.EmptyCloseChangesNothing | backend/app/services/rebate_service.py:273-282 | a close from a copy without an amount leaves all tables as they are |
| EvidenceCopies.StaleStageIsOverwritten | backend/app/services/opportunity_service.py:228-255 | savings are recorded, and the stage set, from a copy in implementation, whatever stage the opportunity has been moved to since |
| EvidenceStatements.CallPlays | backend/app/services/opportunity_service.py:39-107 | on tables in order the statements of a service call whose copy still serves can be issued one after the other, and leave what the call leaves |
| EvidenceInterleaving.MergeKeepsFinished | backend/app/services/opportunity_service.py:39-107 | of two sessions that kept apart the second is still committable as it stands once the first is committed, finished or not |
| EvidenceInterleaving.TrafficStaysInOrder | backend/app/services/rebate_service.py:57-100 | with calls of any sessions, from copies however old, interleaved statement by statement, the committed tables are in order at every point, and so is what every session with current copies will leave |
| EvidenceInterleaving.NoCurrentCallIsRefused | backend/app/services/opportunity_service.py:143-166 | at no point of any such interleaving is a statement, a lock on a free row, a firing or a commit refused that a session asks for whose copies were current when it locked their rows |
| EvidenceInterleaving.CommitsExactlyWhenCurrent | backend/app/services/rebate_service.py:57-100 | the triggers accept a session whose calls are through if and only if each of them worked from a copy that still showed its row, and no other session is ever committed |
| EvidenceInterleaving.TrafficIsAnExecution | backend/alembic/versions/0024_p03_parent_final_state_triggers.py:60-170 | each move of it is a step of the concurrency model or leaves that model where it is |
| TenantContext.StrParsesBack | backend/app/db/session.py:83-85 | the text of an identifier casts back to it exactly within the range of bigint, 2^63 either side, and has a minus exactly for negative ones |
| TenantContext.Connection.EndTransaction | backend/app/db/session.py:67-85 | after a transaction neither setting holds anything, and each reads as absent exactly if it did before: once set, a setting leaves the empty text |
| TenantContext.TenantScopedSession.ApplyTenantContext | backend/app/db/session.py:71-85 | sets the session's organisation, or nothing for a session without one |
| TenantContext.TenantScopedSession.Begin | backend/app/db/session.py:101-114 | every transaction, first or later, begins with the session's organisation in force |
| TenantContext.TenantScopedSession.ChooseUser | backend/app/services/auth_service.py:40-48 | from then on the policy for the user admits exactly that user's memberships, and fails exactly for a number no bigint holds; the organisation stays |
| TenantContext.TenantScopedSession.ChooseOrg | backend/app/services/auth_service.py:51-58 | likewise the policy for the rows of the chosen organisation; the user stays |
| TenantContext.StepKeepsIsolated | backend/app/db/session.py:67-85 | every connect, open, begin, choice, commit, rollback and close keeps open transactions on their own organisation and idle connections blank |
| TenantContext.ExecutionsStayIsolated | backend/app/db/session.py:97-131 | so over all runs of any number of sessions and connections |
| TenantContext.StepKeepsOrganisation | backend/app/db/session.py:97-131 | only opening gives a session its organisation, and no later step of any session alters it |
| TenantContext.SessionAdmitsItsOrganisation | backend/app/db/session.py:71-85 | over every run, after any number of commits and rollbacks, each transaction of a session opened with an organisation admits exactly the rows of that organisation |
| TenantContext.NothingIsChosenYet | backend/app/services/auth_service.py:40-58 | a session opened without one sees nothing when any of its transactions begins, whatever it chose in an earlier one |
| TenantContext.ChoiceIsInForce | backend/app/services/auth_service.py:40-58 | a choice of organisation or user is in force from then on in its transaction |
| TenantContext.GuardedPolicyIsolates | backend/alembic/versions/0023_safe_guc_rls_policy_hardening.py:87-106 | in every reachable transaction the guarded policy never fails and admits exactly the rows of the organisation in force, none by default |
| TenantContext.UnguardedPolicyFails | backend/alembic/versions/0023_safe_guc_rls_policy_hardening.py:100-106 | the unguarded policy fails in exactly the transactions without an organisation on a connection that once carried one |
| TenantContext.CastErrorIsReachable | backend/alembic/versions/0023_safe_guc_rls_policy_hardening.py:27-30 | such a transaction is reachable, shown by a run |
| TenantContext.ResidueIsPermanent | backend/alembic/versions/0022_auth_membership_rls_hardening.py:7-16 | once a connection has carried a setting it never reads as absent again |
| TenantContext.MembershipVisible | backend/alembic/versions/0022_auth_membership_rls_hardening.py:50-72 | in every reachable transaction a membership is readable exactly through the organisation in force or the chosen user, and writable exactly through the organisation; neither policy fails |
| CapitalInvestment.NpvAtRate | backend/app/analytics/capital_investment.py:33-37 | the loop computes the discounted sum |
| CapitalInvestment.OneSignChangeExactly | backend/app/analytics/capital_investment.py:54-60 | the count is one if and only if some year splits the flows into a part without receipts that has an outlay and a part without outlays that has a receipt, or the other way round, zeros anywhere |
| CapitalInvestment.AtMostOneZero | backend/app/analytics/capital_investment.py:54-60 | one sign change leaves at most one rate above -1 with NPV zero |
| CapitalInvestment.ZeroSeparatesSigns | backend/app/analytics/capital_investment.py:63-76 | with one sign change the sign of NPV at a rate says on which side of the zero the rate lies |
| CapitalInvestment.NpvIsBeyond | backend/app/analytics/capital_investment.py:33-37 | of a project with one sign change and its outlay now, NPV at a rate lies on or beyond the outlay times the difference of the discounts, on its side of the return |
| CapitalInvestment.ReturnIsNear | backend/app/analytics/capital_investment.py:88-93 | a rate whose NPV is within the tolerance differs from the return by less than one plus the rate, times the tolerance over the first flow |
| CapitalInvestment.CalculateIrr | backend/app/analytics/capital_investment.py:63-99 | None if and only if the flows do not turn exactly once, NPV has the same sign at both ends, or no midpoint comes within tolerance in time; otherwise the rounded midpoint of the first bracket that does, no further from any return than the tolerance over the first flow allows; with a return at the low end any answer is at least 49.50005 |
| CapitalInvestment.BracketHalves | backend/app/analytics/capital_investment.py:88-98 | each step halves the bracket |
| CapitalInvestment.BracketKeepsZero | backend/app/analytics/capital_investment.py:85-98 | each step keeps the zero bracketed, unless it lies at the low end |
| CapitalInvestment.ZeroKeptExactly | backend/app/analytics/capital_investment.py:85-98 | the zero stays in every bracket if and only if NPV does not vanish at the low end for flows that start with an outlay |
| CapitalInvestment.MidpointIsNear | backend/app/analytics/capital_investment.py:88-98 | the i-th midpoint is within 2^-(i+1) of the starting width of the zero |
| CapitalInvestment.EarlyRefusalIsRight | backend/app/analytics/capital_investment.py:82-84 | equal signs at both ends mean there is no zero in the range |
| CapitalInvestment.LowEndReturnIsMissed | backend/app/analytics/capital_investment.py:63-99 | for all conventional flows whose rate of return is -99.99% every midpoint is at least 49.50005, so the return itself is never approached |
| CapitalInvestment.LowEndReturnUnanswered | backend/app/analytics/capital_investment.py:63-99 | an example that is answered None after any number of iterations |
| CapitalInvestment.TinyFlowsAnswerTheMiddle | backend/app/analytics/capital_investment.py:88-93 | all flows that together come to less than the tolerance are answered with the first midpoint |
| CapitalInvestment.LowEndReturnMisjudged | backend/app/analytics/capital_investment.py:63-99 | an instance with its return at the low end |
| CapitalInvestment.DoublingIsMisjudged | backend/app/analytics/capital_investment.py:63-99 | an instance with a return of 100% |
| CapitalInvestment.DiscountedPayback | backend/app/analytics/capital_investment.py:102-127 | returns the rounded crossing point of the first year whose running total crosses zero, None when there is none, and refuses rates not above zero |
| CapitalInvestment.CrossingIsInterpolated | backend/app/analytics/capital_investment.py:119-126 | the crossing lies within its year, where the interpolated total is zero |
| CapitalInvestment.NoPaybackStaysNegative | backend/app/analytics/capital_investment.py:102-127 | after an outlay, no payback means every running total is negative |
| CapitalInvestment.CrossedStaysUp | backend/app/analytics/capital_investment.py:102-127 | conventional flows never fall back below zero after the crossing |
| CapitalInvestment.PaybackMeetsNpvMeetsIrr | backend/app/analytics/capital_investment.py:33-51 | for a conventional project: it pays back exactly when NPV is not negative, exactly when the rate does not exceed the rate of return |
| Rounding.RoundedIsQuantized | backend/app/analytics/rebate_calculations.py:46-50 | a whole number of units within half a unit, the even one of two equally near, is what quantizing gives, so the rounded results below are fixed by such statements |
| Rebates.RebateIgnoresBandOrder | backend/app/analytics/rebate_calculations.py:75-82 | the expected rebate does not depend on the order of the bands |
| Rebates.GoverningBandPays | backend/app/analytics/rebate_calculations.py:75-82 | the rebate is the spend times the rate of the highest band reached, rounded, and zero below every band |
| Rebates.RebateIsWhatIsPaid | backend/app/analytics/rebate_calculations.py:59-89 | for every kind of agreement a rebate exists exactly when the agreement is complete, and is the flat rate of the spend, the fixed amount, or the governing band's rate of the spend, zero below every band, rounded half to even to four decimals |
| Rebates.OneAmountIsDue | backend/app/analytics/rebate_calculations.py:59-89 | and with different thresholds that amount is the only one due |
| Rebates.ProgressMeans | backend/app/analytics/rebate_calculations.py:92-108 | the next threshold is the least one not yet reached, none exactly when all are, and the remaining amount is the rounded way to it |
| Rebates.RebateGrowsWithSpend | backend/app/analytics/rebate_calculations.py:59-89 | with rates that reward spend the rounded rebate never falls as spend rises, from net credits too when no band with a negative threshold pays |
| Rebates.RebateGrowsWithSpendExactly | backend/app/analytics/rebate_calculations.py:59-89 | of all amounts that holds if and only if no such band does |
| Rebates.BandLastsUntilNextThreshold | backend/app/analytics/rebate_calculations.py:92-108 | one band governs from the present spend up to, but not at, the threshold reported as next |
| RebateWaterfall.SupplierRebates.Aggregate | backend/app/analytics/rebate_calculations.py:182-198 | the rounded spend and the volume of the purchases inside the period |
| RebateWaterfall.SupplierRebates.RecalculateAffectedPeriods | backend/app/services/rebate_aggregation_service.py:31-88 | refreshes exactly the open periods that overlap the dates, or none of them when one fails |
| RebateWaterfall.AffectedExactly | backend/app/services/rebate_aggregation_service.py:31-60 | a period is affected exactly when nothing is earned yet and one of its days is among the dates of the purchases |
| RebateWaterfall.SupplierRebates.ClosePeriod | backend/app/services/rebate_service.py:257-291 | copies the expected amount to the earned one on or after the last day, once |
| RebateWaterfall.RunsAreForward | backend/app/services/rebate_aggregation_service.py:7-10 | over any run of purchases, recalculations and closes a period never goes from invoices back to transactions or from either to hand-entered figures, and an earned amount is final and equal to the expected one |
| RebateWaterfall.RecalculationTakesTheBest | backend/app/services/rebate_aggregation_service.py:31-88 | in any run, after any re-aggregation that succeeds, each affected period holds the best source with purchases, the rounded sum of its purchases inside the period and the rebate for it, and every other period is as before |
| RebateWaterfall.RecalculatingAgainChangesNothing | backend/app/services/rebate_aggregation_service.py:62-86 | recalculating again without new purchases changes no figure |
| RebateWaterfall.PrecedenceIsPerPeriodExactly | backend/app/services/rebate_aggregation_service.py:62-126 | the source chosen per supplier equals one chosen per period if and only if the period is on invoices already, or has an invoice inside it, or there is no invoice at all and the period is past hand-entered figures, or has a transaction inside it, or there is no transaction either |
| RebateWaterfall.UnfoundedMoveLosesSpend | backend/app/services/rebate_aggregation_service.py:62-86 | whenever they differ the period is left with no spend and no volume |
| RebateWaterfall.InvoiceElsewhereHidesTransactions | backend/app/services/rebate_aggregation_service.py:91-112 | so one invoice outside a period replaces its transaction spend by zero |
| RebateWaterfall.TransactionElsewhereReplacesManual | backend/app/services/rebate_aggregation_service.py:115-126 | and, without invoices, one transaction outside it the spend entered by hand |
| SpendAnalytics.AggregateSpend | backend/app/analytics/spend_analytics.py:29-40 | the dictionary loop and the sort give the ranked items of the rows' keys |
| SpendAnalytics.AggregateMeans | backend/app/analytics/spend_analytics.py:29-40 | every key's rounded total once, largest first, equal amounts in order of first appearance |
| SpendAnalytics.KeysAreDistinct | backend/app/analytics/spend_analytics.py:34-38 | exactly the keys of the rows, each once |
| SpendAnalytics.AggregateConserves | backend/app/analytics/spend_analytics.py:34-40 | the table adds up to the rows within half a unit a key |
| SpendAnalytics.ParetoContributors | backend/app/analytics/spend_analytics.py:96-112 | the shortest non-empty prefix whose share reaches the target, and its percentage |
| SpendAnalytics.ParetoIsMinimal | backend/app/analytics/spend_analytics.py:96-99 | on ranked items with a positive total no choice of fewer items, however chosen, reaches the target |
| SpendAnalytics.ContributorsReachTarget | backend/app/analytics/spend_analytics.py:104-110 | the contributors do reach every target up to the whole |
| SpendAnalytics.NegativeTotalMinimalExactly | backend/app/analytics/spend_analytics.py:96-110 | with a negative total the prefix is the smallest choice if and only if no fewer items from the other end of the ranking reach the target |
| SpendAnalytics.NegativeTotalIsNotMinimal | backend/app/analytics/spend_analytics.py:100-110 | it can fail: one item does what the prefix needs two for |
| SpendAnalytics.AbcClassification | backend/app/analytics/spend_analytics.py:56-85 | each item's rounded cumulative percentage and its band |
| SpendAnalytics.BandsAreContiguous | backend/app/analytics/spend_analytics.py:60-85 | on any ranked list, with credits and any total, no item is in an earlier band than one listed before it, the A band ending between 0 and the whole and the B band below the whole |
| SpendAnalytics.BandsAreContiguousExactly | backend/app/analytics/spend_analytics.py:60-85 | this holds of every ranked list if and only if the B band ends below the whole |
| SpendAnalytics.ContributorsAreClassA | backend/app/analytics/spend_analytics.py:77-80 | for any total but zero every contributor but the last is in class A when target and band agree, rounding included |
| Normalization.NormalizingIsIdempotent | backend/app/matching/normalize.py:60-69 | normalising a normal form changes nothing, and the normal forms are exactly the texts made of lower-case, seamless, non-stopword tokens |
| Normalization.TokensAreTokens | backend/app/matching/normalize.py:64-68 | whatever the text, only such tokens remain |
| Normalization.SplitUndoesJoin | backend/app/matching/normalize.py:68-69 | splitting on the blank undoes joining with it |
| Normalization.NormalFormsMeanTokens | backend/app/matching/exact_matcher.py:21-24 | two descriptions have one normal form exactly when they have the same tokens |
| Normalization.WordsSpell | backend/app/matching/normalize.py:59-70 | the words of a description put end to end are its word characters, lower-cased, in order |
| Normalization.BreaksAreKept | backend/app/matching/normalize.py:20-26 | between two word characters that follow each other there is a break exactly where something stood between them or a digit meets a letter |
| Normalization.TokensAreTheWords | backend/app/matching/normalize.py:59-70 | the tokens are those words, but for the stopwords |
| Normalization.StopwordsAreDropped | backend/app/matching/normalize.py:69 | stopwords are left out one by one, wherever they stand, and nothing else is |
| Normalization.NormalFormsMeanWords | backend/app/matching/normalize.py:59-70 | two descriptions have one normal form if and only if they have the same words in the same order, stopwords aside, and are then spelled alike outside the stopwords |
| Normalization.CaseDoesNotMatter | backend/app/matching/normalize.py:64 | descriptions that differ in the case of their letters alone have one normal form |
| Normalization.NoTokensExactly | backend/app/matching/normalize.py:64-68 | a description has no tokens if and only if every part between blanks is empty or a stopword |
| Normalization.PunctuationHasNoTokens | backend/app/matching/normalize.py:65-68 | a description without a word character has none |
| Normalization.ExtraMatureExactly | backend/app/matching/normalize.py:41-58 | a text is put in the extra mature group if and only if its normal form contains those words and none of the tokens mature, matured, mild and medium |
| Normalization.ExtraMatureIsTakenForMature | backend/app/matching/normalize.py:41-58 | so a text with the token mature or matured is always in the first group, never in that one |
| Normalization.LongerWordIsExtraMature | backend/app/matching/normalize.py:41-58 | what does get the group is extra followed by a longer word that begins like mature |
| Normalization.HyphenatedVariantIsNeverFound | backend/app/matching/normalize.py:50-65 | the hyphenated spelling of full cream is never found in a normal form |
| Matching.OverlapMeans | backend/app/matching/fuzzy_matcher.py:25-36 | the overlap is symmetric, between 0 and 1, and 1 exactly for equal non-empty sets of identity tokens |
| Matching.CombinedScoreMeans | backend/app/matching/fuzzy_matcher.py:18-45 | the score of two descriptions is four tenths the similarity of their normal forms and six tenths the share of identity words they have in common, rounded |
| Matching.ScoreMeans | backend/app/matching/scorer.py:75-87 | a pair scores 1 with a common code, 0.98 with the same words in the same order, and otherwise what its descriptions score, at most 0.55 for competing variants |
| Matching.ConflictMeans | backend/app/matching/scorer.py:70-73 | descriptions conflict exactly when both show a variant and the first groups they show are not the same |
| Matching.StatusMeans | backend/app/matching/scorer.py:90-95 | matched from 0.95, recommended from 0.80 |
| Matching.CombinedScoreRange | backend/app/matching/fuzzy_matcher.py:39-45 | the rounded blend stays between 0 and 1 |
| Matching.ConflictStaysManual | backend/app/matching/scorer.py:70-87 | conflicting variants never match by description, and without SKU or barcode score at most 0.55 and stay with a person |
| Matching.MatureAndExtraMatureDoNotConflict | backend/app/matching/scorer.py:70-73 | mature, matured and extra mature products are not told apart |
| Matching.NothingToCompareIsAutoMatched | backend/app/matching/exact_matcher.py:21-24 | a description without tokens matches exactly the other descriptions without tokens, and is matched with them without review |
| Matching.PunctuationIsAutoMatched | backend/app/matching/exact_matcher.py:21-24 | two descriptions of punctuation alone are an instance |
| Matching.FindBestMatch | backend/app/matching/scorer.py:98-111 | the loop returns the first of the best scoring items, or no candidate |
| Matching.BestOf | backend/app/matching/scorer.py:103-106 | the chosen score is the greatest, and greater than every one before it |
| Matching.NoCandidateMeans | backend/app/matching/scorer.py:108-109 | no candidate exactly when every score is under the floor |
| Matching.SharedCodeIsCertain | backend/app/matching/scorer.py:76-80 | an equal SKU or barcode anywhere in the list gives full confidence |
| Matching.ConfidentMatchIsNoConflict | backend/app/matching/scorer.py:90-111 | an automatic or recommended match is a best row and no competing variant unless SKU or barcode agree |
| PackParser.SingleIsTheRegex | backend/app/matching/pack_parser.py:44-46 | the scanner finds a size and unit exactly where the expression matches |
| PackParser.MultiPackIsTheRegex | backend/app/matching/pack_parser.py:38-42 | likewise for quantity, x, size and unit |
| PackParser.CaseIsTheRegex | backend/app/matching/pack_parser.py:51 | likewise for case counts |
| PackParser.PatternsAgree | backend/app/matching/pack_parser.py:68-98 | two patterns that match one text give one base quantity and unit |
| PackParser.TrialOrderDoesNotMatter | backend/app/matching/pack_parser.py:75-98 | in any order of trial the base quantity and unit are the same |
| PackParser.RenderingsParseBack | backend/app/matching/pack_parser.py:68-112 | every rendering of a multi-pack, a single size, a count or a case, in any letter case and spacing, parses to its own quantity, size and unit, and to nothing exactly when the unit is unknown |
| PackParser.ParsesExactly | backend/app/matching/pack_parser.py:38-112 | a text parses if and only if it is such a rendering in a known unit |
| PackParser.BuildConverts | backend/app/matching/pack_parser.py:17-36 | masses come in kilograms, volumes in litres and counts as they are, small units as thousandths, and nothing else is known |
| PackParser.NumeralDenotes | backend/app/matching/pack_parser.py:77-78 | a numeral denotes its whole digits and its places in decimal notation |
| PackParser.ThousandSmallAreOneLarge | backend/app/matching/pack_parser.py:17-36 | a thousand of the small unit is one of the large one |
| PackParser.PricePerBaseUnit | backend/app/matching/pack_parser.py:115-118 | the unit price times the base quantity is the price, refused exactly for no quantity |
| PackParser.WholeNumeral | backend/app/matching/pack_parser.py:77-78 | a whole number written out denotes itself |
| PriceReview.RunMatching | backend/app/services/price_review_service.py:132-208 | the two loops give the lines of the old rows followed by the new products |
| PriceReview.LinePerOldRow | backend/app/services/price_review_service.py:156-191 | the i-th line is that of the i-th old row, discontinued exactly without a candidate, and otherwise holding the row of the matched SKU |
| PriceReview.RowForIsLast | backend/app/services/price_review_service.py:152 | the row taken for a SKU is the last one that lists it |
| PriceReview.SkusInOrder | backend/app/services/price_review_service.py:193 | new products come in the order in which their SKUs first appear |
| PriceReview.LineOfMatch | backend/app/services/price_review_service.py:156-208 | the rest of the line: method, rounded confidence, whether the pack texts differ, and no figure yet |
| PriceReview.SameRowIsMatched | backend/app/services/price_review_service.py:132-208 | a new row with the same SKU, barcode or words, wherever it is listed, makes the line matched without review |
| PriceReview.CodesMatchExactly | backend/app/matching/exact_matcher.py:9-18 | codes match exactly when what they say between blanks is the same, SKUs in any letter case |
| PriceReview.BlankCodesMatch | backend/app/matching/exact_matcher.py:9-18 | a code not given, or empty, matches nothing; any two codes of nothing but blanks match |
| PriceReview.SideMeans | backend/app/services/price_review_service.py:121-129 | a price is missing exactly for a blank cell or the number zero; it is normalised exactly when the pack can be read and does not come to nothing, and then makes up the price with the base quantity |
| PriceReview.EveryNewSkuOnce | backend/app/services/price_review_service.py:193-204 | every new SKU is the target of a match or has exactly one new-product line, never both, even when listed twice; that line holds the last row of the SKU, nothing to compare it with and no figure |
| PriceReviewSummary.Review.CalculateLineMovement | backend/app/services/price_review_service.py:211-262 | the line after recalculation, with its movement, changes, risk class, impact and margins, all others untouched; nothing stored for a selling price of zero that is used |
| PriceReviewSummary.MovementAgreesWithPrices | backend/app/analytics/price_review_calculations.py:80-108 | right after a recalculation whose prices compare, a movement is up only for a higher price, down only for a lower one, none only within half a millionth; prices per different units are never compared |
| PriceReviewSummary.ComparedExactly | backend/app/analytics/price_review_calculations.py:80-108 | which two prices are compared, and when none are |
| PriceReviewSummary.ChangeMeans | backend/app/analytics/price_review_calculations.py:39-50 | the difference to four decimals, its part of the old price to six, none for an old price of zero, and the movement that goes with it |
| PriceReviewSummary.GrossMarginMeans | backend/app/analytics/price_review_calculations.py:111-117 | the margin is what is left of the selling price over the cost as a part of it, to six decimals |
| PriceReviewSummary.RiskMeans | backend/app/analytics/price_review_calculations.py:141-160 | the classes are bounded by 0.02, 0.05 and 0.10 either way |
| PriceReviewSummary.MarginsFollowPrices | backend/app/services/price_review_service.py:252-262 | the margin movement is the price change per unit of selling price with its sign turned, to within a millionth, and never has the wrong sign |
| PriceReviewSummary.RiskGrowsWithChange | backend/app/analytics/price_review_calculations.py:141-160 | a larger change, up or down, is never in a lower risk class, and an unchanged price is at low risk |
| PriceReviewSummary.ZeroSellingPriceComesBack | backend/app/services/price_review_service.py:252-322 | a selling price of zero is refused exactly while the line is matched and its prices compare; stored on another line, it makes confirming that line fail exactly when its prices compare |
| PriceReviewSummary.Review.ResolveMatch | backend/app/services/price_review_service.py:265-301 | the line after each decision, and nothing changed by a refused one |
| PriceReviewSummary.Review.SetManualQuantity | backend/app/services/price_review_service.py:304-322 | the line with its quantity and any selling price given, recalculated, or nothing stored when that fails |
| PriceReviewSummary.Review.GetSummary | backend/app/services/price_review_service.py:418-437 | all figures of the summary; every line is counted once as matched, unmatched, new or discontinued |
| PriceReviewSummary.PackChangesAddUpExactly | backend/app/analytics/price_review_summary.py:65-88 | the matched lines are the increases, decreases, unchanged prices and pack changes if and only if every line flagged as having another pack moves by it; otherwise a line is counted twice |
| PriceReviewSummary.FreshPackChangesAddUpExactly | backend/app/analytics/price_review_summary.py:65-88 | in a review just matched that is exactly when no pack changed |
| PriceReviewSummary.ChoosingKeepsTruthExactly | backend/app/services/price_review_service.py:272-293 | choosing another product keeps change, percentage, risk, movement, yearly impact and margins those of the line's present prices if and only if the new prices compare, or no impact, no margin and, unless the units differ, no change was shown |
| PriceReviewSummary.EnteringKeepsTruthExactly | backend/app/services/price_review_service.py:304-322 | entering a quantity or selling price does so if and only if the line is matched or the figures shown come to the same |
| PriceReviewSummary.RunStaysTruthfulExactly | backend/app/services/price_review_service.py:265-322 | over any run of edits all figures are true at every point if and only if every edit was safe in these senses |
| PriceReviewSummary.FreshLinesAreTruthful | backend/app/services/price_review_service.py:156-208 | the lines of a fresh review are |
| PriceReviewSummary.RejectedIncreaseLivesOn | backend/app/services/price_review_service.py:211-293 | an increase for a product turned down in favour of one without a price stays counted and weighing after a run of two edits |
| PriceReviewSummary.Review.WeightedAverageIncrease | backend/app/analytics/price_review_summary.py:42-59 | the loop computes the rounded weighted mean, None for zero weight |
| PriceReviewSummary.AverageIsBetween | backend/app/analytics/price_review_summary.py:42-59 | there is an average exactly when some line weighs, and it lies between the least and greatest change of those lines |
| PriceReviewSummary.WeighsExactly | backend/app/analytics/price_review_summary.py:42-59 | what weighs are exactly the lines counted as matched that have a change and a quantity |
| PriceReviewSummary.LotsWeighAlike | backend/app/analytics/price_review_summary.py:42-59 | quantities are the weights: a line split into two lots leaves the average as it is |
| PriceReviewSummary.AverageOfTwo | backend/app/analytics/price_review_summary.py:42-59 | the average of two lines is the rounded mean of their changes weighted by their quantities |
| PriceReviewSummary.RunKeepsOk | backend/app/services/price_review_service.py:265-322 | over any run of edits quantities stay positive, percentages keep six decimals and the risk class that goes with them, and only flagged lines move by their pack |
| PriceReviewSummary.FreshLinesAreOk | backend/app/services/price_review_service.py:156-208 | the lines of a fresh review start that way |
| PriceReviewSummary.QuantitiesKeepTheCounts | backend/app/services/price_review_service.py:211-250 | recalculating never moves a line into or out of the new or discontinued products |
| PriceReviewSummary.ChoosingKeepsTheOldUnit | backend/app/services/price_review_service.py:272-282 | after choosing another product the unit of the rejected one decides whether prices are compared per unit |
| PriceReviewSummary.ConfirmedWithoutPartner | backend/app/services/price_review_service.py:269-293 | a confirmed line without partner stays counted as discontinued exactly when its old price was not normalised |
| PriceReviewSummary.IgnoredLinesStillCount | backend/app/services/price_review_service.py:289-293 | ignoring a line changes neither the average nor the yearly cost |
| PriceReviewSummary.MarkedLinesStillCost | backend/app/services/price_review_service.py:283-288 | marking a line new or discontinued leaves the average of the other lines and the yearly cost with it |
| DecimalDisplay.ShiftIsExact | frontend/src/lib/decimal-display.ts:44-64 | the shifted string denotes value times the power of ten if and only if the exponent is at least minus the whole digits, or the value is zero |
| DecimalDisplay.ResultIsTidy | frontend/src/lib/decimal-display.ts:62-63 | the result is a decimal with no needless leading zero and no negative zero |
| DecimalDisplay.PercentTruncates | frontend/src/lib/decimal-display.ts:72-79 | a percentage is the value times one hundred cut toward zero by less than one unit of its last place |
| DecimalDisplay.NegativeZeroPercent | frontend/src/lib/decimal-display.ts:72-79 | a minus before nothing but zeros is shown exactly for negative values under one unit |
| DecimalDisplay.ErasingUndoesInserting | frontend/src/lib/decimal-display.ts:25-31 | erasing the separators gives the value back |
| DecimalDisplay.SeparatorsGroupByThree | frontend/src/lib/decimal-display.ts:29 | the look-ahead rule makes groups of three after the first |
| DecimalDisplay.InsertingMeans | frontend/src/lib/decimal-display.ts:25-31 | a shown amount is its sign, its whole digits in groups of three, and the point and places as they were |
| CostForecast.CostsAddUpUnlessTied | backend/app/analytics/logistics_engine.py:75-85 | for a pool of whole units the rounded parts sum to it if and only if the split is no tie or the pool is even, and are never more than one unit off |
| CostForecast.CostsAreShares | backend/app/analytics/logistics_engine.py:75-85 | each cost is its distance's share of the pool to within half a unit |
| CostForecast.RefusedExactly | backend/app/analytics/logistics_engine.py:62-73 | a trip is refused exactly for a leg that is not positive, a negative distance between drops, or no cost |
| CostForecast.OneUnitIsLost | backend/app/analytics/logistics_engine.py:37-39 | the smallest pool for which they do not |
| CostForecast.BuildForecast | backend/app/analytics/cash_forecast.py:80-120 | refuses other than 13 resolved weeks naming the first gap, and otherwise gives each week's cash and the least week in overdraft |
| CostForecast.ForecastDrift | backend/app/analytics/cash_forecast.py:71-74 | after n weeks rounding has moved the cash by at most n half-units |
| CostForecast.ForecastAddsUp | backend/app/analytics/cash_forecast.py:71-74 | after n weeks the cash is the opening cash and all receipts less all payments and all costs, to within n half-units |
| CostForecast.ForecastIsMonotone | backend/app/analytics/cash_forecast.py:99-118 | no less in receipts and no more in payments or costs, week by week, ends no week with less |
| CostForecast.FourDecimalsDoNotDrift | backend/app/analytics/cash_forecast.py:105-118 | with four-decimal inputs nothing drifts |
| ContractAlerts.Contract.DetermineDueAlerts | backend/app/analytics/contract_calculations.py:102-124 | the loop lists the alerts due |
| ContractAlerts.Contract.RunAlertCheck | backend/app/services/contract_service.py:128-161 | stores the alerts due today, and nothing for a negative notice period |
| ContractAlerts.Contract.RefreshStatus | backend/app/services/contract_service.py:73-87 | stores the status of the day |
| ContractAlerts.DueMeans | backend/app/analytics/contract_calculations.py:102-124 | exactly the alerts the day calls for that have not fired, each once |
| ContractAlerts.ChecksAreFaithful | backend/app/services/contract_service.py:128-161 | after checks on any days each alert is stored at most once, exactly when some day called for it, with the first such day |
| ContractAlerts.AlertsDependOnTheLatestDay | backend/app/analytics/contract_calculations.py:105-111 | as days go by the stored expiry alerts depend only on the latest check, and the notice alert on a check on the deadline itself |
| ContractAlerts.AlertChecksAreFaithful | backend/app/services/contract_service.py:128-161 | so for the thresholds and the notice deadline the check works by, on whatever days it runs |
| ContractAlerts.AlertChecksStore | backend/app/services/contract_service.py:128-161 | run as days go by, it has stored the alert for each of 180, 90, 60 and 30 days exactly when no more were left at the last check, and the notice alert exactly when it ran on the deadline |
| ContractAlerts.StatusMeans | backend/app/analytics/contract_calculations.py:85-99 | which status each day has, with or without automatic renewal |
| ContractAlerts.StatusOnlyAdvances | backend/app/analytics/contract_calculations.py:85-99 | with unchanged terms the status never goes back: expired stays expired, an open notice period or a renewal ends only in expiry, expiring soon is never active again |

## Left out

- HTTP routes, schemas, authentication tokens, file reading, object storage, exports, AI features and all user interface code.
- Timestamps, audit rows and user ids beyond values compared for equality; calendar arithmetic (`_add_months`, escalated prices).
- The 28-digit working precision of Decimal, overflow and rounding of NUMERIC columns, and the rounding of binary floating point in match scores.
- Text beyond ASCII in normalisation, matching and pack strings; `difflib`, kept as any function into 0..1.
- AtMostOneZero: does not say that a zero exists, since an intermediate-value argument over reals is outside the model.
- ParetoIsMinimal: stated for a positive total; `NegativeTotalMinimalExactly` has the condition for a negative one, and for a zero total the code returns no contributors.
- ExecutionsStayConsistent: sessions that add an event also write its parent row, as every service does; `DisciplineIsNeeded` shows the ledger is out of order otherwise.
- HistoriesNeverFail: covers recalculations with spend set; one without spend can be refused, as `RecalculationAccepted` says exactly.
- NoCurrentCallIsRefused: covers the same calls; a call waits until its row is free, deadlocks between sessions with several calls are not modelled, and a call whose request fails before its first statement is not one of the moves.
- ReturnIsNear: says nothing for a first flow of zero, and no more than the code guarantees for one below the tolerance.
- Deleting parents appears in the single-transaction comparison of the triggers only, since no service deletes them; foreign-key row locks and the unique constraint on rebate periods are not modelled.
- The stage rules of `advance_waterfall_stage` are not modelled, a run may move an opportunity to any stage.
- Purchases are only ever added in `RebateWaterfall`; corrections that supersede a purchase are not modelled.
- `record_receipt` and rebate leakage; a period's life ends with its close.
- Negotiation figures and buyer decisions of a price review line; month-over-month trends and price consistency.
- The dictionaries of `run_matching` are given by their first-appearance order and last value, and SKUs are text, never missing.
