/** The tables behind the evidence-state ledger: the three governed measures, their snapshot columns
    on the two parent tables, the event and evidence tables, and the CHECK constraints over them. */
module EvidenceSchema {
  import opened Sql
  import opened CheckExpressions

  datatype ParentId = Rebate(id: int) | Opportunity(id: int)

  datatype Stage = Identified | Validated | Approved | Implementation | Realised | Rejected | Expired

  /** A row of rebate_period_actuals or of opportunities. */
  datatype ParentRow =
    | RebateRow(org: int, expected: Facts, expectedEvent: Option<int>, spend: Option<int>, earned: Option<int>)
    | OpportunityRow(
        org: int, impact: Facts, impactEvent: Option<int>, savings: Facts, savingsEvent: Option<int>, stage: Stage)

  /** A row of financial_amount_status_events: `before` holds the old_* columns, `after` the new_*. */
  datatype Event = Event(
    org: int, rebateId: Option<int>, opportunityId: Option<int>, measure: Measure, version: int,
    before: Facts, after: Facts, reason: Reason)

  datatype Evidence = Evidence(org: int, eventId: int, kind: EvidenceKind)

  datatype Db = Db(parents: map<ParentId, ParentRow>, events: map<int, Event>, evidence: map<int, Evidence>)

  /** The measures a parent row carries. */
  predicate Governs(p: ParentId, m: Measure) {
    match p
    case Rebate(_) => m == ExpectedAmount
    case Opportunity(_) => m == AnnualFinancialImpact || m == RealisedSavings
  }

  predicate Fits(p: ParentId, row: ParentRow) { p.Rebate? <==> row.RebateRow? }

  function FactsOf(row: ParentRow, m: Measure): Facts {
    match row
    case RebateRow(_, f, _, _, _) => f
    case OpportunityRow(_, f, _, g, _, _) => if m == AnnualFinancialImpact then f else g
  }

  function PointerOf(row: ParentRow, m: Measure): Option<int> {
    match row
    case RebateRow(_, _, e, _, _) => e
    case OpportunityRow(_, _, e, _, g, _) => if m == AnnualFinancialImpact then e else g
  }

  /** The part of an event's new_* columns for which the parent table has a column. */
  function Visible(m: Measure, f: Facts): Facts {
    match m
    case ExpectedAmount => f.(periodStart := None, periodEnd := None)
    case AnnualFinancialImpact => f.(approvedAt := None, approvedBy := None, periodEnd := None)
    case _ => f
  }

  // ---------------------------------------------------------------------------
  // The state-combination CHECK constraints, one row an alternative of the OR.
  // ---------------------------------------------------------------------------

  function StatusIs(s: Status): Check { Is(StatusText, OfStatus(s)) }
  function StatusIn(s: Status, t: Status): Check { OneOf(StatusText, OfStatus(s), OfStatus(t)) }
  function BasisIs(b: Basis): Check { Is(SourceBasis, OfBasis(b)) }
  function BasisIn(b: Basis, c: Basis): Check { OneOf(SourceBasis, OfBasis(b), OfBasis(c)) }
  function MeasureIs(m: Measure): Check { Is(MeasureCode, OfMeasure(m)) }

  /** ck_rpa_expected_amount_state_combination */
  const EXPECTED_ROWS: seq<seq<Check>> := [
    [StatusIn(Unknown, NotApplicable), IsNull(Amount), IsNull(SourceBasis), IsNull(CalculatedAt),
     IsNull(ApprovedAt), IsNull(ApprovedBy)],
    [StatusIs(LegacyUnverified), IsNotNull(Amount), IsNull(SourceBasis), IsNull(CalculatedAt),
     IsNull(ApprovedAt), IsNull(ApprovedBy)],
    [StatusIs(Estimated), IsNotNull(Amount), IsNotNull(SourceBasis), BasisIs(ManualEstimate), IsNull(CalculatedAt),
     IsNull(ApprovedAt), IsNull(ApprovedBy)],
    [StatusIs(Calculated), IsNotNull(Amount), IsNotNull(SourceBasis), BasisIs(ContractTermsCalculation),
     IsNotNull(CalculatedAt), IsNull(ApprovedAt), IsNull(ApprovedBy)],
    [StatusIs(Confirmed), IsNotNull(Amount), IsNotNull(SourceBasis), BasisIn(SupplierStatement, CreditNote),
     IsNull(CalculatedAt), IsNotNull(ApprovedAt), IsNotNull(ApprovedBy)]]

  /** ck_opp_afi_state_combination; effective_from is the start of the period. */
  const IMPACT_ROWS: seq<seq<Check>> := [
    [StatusIn(Unknown, NotApplicable), IsNull(Amount), IsNull(SourceBasis), IsNull(CalculatedAt), IsNull(PeriodStart)],
    [StatusIs(LegacyUnverified), IsNotNull(Amount), IsNull(SourceBasis), IsNull(CalculatedAt), IsNull(PeriodStart)],
    [StatusIs(Estimated), IsNotNull(Amount), IsNotNull(SourceBasis), BasisIs(ManualEstimate), IsNull(CalculatedAt),
     IsNotNull(PeriodStart)],
    [StatusIs(Calculated), IsNotNull(Amount), IsNotNull(SourceBasis), BasisIs(PriceReviewCalculation),
     IsNotNull(CalculatedAt), IsNotNull(PeriodStart)]]

  /** ck_opp_rs_state_combination */
  const SAVINGS_ROWS: seq<seq<Check>> := [
    [StatusIn(Unknown, NotApplicable), IsNull(Amount), IsNull(SourceBasis), IsNull(CalculatedAt),
     IsNull(ApprovedAt), IsNull(ApprovedBy), IsNull(PeriodStart), IsNull(PeriodEnd)],
    [StatusIs(LegacyUnverified), IsNotNull(Amount), IsNull(SourceBasis), IsNull(CalculatedAt),
     IsNull(ApprovedAt), IsNull(ApprovedBy), IsNull(PeriodStart), IsNull(PeriodEnd)],
    [StatusIs(Calculated), IsNotNull(Amount), IsNotNull(SourceBasis), BasisIs(ActualCostDataCalculation),
     IsNotNull(CalculatedAt), IsNull(ApprovedAt), IsNull(ApprovedBy), IsNotNull(PeriodStart), IsNotNull(PeriodEnd),
     AtMost(PeriodStart, PeriodEnd)],
    [StatusIs(Confirmed), IsNotNull(Amount), IsNotNull(SourceBasis), BasisIs(ReconciledActuals), IsNull(CalculatedAt),
     IsNotNull(ApprovedAt), IsNotNull(ApprovedBy), IsNotNull(PeriodStart), IsNotNull(PeriodEnd),
     AtMost(PeriodStart, PeriodEnd)]]

  // ck_famev_state_combination on the event table, in its three groups of alternatives.

  const EVENT_EXPECTED_ROWS: seq<seq<Check>> := [
    [MeasureIs(ExpectedAmount), StatusIn(Unknown, NotApplicable), IsNull(Amount), IsNull(SourceBasis),
     IsNull(CalculatedAt), IsNull(ApprovedAt), IsNull(ApprovedBy)],
    [MeasureIs(ExpectedAmount), StatusIs(LegacyUnverified), IsNotNull(Amount), IsNull(SourceBasis),
     IsNull(CalculatedAt), IsNull(ApprovedAt), IsNull(ApprovedBy)],
    [MeasureIs(ExpectedAmount), StatusIs(Estimated), IsNotNull(Amount), IsNotNull(SourceBasis),
     BasisIs(ManualEstimate), IsNull(CalculatedAt), IsNull(ApprovedAt), IsNull(ApprovedBy)],
    [MeasureIs(ExpectedAmount), StatusIs(Calculated), IsNotNull(Amount), IsNotNull(SourceBasis),
     BasisIs(ContractTermsCalculation), IsNotNull(CalculatedAt), IsNull(ApprovedAt), IsNull(ApprovedBy)],
    [MeasureIs(ExpectedAmount), StatusIs(Confirmed), IsNotNull(Amount), IsNotNull(SourceBasis),
     BasisIn(SupplierStatement, CreditNote), IsNull(CalculatedAt), IsNotNull(ApprovedAt), IsNotNull(ApprovedBy)]]

  const EVENT_IMPACT_ROWS: seq<seq<Check>> := [
    [MeasureIs(AnnualFinancialImpact), StatusIn(Unknown, NotApplicable), IsNull(Amount), IsNull(SourceBasis),
     IsNull(CalculatedAt), IsNull(ApprovedAt), IsNull(ApprovedBy), IsNull(PeriodStart), IsNull(PeriodEnd)],
    [MeasureIs(AnnualFinancialImpact), StatusIs(LegacyUnverified), IsNotNull(Amount), IsNull(SourceBasis),
     IsNull(CalculatedAt), IsNull(ApprovedAt), IsNull(ApprovedBy), IsNull(PeriodStart), IsNull(PeriodEnd)],
    [MeasureIs(AnnualFinancialImpact), StatusIs(Estimated), IsNotNull(Amount), IsNotNull(SourceBasis),
     BasisIs(ManualEstimate), IsNull(CalculatedAt), IsNull(ApprovedAt), IsNull(ApprovedBy), IsNotNull(PeriodStart),
     IsNull(PeriodEnd)],
    [MeasureIs(AnnualFinancialImpact), StatusIs(Calculated), IsNotNull(Amount), IsNotNull(SourceBasis),
     BasisIs(PriceReviewCalculation), IsNotNull(CalculatedAt), IsNull(ApprovedAt), IsNull(ApprovedBy),
     IsNotNull(PeriodStart), IsNull(PeriodEnd)]]

  const EVENT_SAVINGS_ROWS: seq<seq<Check>> := [
    [MeasureIs(RealisedSavings), StatusIn(Unknown, NotApplicable), IsNull(Amount), IsNull(SourceBasis),
     IsNull(CalculatedAt), IsNull(ApprovedAt), IsNull(ApprovedBy), IsNull(PeriodStart), IsNull(PeriodEnd)],
    [MeasureIs(RealisedSavings), StatusIs(LegacyUnverified), IsNotNull(Amount), IsNull(SourceBasis),
     IsNull(CalculatedAt), IsNull(ApprovedAt), IsNull(ApprovedBy), IsNull(PeriodStart), IsNull(PeriodEnd)],
    [MeasureIs(RealisedSavings), StatusIs(Calculated), IsNotNull(Amount), IsNotNull(SourceBasis),
     BasisIs(ActualCostDataCalculation), IsNotNull(CalculatedAt), IsNull(ApprovedAt), IsNull(ApprovedBy),
     IsNotNull(PeriodStart), IsNotNull(PeriodEnd), AtMost(PeriodStart, PeriodEnd)],
    [MeasureIs(RealisedSavings), StatusIs(Confirmed), IsNotNull(Amount), IsNotNull(SourceBasis),
     BasisIs(ReconciledActuals), IsNull(CalculatedAt), IsNotNull(ApprovedAt), IsNotNull(ApprovedBy),
     IsNotNull(PeriodStart), IsNotNull(PeriodEnd), AtMost(PeriodStart, PeriodEnd)]]

  const EVENT_ROWS: seq<seq<Check>> := EVENT_EXPECTED_ROWS + (EVENT_IMPACT_ROWS + EVENT_SAVINGS_ROWS)

  const EVENT_STATES: Check := AnyOf(EVENT_ROWS)

  function SnapshotRows(m: Measure): (rows: seq<seq<Check>>)
    ensures IsTable(rows)
  {
    match m
    case ExpectedAmount => EXPECTED_ROWS
    case AnnualFinancialImpact => IMPACT_ROWS
    case _ => SAVINGS_ROWS
  }

  function RowStates(m: Measure): Check { AnyOf(SnapshotRows(m)) }

  /** The 'estimated' alternative as it would read without its IS NOT NULL guard, in the table. */
  const UNGUARDED_ROWS: seq<seq<Check>> := EXPECTED_ROWS[2 :=
    [StatusIs(Estimated), IsNotNull(Amount), BasisIs(ManualEstimate), IsNull(CalculatedAt),
     IsNull(ApprovedAt), IsNull(ApprovedBy)]]

  // ---------------------------------------------------------------------------
  // What the constraints mean.
  // ---------------------------------------------------------------------------

  predicate Approval(f: Facts, given: bool) {
    if given then f.approvedAt.Some? && f.approvedBy.Some? else f.approvedAt.None? && f.approvedBy.None?
  }

  predicate Period(f: Facts, given: bool) {
    if given then f.periodStart.Some? && f.periodEnd.Some? && f.periodStart.value <= f.periodEnd.value
    else f.periodStart.None? && f.periodEnd.None?
  }

  /** The provenance columns a status demands: which source basis, and whether the figure is dated by
      its calculation. */
  predicate Provenance(m: Measure, f: Facts) {
    match f.status
    case None => false
    case Some(s) =>
      match s
      case Unknown => f.amount.None? && f.basis.None? && f.calculatedAt.None?
      case NotApplicable => f.amount.None? && f.basis.None? && f.calculatedAt.None?
      case LegacyUnverified => f.amount.Some? && f.basis.None? && f.calculatedAt.None?
      case Estimated =>
        m != RealisedSavings && f.amount.Some? && f.basis == Some(ManualEstimate) && f.calculatedAt.None?
      case Calculated => f.amount.Some? && f.basis == Some(CalculationBasis(m)) && f.calculatedAt.Some?
      case Confirmed =>
        m != AnnualFinancialImpact && f.amount.Some? && f.calculatedAt.None?
        && (if m == ExpectedAmount then f.basis == Some(SupplierStatement) || f.basis == Some(CreditNote)
            else f.basis == Some(ReconciledActuals))
      case OtherStatus(_) => false
  }

  function CalculationBasis(m: Measure): Basis {
    match m
    case ExpectedAmount => ContractTermsCalculation
    case AnnualFinancialImpact => PriceReviewCalculation
    case _ => ActualCostDataCalculation
  }

  predicate HasEvidenceOfValue(f: Facts) {
    f.status == Some(Estimated) || f.status == Some(Calculated) || f.status == Some(Confirmed)
  }

  /** The states the snapshot columns of measure m may be in. */
  predicate SnapshotAllowed(m: Measure, f: Facts) {
    && Provenance(m, f)
    && match m
       case ExpectedAmount => Approval(f, f.status == Some(Confirmed))
       case AnnualFinancialImpact => f.periodStart.Some? == HasEvidenceOfValue(f)
       case _ => Approval(f, f.status == Some(Confirmed)) && Period(f, HasEvidenceOfValue(f))
  }

  /** The states the new_* columns of an event for measure m may be in. */
  predicate EventStateAllowed(m: Measure, f: Facts) {
    && !m.OtherMeasure?
    && SnapshotAllowed(m, f)
    && (m == AnnualFinancialImpact ==> f.approvedAt.None? && f.approvedBy.None? && f.periodEnd.None?)
  }

  const ROW_NOT_NULL: set<Column> := {MeasureCode, StatusText}

  lemma ParentRowsAreGuarded()
    ensures forall i :: 0 <= i < |EXPECTED_ROWS| ==> GuardedRow(EXPECTED_ROWS[i], ROW_NOT_NULL)
    ensures forall i :: 0 <= i < |IMPACT_ROWS| ==> GuardedRow(IMPACT_ROWS[i], ROW_NOT_NULL)
    ensures forall i :: 0 <= i < |SAVINGS_ROWS| ==> GuardedRow(SAVINGS_ROWS[i], ROW_NOT_NULL)
  {
  }

  lemma EventRowsAreGuarded()
    ensures forall i :: 0 <= i < |EVENT_EXPECTED_ROWS| ==> GuardedRow(EVENT_EXPECTED_ROWS[i], ROW_NOT_NULL)
    ensures forall i :: 0 <= i < |EVENT_IMPACT_ROWS| ==> GuardedRow(EVENT_IMPACT_ROWS[i], ROW_NOT_NULL)
    ensures forall i :: 0 <= i < |EVENT_SAVINGS_ROWS| ==> GuardedRow(EVENT_SAVINGS_ROWS[i], ROW_NOT_NULL)
  {
  }

  lemma SnapshotTableIsGuarded(m: Measure)
    ensures Guarded(AnyOf(SnapshotRows(m)), ROW_NOT_NULL)
  {
    var rows := SnapshotRows(m);
    assert forall i :: 0 <= i < |rows| ==> GuardedRow(rows[i], ROW_NOT_NULL) by { ParentRowsAreGuarded(); }
    GuardedRowsAreGuarded(rows, ROW_NOT_NULL);
  }

  lemma EventTableIsGuarded()
    ensures IsTable(EVENT_ROWS) && Guarded(AnyOf(EVENT_ROWS), ROW_NOT_NULL)
  {
    var rows := EVENT_ROWS;
    assert forall i :: 0 <= i < |rows| ==> GuardedRow(rows[i], ROW_NOT_NULL) by { EventRowsAreGuarded(); }
    GuardedRowsAreGuarded(rows, ROW_NOT_NULL);
  }

  /** Every comparison in the four constraints is guarded, so none of them is ever NULL. */
  lemma StateChecksAreGuarded(m: Measure)
    ensures Guarded(RowStates(m), ROW_NOT_NULL) && Guarded(EVENT_STATES, ROW_NOT_NULL)
  {
    SnapshotTableIsGuarded(m);
    EventTableIsGuarded();
  }

  // ---------------------------------------------------------------------------
  // The tables, read off row by row.
  // ---------------------------------------------------------------------------

  predicate KnowsNothing(f: Facts) {
    && (f.status == Some(Unknown) || f.status == Some(NotApplicable))
    && f.amount.None? && f.basis.None? && f.calculatedAt.None?
  }

  predicate Unverified(f: Facts) {
    f.status == Some(LegacyUnverified) && f.amount.Some? && f.basis.None? && f.calculatedAt.None?
  }

  predicate Sourced(f: Facts, s: Status, b: Basis, dated: bool) {
    f.status == Some(s) && f.amount.Some? && f.basis == Some(b) && f.calculatedAt.Some? == dated
  }

  predicate ConfirmedRebate(f: Facts) {
    && f.status == Some(Confirmed) && f.amount.Some? && f.calculatedAt.None?
    && (f.basis == Some(SupplierStatement) || f.basis == Some(CreditNote))
  }

  /** A row of five to eleven conditions, written out. */
  lemma RowUnfolds(d: seq<Check>, m: Measure, f: Facts)
    requires 5 <= |d| <= 11
    ensures RowHolds(d, m, f)
         == (&& Holds(d[0], m, f) && Holds(d[1], m, f) && Holds(d[2], m, f) && Holds(d[3], m, f) && Holds(d[4], m, f)
             && (|d| > 5 ==> Holds(d[5], m, f)) && (|d| > 6 ==> Holds(d[6], m, f)) && (|d| > 7 ==> Holds(d[7], m, f))
             && (|d| > 8 ==> Holds(d[8], m, f)) && (|d| > 9 ==> Holds(d[9], m, f)) && (|d| > 10 ==> Holds(d[10], m, f)))
  {
  }

  lemma ExpectedBlankRows(m: Measure, f: Facts)
    ensures RowHolds(EXPECTED_ROWS[0], m, f) == (KnowsNothing(f) && Approval(f, false))
    ensures RowHolds(EXPECTED_ROWS[1], m, f) == (Unverified(f) && Approval(f, false))
  {
    RowUnfolds(EXPECTED_ROWS[0], m, f);
    RowUnfolds(EXPECTED_ROWS[1], m, f);
  }

  lemma ExpectedSourcedRows(m: Measure, f: Facts)
    ensures RowHolds(EXPECTED_ROWS[2], m, f) == (Sourced(f, Estimated, ManualEstimate, false) && Approval(f, false))
    ensures RowHolds(EXPECTED_ROWS[3], m, f)
         == (Sourced(f, Calculated, ContractTermsCalculation, true) && Approval(f, false))
  {
    RowUnfolds(EXPECTED_ROWS[2], m, f);
    RowUnfolds(EXPECTED_ROWS[3], m, f);
  }

  lemma ExpectedConfirmedRow(m: Measure, f: Facts)
    ensures RowHolds(EXPECTED_ROWS[4], m, f) == (ConfirmedRebate(f) && Approval(f, true))
  {
    RowUnfolds(EXPECTED_ROWS[4], m, f);
  }

  lemma ImpactBlankRows(m: Measure, f: Facts)
    ensures RowHolds(IMPACT_ROWS[0], m, f) == (KnowsNothing(f) && f.periodStart.None?)
    ensures RowHolds(IMPACT_ROWS[1], m, f) == (Unverified(f) && f.periodStart.None?)
  {
    RowUnfolds(IMPACT_ROWS[0], m, f);
    RowUnfolds(IMPACT_ROWS[1], m, f);
  }

  lemma ImpactSourcedRows(m: Measure, f: Facts)
    ensures RowHolds(IMPACT_ROWS[2], m, f) == (Sourced(f, Estimated, ManualEstimate, false) && f.periodStart.Some?)
    ensures RowHolds(IMPACT_ROWS[3], m, f)
         == (Sourced(f, Calculated, PriceReviewCalculation, true) && f.periodStart.Some?)
  {
    RowUnfolds(IMPACT_ROWS[2], m, f);
    RowUnfolds(IMPACT_ROWS[3], m, f);
  }

  lemma SavingsUnknownRow(m: Measure, f: Facts)
    ensures RowHolds(SAVINGS_ROWS[0], m, f) == (KnowsNothing(f) && Approval(f, false) && Period(f, false))
  {
    RowUnfolds(SAVINGS_ROWS[0], m, f);
  }

  lemma SavingsLegacyRow(m: Measure, f: Facts)
    ensures RowHolds(SAVINGS_ROWS[1], m, f) == (Unverified(f) && Approval(f, false) && Period(f, false))
  {
    RowUnfolds(SAVINGS_ROWS[1], m, f);
  }

  lemma SavingsCalculatedRow(m: Measure, f: Facts)
    ensures RowHolds(SAVINGS_ROWS[2], m, f)
         == (Sourced(f, Calculated, ActualCostDataCalculation, true) && Approval(f, false) && Period(f, true))
  {
    RowUnfolds(SAVINGS_ROWS[2], m, f);
  }

  lemma SavingsConfirmedRow(m: Measure, f: Facts)
    ensures RowHolds(SAVINGS_ROWS[3], m, f)
         == (Sourced(f, Confirmed, ReconciledActuals, false) && Approval(f, true) && Period(f, true))
  {
    RowUnfolds(SAVINGS_ROWS[3], m, f);
  }

  lemma EventExpectedBlankRows(m: Measure, f: Facts)
    ensures RowHolds(EVENT_EXPECTED_ROWS[0], m, f) == (m == ExpectedAmount && KnowsNothing(f) && Approval(f, false))
    ensures RowHolds(EVENT_EXPECTED_ROWS[1], m, f) == (m == ExpectedAmount && Unverified(f) && Approval(f, false))
  {
    RowUnfolds(EVENT_EXPECTED_ROWS[0], m, f);
    RowUnfolds(EVENT_EXPECTED_ROWS[1], m, f);
  }

  lemma EventExpectedSourcedRows(m: Measure, f: Facts)
    ensures RowHolds(EVENT_EXPECTED_ROWS[2], m, f)
         == (m == ExpectedAmount && Sourced(f, Estimated, ManualEstimate, false) && Approval(f, false))
    ensures RowHolds(EVENT_EXPECTED_ROWS[3], m, f)
         == (m == ExpectedAmount && Sourced(f, Calculated, ContractTermsCalculation, true) && Approval(f, false))
  {
    RowUnfolds(EVENT_EXPECTED_ROWS[2], m, f);
    RowUnfolds(EVENT_EXPECTED_ROWS[3], m, f);
  }

  lemma EventExpectedConfirmedRow(m: Measure, f: Facts)
    ensures RowHolds(EVENT_EXPECTED_ROWS[4], m, f) == (m == ExpectedAmount && ConfirmedRebate(f) && Approval(f, true))
  {
    RowUnfolds(EVENT_EXPECTED_ROWS[4], m, f);
  }

  lemma EventImpactUnknownRow(m: Measure, f: Facts)
    ensures RowHolds(EVENT_IMPACT_ROWS[0], m, f)
         == (&& m == AnnualFinancialImpact && KnowsNothing(f) && f.periodStart.None?
             && Approval(f, false) && f.periodEnd.None?)
  {
    RowUnfolds(EVENT_IMPACT_ROWS[0], m, f);
  }

  lemma EventImpactLegacyRow(m: Measure, f: Facts)
    ensures RowHolds(EVENT_IMPACT_ROWS[1], m, f)
         == (&& m == AnnualFinancialImpact && Unverified(f) && f.periodStart.None?
             && Approval(f, false) && f.periodEnd.None?)
  {
    RowUnfolds(EVENT_IMPACT_ROWS[1], m, f);
  }

  lemma EventImpactEstimatedRow(m: Measure, f: Facts)
    ensures RowHolds(EVENT_IMPACT_ROWS[2], m, f)
         == (&& m == AnnualFinancialImpact && Sourced(f, Estimated, ManualEstimate, false) && f.periodStart.Some?
             && Approval(f, false) && f.periodEnd.None?)
  {
    RowUnfolds(EVENT_IMPACT_ROWS[2], m, f);
  }

  lemma EventImpactCalculatedRow(m: Measure, f: Facts)
    ensures RowHolds(EVENT_IMPACT_ROWS[3], m, f)
         == (&& m == AnnualFinancialImpact && Sourced(f, Calculated, PriceReviewCalculation, true)
             && f.periodStart.Some?
             && Approval(f, false) && f.periodEnd.None?)
  {
    RowUnfolds(EVENT_IMPACT_ROWS[3], m, f);
  }

  lemma EventSavingsUnknownRow(m: Measure, f: Facts)
    ensures RowHolds(EVENT_SAVINGS_ROWS[0], m, f)
         == (m == RealisedSavings && KnowsNothing(f) && Approval(f, false) && Period(f, false))
  {
    RowUnfolds(EVENT_SAVINGS_ROWS[0], m, f);
  }

  lemma EventSavingsLegacyRow(m: Measure, f: Facts)
    ensures RowHolds(EVENT_SAVINGS_ROWS[1], m, f)
         == (m == RealisedSavings && Unverified(f) && Approval(f, false) && Period(f, false))
  {
    RowUnfolds(EVENT_SAVINGS_ROWS[1], m, f);
  }

  lemma EventSavingsCalculatedRow(m: Measure, f: Facts)
    ensures RowHolds(EVENT_SAVINGS_ROWS[2], m, f)
         == (&& m == RealisedSavings && Sourced(f, Calculated, ActualCostDataCalculation, true) && Approval(f, false)
             && Period(f, true))
  {
    RowUnfolds(EVENT_SAVINGS_ROWS[2], m, f);
  }

  lemma EventSavingsConfirmedRow(m: Measure, f: Facts)
    ensures RowHolds(EVENT_SAVINGS_ROWS[3], m, f)
         == (&& m == RealisedSavings && Sourced(f, Confirmed, ReconciledActuals, false) && Approval(f, true)
             && Period(f, true))
  {
    RowUnfolds(EVENT_SAVINGS_ROWS[3], m, f);
  }

  lemma FourRows(rows: seq<seq<Check>>, m: Measure, f: Facts)
    requires |rows| == 4
    ensures (exists d :: d in rows && RowHolds(d, m, f))
         == (|| RowHolds(rows[0], m, f) || RowHolds(rows[1], m, f) || RowHolds(rows[2], m, f)
             || RowHolds(rows[3], m, f))
  {
    assert rows == [rows[0], rows[1], rows[2], rows[3]];
  }

  lemma FiveRows(rows: seq<seq<Check>>, m: Measure, f: Facts)
    requires |rows| == 5
    ensures (exists d :: d in rows && RowHolds(d, m, f))
         == (|| RowHolds(rows[0], m, f) || RowHolds(rows[1], m, f) || RowHolds(rows[2], m, f) || RowHolds(rows[3], m, f)
             || RowHolds(rows[4], m, f))
  {
    assert rows == [rows[0], rows[1], rows[2], rows[3], rows[4]];
  }

  predicate ExpectedState(f: Facts) {
    || (KnowsNothing(f) && Approval(f, false)) || (Unverified(f) && Approval(f, false))
    || (Sourced(f, Estimated, ManualEstimate, false) && Approval(f, false))
    || (Sourced(f, Calculated, ContractTermsCalculation, true) && Approval(f, false))
    || (ConfirmedRebate(f) && Approval(f, true))
  }

  predicate ImpactState(f: Facts) {
    || (KnowsNothing(f) && f.periodStart.None?) || (Unverified(f) && f.periodStart.None?)
    || (Sourced(f, Estimated, ManualEstimate, false) && f.periodStart.Some?)
    || (Sourced(f, Calculated, PriceReviewCalculation, true) && f.periodStart.Some?)
  }

  predicate SavingsState(f: Facts) {
    || (KnowsNothing(f) && Approval(f, false) && Period(f, false))
    || (Unverified(f) && Approval(f, false) && Period(f, false))
    || (Sourced(f, Calculated, ActualCostDataCalculation, true) && Approval(f, false) && Period(f, true))
    || (Sourced(f, Confirmed, ReconciledActuals, false) && Approval(f, true) && Period(f, true))
  }

  lemma StatesMean(f: Facts)
    ensures SnapshotAllowed(ExpectedAmount, f) == ExpectedState(f)
    ensures SnapshotAllowed(AnnualFinancialImpact, f) == ImpactState(f)
    ensures SnapshotAllowed(RealisedSavings, f) == SavingsState(f)
  {
  }

  lemma ExpectedRowsMean(m: Measure, f: Facts)
    ensures (exists d :: d in EXPECTED_ROWS && RowHolds(d, m, f)) == ExpectedState(f)
  {
    FiveRows(EXPECTED_ROWS, m, f);
    ExpectedBlankRows(m, f);
    ExpectedSourcedRows(m, f);
    ExpectedConfirmedRow(m, f);
  }

  lemma ImpactRowsMean(m: Measure, f: Facts)
    ensures (exists d :: d in IMPACT_ROWS && RowHolds(d, m, f)) == ImpactState(f)
  {
    FourRows(IMPACT_ROWS, m, f);
    ImpactBlankRows(m, f);
    ImpactSourcedRows(m, f);
  }

  lemma SavingsRowsMean(m: Measure, f: Facts)
    ensures (exists d :: d in SAVINGS_ROWS && RowHolds(d, m, f)) == SavingsState(f)
  {
    FourRows(SAVINGS_ROWS, m, f);
    SavingsUnknownRow(m, f);
    SavingsLegacyRow(m, f);
    SavingsCalculatedRow(m, f);
    SavingsConfirmedRow(m, f);
  }

  lemma SnapshotRowsMean(m: Measure, f: Facts)
    requires !m.OtherMeasure?
    ensures (exists d :: d in SnapshotRows(m) && RowHolds(d, m, f)) == SnapshotAllowed(m, f)
  {
    StatesMean(f);
    match m
    case ExpectedAmount => ExpectedRowsMean(m, f);
    case AnnualFinancialImpact => ImpactRowsMean(m, f);
    case RealisedSavings => SavingsRowsMean(m, f);
  }

  lemma EventExpectedRowsMean(m: Measure, f: Facts)
    ensures (exists d :: d in EVENT_EXPECTED_ROWS && RowHolds(d, m, f)) == (m == ExpectedAmount && ExpectedState(f))
  {
    FiveRows(EVENT_EXPECTED_ROWS, m, f);
    EventExpectedBlankRows(m, f);
    EventExpectedSourcedRows(m, f);
    EventExpectedConfirmedRow(m, f);
  }

  lemma EventImpactRowsMean(m: Measure, f: Facts)
    ensures (exists d :: d in EVENT_IMPACT_ROWS && RowHolds(d, m, f))
         == (m == AnnualFinancialImpact && ImpactState(f) && Approval(f, false) && f.periodEnd.None?)
  {
    FourRows(EVENT_IMPACT_ROWS, m, f);
    EventImpactUnknownRow(m, f);
    EventImpactLegacyRow(m, f);
    EventImpactEstimatedRow(m, f);
    EventImpactCalculatedRow(m, f);
  }

  lemma EventSavingsRowsMean(m: Measure, f: Facts)
    ensures (exists d :: d in EVENT_SAVINGS_ROWS && RowHolds(d, m, f)) == (m == RealisedSavings && SavingsState(f))
  {
    FourRows(EVENT_SAVINGS_ROWS, m, f);
    EventSavingsUnknownRow(m, f);
    EventSavingsLegacyRow(m, f);
    EventSavingsCalculatedRow(m, f);
    EventSavingsConfirmedRow(m, f);
  }

  lemma SomeRow(a: seq<seq<Check>>, b: seq<seq<Check>>, m: Measure, f: Facts)
    ensures (exists d :: d in a + b && RowHolds(d, m, f))
         == ((exists d :: d in a && RowHolds(d, m, f)) || (exists d :: d in b && RowHolds(d, m, f)))
  {
    if d :| d in a && RowHolds(d, m, f) { assert d in a + b; }
    if d :| d in b && RowHolds(d, m, f) { assert d in a + b; }
  }

  lemma EventRowsMean(m: Measure, f: Facts)
    ensures (exists d :: d in EVENT_ROWS && RowHolds(d, m, f)) == EventStateAllowed(m, f)
  {
    SomeRow(EVENT_EXPECTED_ROWS, EVENT_IMPACT_ROWS + EVENT_SAVINGS_ROWS, m, f);
    SomeRow(EVENT_IMPACT_ROWS, EVENT_SAVINGS_ROWS, m, f);
    EventExpectedRowsMean(m, f);
    EventImpactRowsMean(m, f);
    EventSavingsRowsMean(m, f);
    StatesMean(f);
  }

  lemma TableMeans(rows: seq<seq<Check>>, m: Measure, f: Facts, allowed: bool)
    requires IsTable(rows) && Guarded(AnyOf(rows), ROW_NOT_NULL) && f.status.Some?
    requires (exists d :: d in rows && RowHolds(d, m, f)) == allowed
    ensures Eval(AnyOf(rows), m, f) == Of(allowed)
  {
    AnyOfHolds(rows, m, f);
    GuardedIsTwoValued(AnyOf(rows), ROW_NOT_NULL, m, f);
  }

  /** The parent tables' constraints accept exactly the allowed snapshots, and never answer NULL. */
  lemma SnapshotCheckMeans(m: Measure, f: Facts)
    requires f.status.Some? && !m.OtherMeasure?
    ensures Eval(RowStates(m), m, f) == Of(SnapshotAllowed(m, f))
  {
    var rows := SnapshotRows(m);
    assert Guarded(AnyOf(rows), ROW_NOT_NULL) by { SnapshotTableIsGuarded(m); }
    assert (exists d :: d in rows && RowHolds(d, m, f)) == SnapshotAllowed(m, f) by { SnapshotRowsMean(m, f); }
    TableMeans(rows, m, f, SnapshotAllowed(m, f));
  }

  /** The event table's constraint accepts exactly the allowed states of the event's measure. */
  lemma EventCheckMeans(m: Measure, f: Facts)
    requires f.status.Some?
    ensures Eval(EVENT_STATES, m, f) == Of(EventStateAllowed(m, f))
  {
    var rows := EVENT_ROWS;
    assert IsTable(rows) && Guarded(AnyOf(rows), ROW_NOT_NULL) by { EventTableIsGuarded(); }
    assert (exists d :: d in rows && RowHolds(d, m, f)) == EventStateAllowed(m, f) by { EventRowsMean(m, f); }
    TableMeans(rows, m, f, EventStateAllowed(m, f));
  }

  /** A snapshot copied from an event that passed the event table's constraint passes its own. */
  lemma EventCheckCarriesOver(m: Measure, f: Facts)
    requires f.status.Some? && CheckPasses(Eval(EVENT_STATES, m, f))
    ensures CheckPasses(Eval(RowStates(m), m, Visible(m, f)))
  {
    assert EventStateAllowed(m, f) by { EventCheckMeans(m, f); }
    assert SnapshotAllowed(m, Visible(m, f));
    assert Eval(RowStates(m), m, Visible(m, f)) == True by { SnapshotCheckMeans(m, Visible(m, f)); }
  }

  lemma UnguardedRowPasses(m: Measure, f: Facts)
    requires f.status == Some(Estimated) && f.amount.Some? && f.calculatedAt.None? && Approval(f, false)
    ensures RowPasses(UNGUARDED_ROWS[2], m, f) == (f.basis.None? || f.basis == Some(ManualEstimate))
  {
    var d := UNGUARDED_ROWS[2];
    assert d[2] in d && (CheckPasses(Eval(d[2], m, f)) <==> f.basis.None? || f.basis == Some(ManualEstimate));
  }

  /** An estimate fails every alternative but its own. */
  lemma OtherRowsFail(m: Measure, f: Facts, i: nat)
    requires f.status == Some(Estimated) && i < 5 && i != 2
    ensures !RowPasses(UNGUARDED_ROWS[i], m, f)
  {
    var c := UNGUARDED_ROWS[i][0];
    assert c in UNGUARDED_ROWS[i] && !CheckPasses(Eval(c, m, f));
  }

  lemma OnlyRowDecides(rows: seq<seq<Check>>, k: nat, m: Measure, f: Facts)
    requires IsTable(rows) && k < |rows|
    requires forall i :: 0 <= i < |rows| && i != k ==> !RowPasses(rows[i], m, f)
    ensures CheckPasses(Eval(AnyOf(rows), m, f)) <==> RowPasses(rows[k], m, f)
  {
    AnyOfPasses(rows, m, f);
    assert rows[k] in rows;
  }

  /** Without its guard on one alternative, the whole constraint is NULL, and so satisfied, for estimates with
      no basis. */
  lemma UnguardedEstimateAcceptsMissingBasis(m: Measure, f: Facts)
    requires f.status == Some(Estimated) && f.amount.Some? && f.calculatedAt.None? && Approval(f, false)
    ensures CheckPasses(Eval(AnyOf(UNGUARDED_ROWS), m, f)) <==> f.basis.None? || f.basis == Some(ManualEstimate)
  {
    var rows := UNGUARDED_ROWS;
    forall i | 0 <= i < 5 && i != 2 ensures !RowPasses(rows[i], m, f) { OtherRowsFail(m, f, i); }
    UnguardedRowPasses(m, f);
    OnlyRowDecides(rows, 2, m, f);
  }

  /** With its guard only the proper basis is accepted. */
  lemma GuardedEstimateNeedsItsBasis(m: Measure, f: Facts)
    requires m == ExpectedAmount && f.status == Some(Estimated)
    requires f.amount.Some? && f.calculatedAt.None? && Approval(f, false)
    ensures CheckPasses(Eval(RowStates(m), m, f)) <==> f.basis == Some(ManualEstimate)
  {
    assert SnapshotAllowed(m, f) <==> f.basis == Some(ManualEstimate);
    assert Eval(RowStates(m), m, f) == Of(SnapshotAllowed(m, f)) by { SnapshotCheckMeans(m, f); }
  }

  // ---------------------------------------------------------------------------
  // All the constraints on one row.
  // ---------------------------------------------------------------------------

  predicate StatusInVocabulary(m: Measure, s: Status) {
    match m
    case ExpectedAmount => !s.OtherStatus?
    case AnnualFinancialImpact => !s.OtherStatus? && s != Confirmed
    case RealisedSavings => !s.OtherStatus? && s != Estimated
    case OtherMeasure(_) => false
  }

  predicate BasisInVocabulary(m: Measure, b: Option<Basis>) {
    match b
    case None => true
    case Some(v) =>
      match m
      case ExpectedAmount => v in {ManualEstimate, ContractTermsCalculation, SupplierStatement, CreditNote}
      case AnnualFinancialImpact => v in {ManualEstimate, PriceReviewCalculation}
      case _ => v in {ActualCostDataCalculation, ReconciledActuals}
  }

  /** The constraints of financial_amount_status_events other than the state combination. */
  predicate EventColumnChecks(e: Event) {
    && e.after.status.Some?
    && !e.measure.OtherMeasure?
    && (e.rebateId.Some? <==> e.opportunityId.None?)
    && (e.rebateId.None? || e.measure == ExpectedAmount)
    && (e.opportunityId.None? || e.measure == AnnualFinancialImpact || e.measure == RealisedSavings)
    && e.version > 0
    && (e.version != 1 || e.before == EMPTY)
    && !e.reason.OtherReason?
    && StatusInVocabulary(e.measure, e.after.status.value)
  }

  /** NOT NULL and every CHECK constraint of financial_amount_status_events. */
  predicate EventConstraints(e: Event) {
    EventColumnChecks(e) && CheckPasses(Eval(EVENT_STATES, e.measure, e.after))
  }

  /** What they mean. */
  predicate EventChecks(e: Event) { EventColumnChecks(e) && EventStateAllowed(e.measure, e.after) }

  lemma EventConstraintsMean(e: Event)
    ensures EventConstraints(e) <==> EventChecks(e)
  {
    if EventColumnChecks(e) { EventCheckMeans(e.measure, e.after); }
  }

  /** NOT NULL and every CHECK constraint on one measure's snapshot columns. */
  predicate SnapshotConstraints(m: Measure, f: Facts) {
    && f.status.Some? && StatusInVocabulary(m, f.status.value) && BasisInVocabulary(m, f.basis)
    && CheckPasses(Eval(RowStates(m), m, f))
  }

  /** What they mean, and that the table has no other columns: on an allowed state the vocabularies add nothing. */
  predicate SnapshotChecks(m: Measure, f: Facts) { !m.OtherMeasure? && SnapshotAllowed(m, f) && Visible(m, f) == f }

  lemma AllowedIsInVocabulary(m: Measure, f: Facts)
    requires !m.OtherMeasure? && SnapshotAllowed(m, f)
    ensures f.status.Some? && StatusInVocabulary(m, f.status.value) && BasisInVocabulary(m, f.basis)
  {
  }

  lemma SnapshotConstraintsMean(m: Measure, f: Facts)
    requires Visible(m, f) == f
    ensures SnapshotConstraints(m, f) <==> SnapshotChecks(m, f)
  {
    if !m.OtherMeasure? && SnapshotAllowed(m, f) { AllowedIsInVocabulary(m, f); }
    if f.status.Some? && !m.OtherMeasure? {
      assert Eval(RowStates(m), m, f) == Of(SnapshotAllowed(m, f)) by { SnapshotCheckMeans(m, f); }
    }
  }

  predicate RowChecks(p: ParentId, row: ParentRow) {
    && Fits(p, row)
    && (forall m | m in {ExpectedAmount, AnnualFinancialImpact, RealisedSavings} && Governs(p, m) ::
          SnapshotChecks(m, FactsOf(row, m)))
  }

  /** The event constraints imply every snapshot constraint on the columns the parent shares. */
  lemma EventConstraintsCarryOver(e: Event)
    requires EventConstraints(e)
    ensures SnapshotConstraints(e.measure, Visible(e.measure, e.after))
  {
    EventConstraintsMean(e);
    EventChecksCarryOver(e);
    SnapshotConstraintsMean(e.measure, Visible(e.measure, e.after));
  }

  lemma EventChecksCarryOver(e: Event)
    requires EventChecks(e)
    ensures SnapshotChecks(e.measure, Visible(e.measure, e.after))
  {
  }
}
