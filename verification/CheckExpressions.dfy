/** CHECK constraints over the nullable columns of one measure: an expression language, its
    three-valued evaluation, and the theorem that an expression whose comparisons are all guarded by
    IS NOT NULL is never NULL. */
module CheckExpressions {
  import opened Sql

  // Text columns with a controlled vocabulary; the Other cases are the strings outside it.
  datatype Measure = ExpectedAmount | AnnualFinancialImpact | RealisedSavings | OtherMeasure(text: string)
  datatype Status =
    | Unknown | NotApplicable | LegacyUnverified | Estimated | Calculated | Confirmed | OtherStatus(text: string)
  datatype Basis =
    | ManualEstimate | ContractTermsCalculation | SupplierStatement | CreditNote
    | PriceReviewCalculation | ActualCostDataCalculation | ReconciledActuals | OtherBasis(text: string)
  datatype Reason =
    | InitialBackfill | ManualEntry | Recalculation | EvidenceReceived
    | Correction | EvidenceWithdrawn | SourceDataRestated | OtherReason(text: string)
  datatype EvidenceKind =
    | Invoice | CreditNoteDocument | SupplierStatementDocument | GlPosting | DocumentedBaseline
    | ActualCostSource | VarianceCalculationReference | SupportingDocument

  /** The nullable columns that describe one measure. Amounts count ten-thousandths (Numeric(18,4));
      instants, dates and users are opaque numbers. */
  datatype Facts = Facts(
    amount: Option<int>, status: Option<Status>, basis: Option<Basis>, calculatedAt: Option<int>,
    approvedAt: Option<int>, approvedBy: Option<int>, periodStart: Option<int>, periodEnd: Option<int>)

  const EMPTY := Facts(None, None, None, None, None, None, None, None)

  datatype Column =
    | MeasureCode | Amount | StatusText | SourceBasis | CalculatedAt | ApprovedAt | ApprovedBy | PeriodStart | PeriodEnd
  datatype Value = Number(n: int) | OfMeasure(m: Measure) | OfStatus(s: Status) | OfBasis(b: Basis)

  function OfNumber(o: Option<int>): Option<Value> { if o.None? then None else Some(Number(o.value)) }

  /** The value a row stores in a column, None for NULL. */
  function Cell(m: Measure, f: Facts, c: Column): Option<Value> {
    match c
    case MeasureCode => Some(OfMeasure(m))
    case Amount => OfNumber(f.amount)
    case StatusText => if f.status.None? then None else Some(OfStatus(f.status.value))
    case SourceBasis => if f.basis.None? then None else Some(OfBasis(f.basis.value))
    case CalculatedAt => OfNumber(f.calculatedAt)
    case ApprovedAt => OfNumber(f.approvedAt)
    case ApprovedBy => OfNumber(f.approvedBy)
    case PeriodStart => OfNumber(f.periodStart)
    case PeriodEnd => OfNumber(f.periodEnd)
  }

  datatype Check =
    | IsNull(col: Column)
    | IsNotNull(col: Column)
    | Is(col: Column, v: Value)                // col = v
    | OneOf(col: Column, v: Value, w: Value)   // col IN (v, w)
    | AtMost(lo: Column, hi: Column)           // lo <= hi
    | Both(l: Check, r: Check)
    | Either(l: Check, r: Check)

  function NoLater(a: Option<Value>, b: Option<Value>): Truth {
    if a.None? || b.None? then Null else Of(a.value.Number? && b.value.Number? && a.value.n <= b.value.n)
  }

  function Eval(e: Check, m: Measure, f: Facts): Truth {
    match e
    case IsNull(c) => Of(Cell(m, f, c).None?)
    case IsNotNull(c) => Of(Cell(m, f, c).Some?)
    case Is(c, v) => Equal(Cell(m, f, c), Some(v))
    case OneOf(c, v, w) => Or(Equal(Cell(m, f, c), Some(v)), Equal(Cell(m, f, c), Some(w)))
    case AtMost(lo, hi) => NoLater(Cell(m, f, lo), Cell(m, f, hi))
    case Both(l, r) => And(Eval(l, m, f), Eval(r, m, f))
    case Either(l, r) => Or(Eval(l, m, f), Eval(r, m, f))
  }

  /** The classical reading, in which a comparison with a missing value simply fails. */
  predicate Holds(e: Check, m: Measure, f: Facts) {
    match e
    case IsNull(c) => Cell(m, f, c).None?
    case IsNotNull(c) => Cell(m, f, c).Some?
    case Is(c, v) => Cell(m, f, c) == Some(v)
    case OneOf(c, v, w) => Cell(m, f, c) == Some(v) || Cell(m, f, c) == Some(w)
    case AtMost(lo, hi) => NoLater(Cell(m, f, lo), Cell(m, f, hi)) == True
    case Both(l, r) => Holds(l, m, f) && Holds(r, m, f)
    case Either(l, r) => Holds(l, m, f) || Holds(r, m, f)
  }

  lemma {:induction false} TrueMeansHolds(e: Check, m: Measure, f: Facts)
    ensures Eval(e, m, f) == True <==> Holds(e, m, f)
  {
    match e
    case Both(l, r) => TrueMeansHolds(l, m, f); TrueMeansHolds(r, m, f);
    case Either(l, r) => TrueMeansHolds(l, m, f); TrueMeansHolds(r, m, f);
    case _ =>
  }

  /** The columns that a conjunction requires to be present. */
  ghost function Guards(e: Check): set<Column> {
    match e
    case IsNotNull(c) => {c}
    case Both(l, r) => Guards(l) + Guards(r)
    case _ => {}
  }

  /** Every comparison of a column stands in a conjunction that requires the column, or compares a
      column declared NOT NULL. */
  ghost predicate Guarded(e: Check, present: set<Column>) {
    match e
    case IsNull(_) => true
    case IsNotNull(_) => true
    case Is(c, _) => c in present
    case OneOf(c, _, _) => c in present
    case AtMost(lo, hi) => lo in present && hi in present
    case Both(l, r) => Guarded(l, present + Guards(e)) && Guarded(r, present + Guards(e))
    case Either(l, r) => Guarded(l, present) && Guarded(r, present)
  }

  lemma {:induction false} GuardedMonotone(e: Check, p: set<Column>, q: set<Column>)
    requires Guarded(e, p) && p <= q
    ensures Guarded(e, q)
  {
    match e
    case Both(l, r) =>
      GuardedMonotone(l, p + Guards(e), q + Guards(e));
      GuardedMonotone(r, p + Guards(e), q + Guards(e));
    case Either(l, r) => GuardedMonotone(l, p, q); GuardedMonotone(r, p, q);
    case _ =>
  }

  /** A column required by a conjunction and absent from the row makes the conjunction FALSE. */
  lemma {:induction false} MissingGuardIsFalse(e: Check, m: Measure, f: Facts, c: Column)
    requires c in Guards(e) && Cell(m, f, c).None?
    ensures Eval(e, m, f) == False
  {
    match e
    case IsNotNull(_) =>
    case Both(l, r) =>
      if c in Guards(l) { MissingGuardIsFalse(l, m, f, c); } else { MissingGuardIsFalse(r, m, f, c); }
  }

  /** A guarded expression is NULL only where one of the columns assumed present is absent. */
  lemma {:induction false} GuardedNullMeansMissing(e: Check, present: set<Column>, m: Measure, f: Facts)
    requires Guarded(e, present) && Eval(e, m, f) == Null
    ensures exists c :: c in present && Cell(m, f, c).None?
  {
    match e
    case Is(c, _) => assert Cell(m, f, c).None?;
    case OneOf(c, _, _) => assert Cell(m, f, c).None?;
    case AtMost(lo, hi) => assert Cell(m, f, lo).None? || Cell(m, f, hi).None?;
    case Both(l, r) =>
      if Eval(l, m, f) == Null {
        GuardedNullMeansMissing(l, present + Guards(e), m, f);
      } else {
        GuardedNullMeansMissing(r, present + Guards(e), m, f);
      }
      var c :| c in present + Guards(e) && Cell(m, f, c).None?;
      if c in Guards(e) {
        MissingGuardIsFalse(e, m, f, c);
      }
    case Either(l, r) =>
      if Eval(l, m, f) == Null {
        GuardedNullMeansMissing(l, present, m, f);
      } else {
        GuardedNullMeansMissing(r, present, m, f);
      }
    case IsNull(_) =>
    case IsNotNull(_) =>
  }

  /** A constraint guarded relative to the NOT NULL columns is two-valued on every row that
      respects NOT NULL, so it rejects every row it does not positively accept. */
  lemma GuardedIsTwoValued(e: Check, notNull: set<Column>, m: Measure, f: Facts)
    requires Guarded(e, notNull)
    requires forall c :: c in notNull ==> Cell(m, f, c).Some?
    ensures Eval(e, m, f) != Null
    ensures Eval(e, m, f) == Of(Holds(e, m, f))
  {
    TrueMeansHolds(e, m, f);
    if Eval(e, m, f) == Null {
      GuardedNullMeansMissing(e, notNull, m, f);
    }
  }

  // ---------------------------------------------------------------------------
  // Constraints written as alternatives, each a list of conditions on single columns.
  // ---------------------------------------------------------------------------

  /** cs[0] AND cs[1] AND ... */
  function AllOf(cs: seq<Check>): Check
    requires cs != []
  {
    if |cs| == 1 then cs[0] else Both(cs[0], AllOf(cs[1..]))
  }

  predicate IsTable(rows: seq<seq<Check>>) { rows != [] && forall i :: 0 <= i < |rows| ==> rows[i] != [] }

  /** (rows[0]) OR (rows[1]) OR ... */
  function AnyOf(rows: seq<seq<Check>>): Check
    requires IsTable(rows)
  {
    if |rows| == 1 then AllOf(rows[0]) else Either(AllOf(rows[0]), AnyOf(rows[1..]))
  }

  ghost predicate RowHolds(d: seq<Check>, m: Measure, f: Facts) { forall c :: c in d ==> Holds(c, m, f) }

  lemma {:induction false} AllOfHolds(cs: seq<Check>, m: Measure, f: Facts)
    requires cs != []
    ensures Holds(AllOf(cs), m, f) <==> RowHolds(cs, m, f)
  {
    if |cs| > 1 {
      AllOfHolds(cs[1..], m, f);
      assert cs == [cs[0]] + cs[1..];
    }
  }

  lemma {:induction false} AnyOfHolds(rows: seq<seq<Check>>, m: Measure, f: Facts)
    requires IsTable(rows)
    ensures Holds(AnyOf(rows), m, f) <==> exists d :: d in rows && RowHolds(d, m, f)
  {
    AllOfHolds(rows[0], m, f);
    if |rows| > 1 {
      AnyOfHolds(rows[1..], m, f);
      assert rows == [rows[0]] + rows[1..];
    }
  }

  /** Does no condition of the row fail outright? */
  ghost predicate RowPasses(d: seq<Check>, m: Measure, f: Facts) { forall c :: c in d ==> CheckPasses(Eval(c, m, f)) }

  lemma {:induction false} AllOfPasses(cs: seq<Check>, m: Measure, f: Facts)
    requires cs != []
    ensures CheckPasses(Eval(AllOf(cs), m, f)) <==> RowPasses(cs, m, f)
  {
    if |cs| > 1 {
      AllOfPasses(cs[1..], m, f);
      assert cs == [cs[0]] + cs[1..];
    }
  }

  lemma {:induction false} AnyOfPasses(rows: seq<seq<Check>>, m: Measure, f: Facts)
    requires IsTable(rows)
    ensures CheckPasses(Eval(AnyOf(rows), m, f)) <==> exists d :: d in rows && RowPasses(d, m, f)
  {
    AllOfPasses(rows[0], m, f);
    if |rows| > 1 {
      AnyOfPasses(rows[1..], m, f);
      assert rows == [rows[0]] + rows[1..];
    }
  }

  /** A condition on single columns whose comparisons are of columns that are NOT NULL or that the row of
      conditions requires to be present. */
  predicate GuardedIn(c: Check, d: seq<Check>, notNull: set<Column>) {
    match c
    case IsNull(_) => true
    case IsNotNull(_) => true
    case Is(col, _) => col in notNull || IsNotNull(col) in d
    case OneOf(col, _, _) => col in notNull || IsNotNull(col) in d
    case AtMost(lo, hi) => (lo in notNull || IsNotNull(lo) in d) && (hi in notNull || IsNotNull(hi) in d)
    case _ => false
  }

  predicate GuardedRow(d: seq<Check>, notNull: set<Column>) {
    d != [] && forall c :: c in d ==> GuardedIn(c, d, notNull)
  }

  lemma {:induction false} AllOfGuards(cs: seq<Check>, c: Check)
    requires c in cs
    ensures Guards(c) <= Guards(AllOf(cs))
  {
    if |cs| > 1 && c != cs[0] {
      assert cs == [cs[0]] + cs[1..];
      AllOfGuards(cs[1..], c);
    }
  }

  lemma {:induction false} EachGuarded(cs: seq<Check>, p: set<Column>, q: set<Column>)
    requires cs != [] && q <= p + Guards(AllOf(cs)) && forall c :: c in cs ==> Guarded(c, q)
    requires |cs| == 1 ==> q <= p
    ensures Guarded(AllOf(cs), p)
  {
    if |cs| == 1 {
      GuardedMonotone(cs[0], q, p);
    } else {
      var all := p + Guards(AllOf(cs));
      GuardedMonotone(cs[0], q, all);
      forall c | c in cs[1..] ensures Guarded(c, q) { assert c in cs; }
      EachGuarded(cs[1..], all, q);
    }
  }

  lemma GuardedRowIsGuarded(d: seq<Check>, notNull: set<Column>)
    requires GuardedRow(d, notNull)
    ensures Guarded(AllOf(d), notNull)
  {
    var q := notNull + Guards(AllOf(d));
    forall c | c in d ensures Guarded(c, q) {
      forall col | IsNotNull(col) in d ensures col in q { AllOfGuards(d, IsNotNull(col)); }
    }
    if |d| == 1 {
      assert d[0] in d && forall c :: c in d ==> c == d[0];
    } else {
      EachGuarded(d, notNull, q);
    }
  }

  lemma {:induction false} GuardedRowsAreGuarded(rows: seq<seq<Check>>, notNull: set<Column>)
    requires rows != [] && forall i :: 0 <= i < |rows| ==> GuardedRow(rows[i], notNull)
    ensures IsTable(rows) && Guarded(AnyOf(rows), notNull)
  {
    GuardedRowIsGuarded(rows[0], notNull);
    if |rows| > 1 { GuardedRowsAreGuarded(rows[1..], notNull); }
  }
}
