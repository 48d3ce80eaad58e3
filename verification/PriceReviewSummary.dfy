/** Price movements of the lines of a review, the edits a buyer makes, and the supplier summary. */
module PriceReviewSummary {
  import opened Sql
  import opened Rounding
  import opened Matching
  import opened PriceReview

  // ---------------------------------------------------------------------------
  // Movements.
  // ---------------------------------------------------------------------------

  /** determine_comparison_basis */
  function BasisOf(before: Side, after: Side): Basis {
    if before.normalized.Some? && after.normalized.Some? then
      if before.unit == after.unit then Normalized else UnitMismatch
    else if before.normalized.None? && after.normalized.None? then Raw
    else UnitMismatch
  }

  /** calculate_percentage_change */
  function PercentageChange(before: real, after: real): Option<real> {
    if before == 0.0 then None else Some(RoundRate(Over(after - before, before)))
  }

  /** classify_movement_type of a matched line. */
  function MovementOf(packChanged: bool, percentage: Option<real>): Movement {
    if packChanged then PackChange
    else if percentage.None? then NeedsReview
    else if percentage.value > 0.0 then PriceIncrease
    else if percentage.value < 0.0 then PriceDecrease
    else NoChange
  }

  const LOW_MAX := 0.02
  const MEDIUM_MAX := 0.05
  const HIGH_MAX := 0.10

  function Magnitude(x: real): real { if x < 0.0 then -x else x }

  /** classify_risk at its default thresholds. */
  function RiskOf(percentage: Option<real>): Risk {
    if percentage.None? then Unclassified
    else
      var m := Magnitude(percentage.value);
      if m <= LOW_MAX then Low else if m <= MEDIUM_MAX then Medium else if m <= HIGH_MAX then High else Critical
  }

  /** The percentage of calculate_gross_margin. */
  function GrossMargin(selling: real, cost: real): real
    requires selling != 0.0
  {
    RoundRate(Over(selling - cost, selling))
  }

  /** The margins of a line whose prices compare as x and y; a year's figure is left alone without a quantity. */
  function MarginsAt(l: Line, x: real, y: real): Margins
    requires l.sellingPrice != Some(0.0)
  {
    if l.sellingPrice.None? then l.figures.margins
    else
      var before, after := GrossMargin(l.sellingPrice.value, x), GrossMargin(l.sellingPrice.value, y);
      var annual := if l.annualQuantity.None? then l.figures.margins.annual
                    else Some(RoundCurrency(Times(after - before, l.annualQuantity.value)));
      Margins(Some(before), Some(after), Some(after - before), annual)
  }

  predicate IsMatched(l: Line) { l.status == Matched || l.status == ReviewRequired }

  /** The two prices a line compares, if it may compare any. */
  function Compared(l: Line): Option<(real, real)> {
    match BasisOf(l.before, l.after)
    case UnitMismatch => None
    case Normalized => Some((l.before.normalized.value, l.after.normalized.value))
    case Raw =>
      if l.before.price.None? || l.after.price.None? then None
      else Some((l.before.price.value, l.after.price.value))
  }

  /** What calculate_line_movement works out of two prices. */
  function FiguresAt(l: Line, x: real, y: real): Figures
    requires l.sellingPrice != Some(0.0)
  {
    var absolute, percentage := RoundCurrency(y - x), PercentageChange(x, y);
    var impact := if l.annualQuantity.None? then l.figures.annualImpact
                  else Some(RoundCurrency(Times(absolute, l.annualQuantity.value)));
    Figures(Some(BasisOf(l.before, l.after)), Some(absolute), percentage, Some(RiskOf(percentage)), impact,
            MarginsAt(l, x, y))
  }

  /** calculate_line_movement; None stands for the error of a selling price of zero. */
  function Recalculated(l: Line): Option<Line> {
    if !IsMatched(l) then Some(l)
    else
      var basis := BasisOf(l.before, l.after);
      if basis == UnitMismatch then
        Some(l.(movement := Some(NeedsReview),
                figures := l.figures.(basis := Some(basis), absolute := None, percentage := None,
                                      risk := Some(Unclassified))))
      else match Compared(l)
        case None => Some(l.(figures := l.figures.(basis := Some(basis))))
        case Some((x, y)) =>
          if l.sellingPrice == Some(0.0) then None
          else
            var movement := MovementOf(l.packChanged, PercentageChange(x, y));
            Some(l.(movement := Some(movement), figures := FiguresAt(l, x, y)))
  }

  /** Prices are compared per unit when both are normalised to one unit, as they are when neither is normalised and
      both are there, and not at all otherwise. */
  lemma ComparedExactly(l: Line)
    ensures var perUnit := l.before.normalized.Some? && l.after.normalized.Some?;
            var asTheyAre := l.before.normalized.None? && l.after.normalized.None?;
            && (Compared(l).Some? <==>
                  || (perUnit && l.before.unit == l.after.unit)
                  || (asTheyAre && l.before.price.Some? && l.after.price.Some?))
            && (Compared(l).Some? && perUnit ==>
                  Compared(l).value == (l.before.normalized.value, l.after.normalized.value))
            && (Compared(l).Some? && asTheyAre ==> Compared(l).value == (l.before.price.value, l.after.price.value))
  {
  }

  /** What a matched line shows of two prices that compare: their difference to four decimals, the difference as a part
      of the old price to six, and a movement by the pack if it changed and else by the sign of that part. */
  lemma ChangeMeans(l: Line)
    requires IsMatched(l) && Recalculated(l).Some? && Compared(l).Some?
    ensures var (x, y) := Compared(l).value;
            var r := Recalculated(l).value;
            && r.figures.absolute.Some? && IsRounded(r.figures.absolute.value, y - x, CURRENCY)
            && (r.figures.percentage.None? <==> x == 0.0)
            && (x != 0.0 ==> IsRounded(r.figures.percentage.value, (y - x) / x, RATE))
            && r.movement == Some(if l.packChanged then PackChange else if x == 0.0 then NeedsReview
                                  else if r.figures.percentage.value > 0.0 then PriceIncrease
                                  else if r.figures.percentage.value < 0.0 then PriceDecrease else NoChange)
  {
    var (x, y) := Compared(l).value;
    QuantizeIsRounded(y - x, CURRENCY);
    if x != 0.0 { QuantizeIsRounded(Over(y - x, x), RATE); }
  }

  /** A margin is what is left of the selling price over the cost, as a part of it to six decimals. */
  lemma GrossMarginMeans(selling: real, cost: real)
    requires selling != 0.0
    ensures IsRounded(GrossMargin(selling, cost), (selling - cost) / selling, RATE)
  {
    QuantizeIsRounded(Over(selling - cost, selling), RATE);
  }

  /** Changes up to two hundredths either way are of low risk, up to five of medium, up to ten of high. */
  lemma RiskMeans(x: real)
    ensures RiskOf(Some(x)) == Low <==> -0.02 <= x <= 0.02
    ensures RiskOf(Some(x)) == Medium <==> -0.05 <= x <= 0.05 && !(-0.02 <= x <= 0.02)
    ensures RiskOf(Some(x)) == High <==> -0.10 <= x <= 0.10 && !(-0.05 <= x <= 0.05)
    ensures RiskOf(Some(x)) == Critical <==> x < -0.10 || x > 0.10
    ensures RiskOf(None) == Unclassified
  {
  }

  lemma RoundedSign(c: real)
    ensures (c <= 0.0 ==> RoundRate(c) <= 0.0) && (c >= 0.0 ==> RoundRate(c) >= 0.0)
    ensures RoundRate(c) == 0.0 ==> -0.5 <= Times(c, RATE) <= 0.5
  {
    QuantizeOfGrid(0, RATE);
    if c <= 0.0 { QuantizeMonotone(c, 0.0, RATE); }
    if c >= 0.0 { QuantizeMonotone(0.0, c, RATE); }
    QuantizeIsNear(c, RATE);
  }

  /** A movement tells the truth about the prices: up only when the new price is higher, down only when it
      is lower, none only within half a millionth; and two prices per different units are never compared. */
  lemma MovementAgreesWithPrices(l: Line)
    requires IsMatched(l) && !l.packChanged && Recalculated(l).Some?
    ensures BasisOf(l.before, l.after) == UnitMismatch ==>
              Recalculated(l).value.figures.percentage.None? && Recalculated(l).value.movement == Some(NeedsReview)
    ensures Compared(l).Some? && Compared(l).value.0 > 0.0 ==>
              var (x, y) := Compared(l).value;
              var m := Recalculated(l).value.movement;
              && m.Some? && m.value in {PriceIncrease, PriceDecrease, NoChange}
              && (m == Some(PriceIncrease) ==> y > x) && (m == Some(PriceDecrease) ==> y < x)
              && (m == Some(NoChange) ==> -0.5 <= Times(Over(y - x, x), RATE) <= 0.5)
  {
    if Compared(l).Some? && Compared(l).value.0 > 0.0 {
      var (x, y) := Compared(l).value;
      if y >= x { OverMonotone(0.0, y - x, x); }
      if y <= x { OverMonotone(y - x, 0.0, x); }
      assert Over(0.0, x) == 0.0;
      RoundedSign(Over(y - x, x));
    }
  }

  lemma MarginsAreNear(p: real, x: real, y: real)
    requires p != 0.0
    ensures -1.0 <= Times(GrossMargin(p, y) - GrossMargin(p, x) - Over(x - y, p), RATE) <= 1.0
  {
    var u, v := Over(p - x, p), Over(p - y, p);
    assert v - u == Over(x - y, p);
    QuantizeIsNear(u, RATE);
    QuantizeIsNear(v, RATE);
    TimesDifference(RoundRate(v) - v, RoundRate(u) - u, RATE);
  }

  lemma MarginFallsWithCost(p: real, x: real, y: real)
    requires p > 0.0 && x <= y
    ensures GrossMargin(p, y) <= GrossMargin(p, x)
  {
    OverMonotone(p - y, p - x, p);
    QuantizeMonotone(Over(p - y, p), Over(p - x, p), RATE);
  }

  lemma MarginRisesBelowZero(p: real, x: real, y: real)
    requires p < 0.0 && x <= y
    ensures GrossMargin(p, y) >= GrossMargin(p, x)
  {
    OverMonotone(x - p, y - p, -p);
    assert Over(x - p, -p) == Over(p - x, p) && Over(y - p, -p) == Over(p - y, p);
    QuantizeMonotone(Over(p - x, p), Over(p - y, p), RATE);
  }

  /** The margin movement is the price change per unit of selling price, with the sign turned, to within one
      millionth: where the selling price is positive the margin never rises as the price does. */
  lemma MarginsFollowPrices(l: Line)
    requires IsMatched(l) && Recalculated(l).Some? && Compared(l).Some? && l.sellingPrice.Some?
    ensures var (x, y) := Compared(l).value;
            var p := l.sellingPrice.value;
            var m := Recalculated(l).value.figures.margins.movement;
            && p != 0.0 && m.Some? && -1.0 <= Times(m.value - Over(x - y, p), RATE) <= 1.0
            && (p > 0.0 && x <= y ==> m.value <= 0.0) && (p > 0.0 && x >= y ==> m.value >= 0.0)
            && (p < 0.0 && x <= y ==> m.value >= 0.0) && (p < 0.0 && x >= y ==> m.value <= 0.0)
  {
    var (x, y) := Compared(l).value;
    var p := l.sellingPrice.value;
    MarginsAreNear(p, x, y);
    if p > 0.0 && x <= y { MarginFallsWithCost(p, x, y); }
    if p > 0.0 && x >= y { MarginFallsWithCost(p, y, x); }
    if p < 0.0 && x <= y { MarginRisesBelowZero(p, x, y); }
    if p < 0.0 && x >= y { MarginRisesBelowZero(p, y, x); }
  }

  function RiskRank(r: Risk): int {
    match r case Unclassified => 0 case Low => 1 case Medium => 2 case High => 3 case Critical => 4
  }

  /** A larger change, up or down, is never in a lower risk class, and a line without a movement is at low risk. */
  lemma RiskGrowsWithChange(x: real, y: real, z: real)
    requires x != 0.0 && Magnitude(Over(y - x, x)) <= Magnitude(Over(z - x, x))
    ensures RiskRank(RiskOf(PercentageChange(x, y))) <= RiskRank(RiskOf(PercentageChange(x, z)))
    ensures MovementOf(false, PercentageChange(x, y)) == NoChange ==> RiskOf(PercentageChange(x, y)) == Low
  {
    RoundingKeepsMagnitudes(Over(y - x, x), Over(z - x, x));
  }

  lemma RoundRateOfNegative(c: real)
    ensures RoundRate(-c) == -RoundRate(c)
  {
    HalfEvenOfNegative(Times(c, RATE));
    assert Times(-c, RATE) == -Times(c, RATE);
  }

  lemma HalfEvenOfNegative(x: real)
    ensures HalfEven(-x) == -HalfEven(x)
  {
    if x == x.Floor as real {
      assert (-x).Floor == -x.Floor;
    } else {
      assert (-x).Floor == -x.Floor - 1;
    }
  }

  lemma RoundingKeepsMagnitudes(c: real, d: real)
    requires Magnitude(c) <= Magnitude(d)
    ensures Magnitude(RoundRate(c)) <= Magnitude(RoundRate(d))
  {
    RoundRateOfNegative(c);
    RoundRateOfNegative(d);
    RoundedSign(Magnitude(c));
    QuantizeMonotone(Magnitude(c), Magnitude(d), RATE);
  }

  datatype Decision = Confirm | ChooseDifferent(candidate: Option<Line>) | MarkNew | MarkDiscontinued | Ignore

  /** resolve_match; None stands for a request without a candidate or the error of a selling price of zero. */
  function Resolved(l: Line, d: Decision): Option<Line> {
    match d
    case Confirm => Recalculated(l.(status := Matched))
    case ChooseDifferent(None) => None
    case ChooseDifferent(Some(c)) =>
      var after := Side(c.after.sku, c.after.pack, c.after.price, c.after.normalized, l.after.unit);
      Recalculated(l.(after := after, status := Matched, how := Some(ManualOverride)))
    case MarkNew => Some(l.(status := NewProduct, movement := Some(IsNew)))
    case MarkDiscontinued => Some(l.(status := Discontinued, movement := Some(IsDiscontinued)))
    case Ignore => Some(l.(status := Ignored))
  }

  function Entered(l: Line, quantity: real, selling: Option<real>): Line {
    l.(annualQuantity := Some(quantity), sellingPrice := if selling.Some? then selling else l.sellingPrice)
  }

  /** set_manual_quantity, with the selling price that may come with it. */
  function WithQuantity(l: Line, quantity: real, selling: Option<real>): Option<Line> {
    Recalculated(Entered(l, quantity, selling))
  }

  /** Choosing another product does not take over its base unit, so whether the two prices are compared per
      unit is decided by the unit of the product that was turned down. */
  lemma ChoosingKeepsTheOldUnit(l: Line, c: Line)
    requires l.before.normalized.Some? && c.after.normalized.Some? && Resolved(l, ChooseDifferent(Some(c))).Some?
    ensures var basis := Resolved(l, ChooseDifferent(Some(c))).value.figures.basis;
            && (basis == Some(Normalized) <==> l.before.unit == l.after.unit)
            && (basis == Some(BasisOf(l.before, c.after)) <==>
                  (l.before.unit == l.after.unit) == (l.before.unit == c.after.unit))
  {
  }

  /** Confirming a line without a partner marks it matched, yet its movement stays at discontinued exactly
      when the old price could not be normalised. */
  lemma ConfirmedWithoutPartner(l: Line)
    requires l.movement == Some(IsDiscontinued) && l.after == ABSENT
    ensures Resolved(l, Confirm).Some? && Resolved(l, Confirm).value.status == Matched
    ensures Resolved(l, Confirm).value.movement == Some(IsDiscontinued) <==> l.before.normalized.None?
  {
  }

  /** A selling price of zero is refused only while the line is matched and its prices compare. Entered on any
      other line it is stored, and from then on confirming the line fails exactly when its prices compare. */
  lemma ZeroSellingPriceComesBack(l: Line, quantity: real)
    ensures WithQuantity(l, quantity, Some(0.0)).None? <==> IsMatched(l) && Compared(l).Some?
    ensures WithQuantity(l, quantity, Some(0.0)).Some? ==>
              (Resolved(WithQuantity(l, quantity, Some(0.0)).value, Confirm).None? <==> Compared(l).Some?)
  {
    var m := l.(annualQuantity := Some(quantity), sellingPrice := Some(0.0));
    assert Compared(m) == Compared(l);
    if WithQuantity(l, quantity, Some(0.0)).Some? {
      var r := WithQuantity(l, quantity, Some(0.0)).value;
      assert Compared(r.(status := Matched)) == Compared(l);
    }
  }

  /** The lines with one of them replaced, or as they were. */
  function Stored(lines: seq<Line>, i: nat, l: Option<Line>): (r: seq<Line>)
    requires i < |lines|
    ensures |r| == |lines|
  {
    if l.Some? then lines[i := l.value] else lines
  }

  // ---------------------------------------------------------------------------
  // The summary.
  // ---------------------------------------------------------------------------

  function Effective(l: Line): Movement { if l.movement.None? then NeedsReview else l.movement.value }

  /** Does the line weigh in the average increase? */
  predicate Weighs(l: Line) {
    && l.figures.percentage.Some? && l.annualQuantity.Some?
    && Effective(l) in {PriceIncrease, PriceDecrease, NoChange, PackChange}
  }

  function WeightedSum(lines: seq<Line>, n: nat): real
    requires n <= |lines|
  {
    if n == 0 then 0.0
    else
      var l := lines[n - 1];
      WeightedSum(lines, n - 1) + (if Weighs(l) then Times(l.figures.percentage.value, l.annualQuantity.value) else 0.0)
  }

  function Weight(lines: seq<Line>, n: nat): real
    requires n <= |lines|
  {
    if n == 0 then 0.0
    else Weight(lines, n - 1) + (if Weighs(lines[n - 1]) then lines[n - 1].annualQuantity.value else 0.0)
  }

  function AverageIncrease(lines: seq<Line>): Option<real> {
    if Weight(lines, |lines|) == 0.0 then None
    else Some(RoundRate(Over(WeightedSum(lines, |lines|), Weight(lines, |lines|))))
  }

  function CountOf(lines: seq<Line>, n: nat, m: Movement): nat
    requires n <= |lines|
  {
    if n == 0 then 0 else CountOf(lines, n - 1, m) + (if Effective(lines[n - 1]) == m then 1 else 0)
  }

  /** How many of the first n lines have a SKU in the old list, or in the new one. */
  function Listed(lines: seq<Line>, n: nat, inOld: bool): nat
    requires n <= |lines|
  {
    if n == 0 then 0
    else
      var side := if inOld then lines[n - 1].before else lines[n - 1].after;
      Listed(lines, n - 1, inOld) + (if side.sku.Some? then 1 else 0)
  }

  /** Is the line counted as matched? */
  predicate Counts(l: Line) { Effective(l) !in {IsNew, IsDiscontinued, NeedsReview} }

  function MatchedLines(lines: seq<Line>, n: nat): nat
    requires n <= |lines|
  {
    if n == 0 then 0 else MatchedLines(lines, n - 1) + (if Counts(lines[n - 1]) then 1 else 0)
  }

  /** How many of the first n lines are marked as having another pack. */
  function Flagged(lines: seq<Line>, n: nat): nat
    requires n <= |lines|
  {
    if n == 0 then 0 else Flagged(lines, n - 1) + (if lines[n - 1].packChanged then 1 else 0)
  }

  function Undecided(lines: seq<Line>, n: nat): nat
    requires n <= |lines|
  {
    if n == 0 then 0 else Undecided(lines, n - 1) + (if lines[n - 1].status == ReviewRequired then 1 else 0)
  }

  /** What the first n lines cost more a year, whatever has become of them since. */
  function YearlyCost(lines: seq<Line>, n: nat): real
    requires n <= |lines|
  {
    if n == 0 then 0.0
    else
      var impact := lines[n - 1].figures.annualImpact;
      YearlyCost(lines, n - 1) + (if impact.Some? then impact.value else 0.0)
  }

  datatype Summary = Summary(
    previousSkus: nat, newListSkus: nat, matched: nat, unmatched: int, newProducts: nat, discontinued: nat,
    increasing: nat, decreasing: nat, steady: nat, packChanges: nat, averageIncrease: Option<real>, yearlyCost: real,
    undecided: nat)

  /** The lines of one review, as stored. A request that fails stores nothing. */
  class Review {
    var lines: seq<Line>

    method CalculateLineMovement(i: nat) returns (ok: bool)
      requires i < |lines|
      modifies this
      ensures ok <==> Recalculated(old(lines)[i]).Some?
      ensures lines == Stored(old(lines), i, Recalculated(old(lines)[i]))
    {
      var l := lines[i];
      if l.status != Matched && l.status != ReviewRequired {
        return true;
      }
      var basis := BasisOf(l.before, l.after);
      var figures := l.figures.(basis := Some(basis));
      if basis == UnitMismatch {
        figures := figures.(absolute := None, percentage := None, risk := Some(Unclassified));
        lines := lines[i := l.(movement := Some(NeedsReview), figures := figures)];
        return true;
      }
      var x := if basis == Normalized then l.before.normalized else l.before.price;
      var y := if basis == Normalized then l.after.normalized else l.after.price;
      if x.None? || y.None? {
        lines := lines[i := l.(figures := figures)];
        return true;
      }
      figures := figures.(absolute := Some(RoundCurrency(y.value - x.value)),
                          percentage := PercentageChange(x.value, y.value));
      figures := figures.(risk := Some(RiskOf(figures.percentage)));
      if l.annualQuantity.Some? {
        figures := figures.(
          annualImpact := Some(RoundCurrency(Times(figures.absolute.value, l.annualQuantity.value))));
      }
      if l.sellingPrice.Some? {
        if l.sellingPrice.value == 0.0 {
          return false;
        }
        var before := GrossMargin(l.sellingPrice.value, x.value);
        var after := GrossMargin(l.sellingPrice.value, y.value);
        var margins := Margins(Some(before), Some(after), Some(after - before), figures.margins.annual);
        if l.annualQuantity.Some? {
          margins := margins.(annual := Some(RoundCurrency(Times(after - before, l.annualQuantity.value))));
        }
        figures := figures.(margins := margins);
      }
      lines := lines[i := l.(movement := Some(MovementOf(l.packChanged, figures.percentage)), figures := figures)];
      return true;
    }

    method SetManualQuantity(i: nat, quantity: real, selling: Option<real>) returns (ok: bool)
      requires i < |lines| && quantity > 0.0
      modifies this
      ensures ok <==> WithQuantity(old(lines)[i], quantity, selling).Some?
      ensures lines == Stored(old(lines), i, WithQuantity(old(lines)[i], quantity, selling))
    {
      var stored := lines;
      lines := lines[i := lines[i].(annualQuantity := Some(quantity))];
      if selling.Some? {
        lines := lines[i := lines[i].(sellingPrice := selling)];
      }
      ok := CalculateLineMovement(i);
      if !ok {
        lines := stored;
      }
    }

    method ResolveMatch(i: nat, d: Decision) returns (ok: bool)
      requires i < |lines|
      modifies this
      ensures ok <==> Resolved(old(lines)[i], d).Some?
      ensures lines == Stored(old(lines), i, Resolved(old(lines)[i], d))
    {
      var stored, l := lines, lines[i];
      match d {
        case Confirm => l := l.(status := Matched);
        case ChooseDifferent(candidate) =>
          if candidate.None? {
            return false;
          }
          var c := candidate.value.after;
          l := l.(after := l.after.(sku := c.sku, pack := c.pack, price := c.price, normalized := c.normalized),
                  status := Matched, how := Some(ManualOverride));
        case MarkNew => l := l.(status := NewProduct, movement := Some(IsNew));
        case MarkDiscontinued => l := l.(status := Discontinued, movement := Some(IsDiscontinued));
        case Ignore => l := l.(status := Ignored);
      }
      lines := lines[i := l];
      ok := CalculateLineMovement(i);
      if !ok {
        lines := stored;
      }
    }

    /** weighted_average_increase */
    method WeightedAverageIncrease() returns (average: Option<real>)
      ensures average == AverageIncrease(lines)
    {
      var numerator, denominator := 0.0, 0.0;
      for i := 0 to |lines|
        invariant numerator == WeightedSum(lines, i) && denominator == Weight(lines, i)
      {
        var l := lines[i];
        if Weighs(l) {
          numerator := numerator + Times(l.figures.percentage.value, l.annualQuantity.value);
          denominator := denominator + l.annualQuantity.value;
        }
      }
      if denominator == 0.0 {
        return None;
      }
      return Some(RoundRate(Over(numerator, denominator)));
    }

    /** The counts by movement in get_summary: matched, up, down, unchanged, new and discontinued. */
    method CountMovements() returns (matched: nat, up: nat, down: nat, steady: nat, new_: nat, gone: nat)
      ensures matched == MatchedLines(lines, |lines|) && up == CountOf(lines, |lines|, PriceIncrease)
      ensures down == CountOf(lines, |lines|, PriceDecrease) && steady == CountOf(lines, |lines|, NoChange)
      ensures new_ == CountOf(lines, |lines|, IsNew) && gone == CountOf(lines, |lines|, IsDiscontinued)
    {
      matched, up, down, steady, new_, gone := 0, 0, 0, 0, 0, 0;
      for i := 0 to |lines|
        invariant matched == MatchedLines(lines, i) && up == CountOf(lines, i, PriceIncrease)
        invariant down == CountOf(lines, i, PriceDecrease) && steady == CountOf(lines, i, NoChange)
        invariant new_ == CountOf(lines, i, IsNew) && gone == CountOf(lines, i, IsDiscontinued)
      {
        var m := Effective(lines[i]);
        matched := matched + (if m != IsNew && m != IsDiscontinued && m != NeedsReview then 1 else 0);
        up := up + (if m == PriceIncrease then 1 else 0);
        down := down + (if m == PriceDecrease then 1 else 0);
        steady := steady + (if m == NoChange then 1 else 0);
        new_ := new_ + (if m == IsNew then 1 else 0);
        gone := gone + (if m == IsDiscontinued then 1 else 0);
      }
    }

    /** The other sums in get_summary: SKUs of either list, changed packs, lines to review, and yearly cost. */
    method CountLines() returns (previous: nat, listed: nat, packs: nat, undecided: nat, cost: real)
      ensures previous == Listed(lines, |lines|, true) && listed == Listed(lines, |lines|, false)
      ensures packs == Flagged(lines, |lines|) && undecided == Undecided(lines, |lines|)
      ensures cost == YearlyCost(lines, |lines|)
    {
      previous, listed, packs, undecided, cost := 0, 0, 0, 0, 0.0;
      for i := 0 to |lines|
        invariant previous == Listed(lines, i, true) && listed == Listed(lines, i, false)
        invariant packs == Flagged(lines, i) && undecided == Undecided(lines, i) && cost == YearlyCost(lines, i)
      {
        var l := lines[i];
        previous := previous + (if l.before.sku.Some? then 1 else 0);
        listed := listed + (if l.after.sku.Some? then 1 else 0);
        packs := packs + (if l.packChanged then 1 else 0);
        undecided := undecided + (if l.status == ReviewRequired then 1 else 0);
        if l.figures.annualImpact.Some? {
          cost := cost + l.figures.annualImpact.value;
        }
      }
    }

    /** get_summary: every line is counted once as matched, unmatched, new or discontinued. The matched ones need
        not add up from increases, decreases, unchanged prices and changed packs: see PackChangesAddUpExactly. */
    method GetSummary() returns (s: Summary)
      ensures s.matched == MatchedLines(lines, |lines|) && s.unmatched == CountOf(lines, |lines|, NeedsReview)
      ensures s.newProducts == CountOf(lines, |lines|, IsNew)
      ensures s.discontinued == CountOf(lines, |lines|, IsDiscontinued)
      ensures s.matched + s.unmatched + s.newProducts + s.discontinued == |lines|
      ensures s.increasing == CountOf(lines, |lines|, PriceIncrease)
      ensures s.decreasing == CountOf(lines, |lines|, PriceDecrease) && s.steady == CountOf(lines, |lines|, NoChange)
      ensures s.packChanges == Flagged(lines, |lines|)
      ensures s.previousSkus == Listed(lines, |lines|, true) && s.newListSkus == Listed(lines, |lines|, false)
      ensures s.averageIncrease == AverageIncrease(lines)
      ensures s.yearlyCost == YearlyCost(lines, |lines|) && s.undecided == Undecided(lines, |lines|)
    {
      var matched, up, down, steady, new_, gone := CountMovements();
      var previous, listed, packs, undecided, cost := CountLines();
      var average := WeightedAverageIncrease();
      EveryLineCountsOnce(lines, |lines|);
      s := Summary(previous, listed, matched, |lines| - matched - new_ - gone, new_, gone, up, down, steady, packs,
                   average, cost, undecided);
    }
  }

  lemma {:induction false} EveryLineCountsOnce(lines: seq<Line>, n: nat)
    requires n <= |lines|
    ensures MatchedLines(lines, n) == CountOf(lines, n, PriceIncrease) + CountOf(lines, n, PriceDecrease) +
                                      CountOf(lines, n, NoChange) + CountOf(lines, n, PackChange)
    ensures MatchedLines(lines, n) + CountOf(lines, n, NeedsReview) + CountOf(lines, n, IsNew) +
            CountOf(lines, n, IsDiscontinued) == n
  {
    if n > 0 { EveryLineCountsOnce(lines, n - 1); }
  }

  // ---------------------------------------------------------------------------
  // Over any series of edits.
  // ---------------------------------------------------------------------------

  datatype Edit =
    | Recalculate(i: nat)
    | SetQuantity(i: nat, quantity: real, selling: Option<real>)
    | Resolve(i: nat, decision: Decision)

  /** Quantities are checked to be positive before they get here. */
  predicate Possible(lines: seq<Line>, e: Edit) { e.i < |lines| && (e.SetQuantity? ==> e.quantity > 0.0) }

  function Edited(lines: seq<Line>, e: Edit): seq<Line>
    requires Possible(lines, e)
  {
    match e
    case Recalculate(i) => Stored(lines, i, Recalculated(lines[i]))
    case SetQuantity(i, quantity, selling) => Stored(lines, i, WithQuantity(lines[i], quantity, selling))
    case Resolve(i, d) => Stored(lines, i, Resolved(lines[i], d))
  }

  ghost predicate Run(states: seq<seq<Line>>, edits: seq<Edit>) {
    && |states| == |edits| + 1
    && forall k :: 0 <= k < |edits| ==> Possible(states[k], edits[k]) && states[k + 1] == Edited(states[k], edits[k])
  }

  /** A quantity is positive, a percentage has six decimals and the risk class that goes with it, and only a
      line marked as having another pack moves by it. */
  predicate LineOk(l: Line) {
    && (l.annualQuantity.Some? ==> l.annualQuantity.value > 0.0)
    && (l.figures.percentage.Some? ==> RoundRate(l.figures.percentage.value) == l.figures.percentage.value)
    && (l.figures.percentage.Some? ==> l.figures.risk == Some(RiskOf(l.figures.percentage)))
    && (l.movement == Some(PackChange) ==> l.packChanged)
  }

  predicate AllOk(lines: seq<Line>) { forall k :: 0 <= k < |lines| ==> LineOk(lines[k]) }

  lemma RecalculatedIsOk(l: Line)
    requires LineOk(l) && Recalculated(l).Some?
    ensures LineOk(Recalculated(l).value)
  {
    forall x: real ensures RoundRate(RoundRate(x)) == RoundRate(x) { QuantizeOfGrid(HalfEven(Times(x, RATE)), RATE); }
  }

  lemma ResolvedIsOk(l: Line, d: Decision)
    requires LineOk(l) && Resolved(l, d).Some?
    ensures LineOk(Resolved(l, d).value)
  {
    forall m: Line | LineOk(m) && Recalculated(m).Some? ensures LineOk(Recalculated(m).value) { RecalculatedIsOk(m); }
  }

  lemma EditKeepsOk(lines: seq<Line>, e: Edit)
    requires AllOk(lines) && Possible(lines, e)
    ensures AllOk(Edited(lines, e)) && |Edited(lines, e)| == |lines|
  {
    var l := lines[e.i];
    assert LineOk(l);
    match e {
      case Recalculate(i) => if Recalculated(l).Some? { RecalculatedIsOk(l); }
      case SetQuantity(i, quantity, selling) =>
        var m := Entered(l, quantity, selling);
        assert LineOk(m);
        if Recalculated(m).Some? { RecalculatedIsOk(m); }
      case Resolve(i, d) => if Resolved(l, d).Some? { ResolvedIsOk(l, d); }
    }
  }

  lemma {:induction false} RunKeepsOk(states: seq<seq<Line>>, edits: seq<Edit>, n: nat)
    requires Run(states, edits) && n < |states| && AllOk(states[0])
    ensures AllOk(states[n])
  {
    if n > 0 {
      RunKeepsOk(states, edits, n - 1);
      EditKeepsOk(states[n - 1], edits[n - 1]);
      assert states[n - 1 + 1] == Edited(states[n - 1], edits[n - 1]);
    }
  }

  lemma FreshLinesAreOk(ratio: (string, string) -> real, olds: seq<Row>, rows: seq<Row>)
    ensures AllOk(AllLines(ratio, olds, rows))
  {
    var lines := AllLines(ratio, olds, rows);
    forall k | 0 <= k < |lines| ensures LineOk(lines[k]) {
      if k < |olds| {
        LineOfRow(ratio, olds, rows, k);
      } else {
        NewLinesAreOk(Skus(rows), rows, PriceReview.Taken(LinesFor(ratio, olds, rows)));
      }
    }
  }

  lemma {:induction false} NewLinesAreOk(skus: seq<Text>, rows: seq<Row>, taken: set<Text>)
    requires forall k :: k in skus ==> Lists(rows, k)
    ensures AllOk(NewLines(skus, rows, taken))
  {
    if skus != [] {
      assert skus == skus[..|skus| - 1] + [skus[|skus| - 1]];
      NewLinesAreOk(skus[..|skus| - 1], rows, taken);
    }
  }

  /** w lies on or between two bounds, scaled by a positive weight. */
  lemma WeightedStep(sum: real, weight: real, p: real, q: real, lo: real, hi: real)
    requires weight >= 0.0 && q > 0.0 && lo <= p <= hi
    requires Times(lo, weight) <= sum <= Times(hi, weight)
    ensures Times(lo, weight + q) <= sum + Times(p, q) <= Times(hi, weight + q)
  {
    assert Times(lo, weight + q) == Times(lo, weight) + Times(lo, q);
    assert Times(hi, weight + q) == Times(hi, weight) + Times(hi, q);
    OverMonotone(lo, p, q);
    OverMonotone(p, hi, q);
  }

  ghost predicate Bounds(lines: seq<Line>, lo: real, hi: real) {
    forall k :: 0 <= k < |lines| && Weighs(lines[k]) ==> lo <= lines[k].figures.percentage.value <= hi
  }

  lemma {:induction false} WeightedWithin(lines: seq<Line>, n: nat, lo: real, hi: real)
    requires n <= |lines| && AllOk(lines) && Bounds(lines, lo, hi)
    ensures 0.0 <= Weight(lines, n)
            && Times(lo, Weight(lines, n)) <= WeightedSum(lines, n) <= Times(hi, Weight(lines, n))
    ensures Weight(lines, n) > 0.0 <==> exists k :: 0 <= k < n && Weighs(lines[k])
  {
    if n > 0 {
      WeightedWithin(lines, n - 1, lo, hi);
      var l := lines[n - 1];
      assert LineOk(l);
      if Weighs(l) {
        WeightedStep(WeightedSum(lines, n - 1), Weight(lines, n - 1), l.figures.percentage.value,
                     l.annualQuantity.value, lo, hi);
      }
    }
  }

  lemma {:induction false} Extremes(lines: seq<Line>, n: nat) returns (i: nat, j: nat)
    requires n <= |lines| && exists k :: 0 <= k < n && Weighs(lines[k])
    ensures i < n && j < n && Weighs(lines[i]) && Weighs(lines[j])
    ensures forall k :: 0 <= k < n && Weighs(lines[k]) ==>
              && lines[i].figures.percentage.value <= lines[k].figures.percentage.value
              && lines[k].figures.percentage.value <= lines[j].figures.percentage.value
  {
    var l := lines[n - 1];
    if exists k :: 0 <= k < n - 1 && Weighs(lines[k]) {
      i, j := Extremes(lines, n - 1);
      if Weighs(l) {
        if l.figures.percentage.value < lines[i].figures.percentage.value { i := n - 1; }
        if l.figures.percentage.value > lines[j].figures.percentage.value { j := n - 1; }
      }
    } else {
      i, j := n - 1, n - 1;
    }
  }

  /** r is no less than the change of one line that weighs and no more than that of another. */
  predicate Between(lines: seq<Line>, i: nat, r: real, j: nat) {
    && i < |lines| && j < |lines| && Weighs(lines[i]) && Weighs(lines[j])
    && lines[i].figures.percentage.value <= r <= lines[j].figures.percentage.value
  }

  /** After any edits to a fresh review there is an average exactly when some line weighs, and it lies between
      the least and the greatest change of the lines that do. */
  lemma AverageIsBetween(lines: seq<Line>)
    requires AllOk(lines)
    ensures AverageIncrease(lines).Some? <==> exists k :: 0 <= k < |lines| && Weighs(lines[k])
    ensures AverageIncrease(lines).Some? ==> exists i, j :: Between(lines, i, AverageIncrease(lines).value, j)
  {
    if exists k :: 0 <= k < |lines| && Weighs(lines[k]) {
      var i, j := Extremes(lines, |lines|);
      var lo, hi := lines[i].figures.percentage.value, lines[j].figures.percentage.value;
      var sum, weight := WeightedSum(lines, |lines|), Weight(lines, |lines|);
      WeightedWithin(lines, |lines|, lo, hi);
      OverMonotone(Times(lo, weight), sum, weight);
      OverMonotone(sum, Times(hi, weight), weight);
      OverTimes(lo, weight);
      OverTimes(hi, weight);
      assert LineOk(lines[i]) && LineOk(lines[j]);
      QuantizeMonotone(lo, Over(sum, weight), RATE);
      QuantizeMonotone(Over(sum, weight), hi, RATE);
      assert Between(lines, i, AverageIncrease(lines).value, j);
    } else {
      WeightedWithin(lines, |lines|, 0.0, 0.0);
    }
  }

  /** What weighs are exactly the lines counted as matched that have a change and a quantity. */
  lemma WeighsExactly(l: Line)
    ensures Weighs(l) <==> Counts(l) && l.figures.percentage.Some? && l.annualQuantity.Some?
  {
    match Effective(l) {
      case PriceIncrease => case PriceDecrease => case NoChange => case PackChange =>
      case IsNew => case IsDiscontinued => case NeedsReview =>
    }
  }

  lemma {:induction false} WeightOfBoth(xs: seq<Line>, ys: seq<Line>, n: nat)
    requires n <= |ys|
    ensures Weight(xs + ys, |xs| + n) == Weight(xs, |xs|) + Weight(ys, n)
    ensures WeightedSum(xs + ys, |xs| + n) == WeightedSum(xs, |xs|) + WeightedSum(ys, n)
  {
    if n > 0 {
      WeightOfBoth(xs, ys, n - 1);
    } else {
      WeightBefore(xs + ys, xs, |xs|);
    }
  }

  function WithAnnual(l: Line, quantity: real): Line { l.(annualQuantity := Some(quantity)) }

  lemma SplitWeighsAlike(l: Line, q: real, r: real)
    ensures var one, two := [WithAnnual(l, q + r)], [WithAnnual(l, q), WithAnnual(l, r)];
            Weight(one, 1) == Weight(two, 2) && WeightedSum(one, 1) == WeightedSum(two, 2)
  {
    var one, two := [WithAnnual(l, q + r)], [WithAnnual(l, q), WithAnnual(l, r)];
    assert Weight(one, 0) == Weight(two, 0) == 0.0 && WeightedSum(one, 0) == WeightedSum(two, 0) == 0.0;
    assert Weight(two, 1) == if Weighs(l.(annualQuantity := Some(q))) then q else 0.0;
    if Weighs(WithAnnual(l, q)) {
      assert Times(l.figures.percentage.value, q + r)
             == Times(l.figures.percentage.value, q) + Times(l.figures.percentage.value, r);
    }
  }

  /** Quantities are the weights: a line bought in two lots, each on a line of its own, leaves the average as it is. */
  lemma LotsWeighAlike(before: seq<Line>, l: Line, q: real, r: real, after: seq<Line>)
    ensures AverageIncrease(before + [WithAnnual(l, q + r)] + after)
            == AverageIncrease(before + [WithAnnual(l, q), WithAnnual(l, r)] + after)
  {
    var one, two := [WithAnnual(l, q + r)], [WithAnnual(l, q), WithAnnual(l, r)];
    SplitWeighsAlike(l, q, r);
    WeightOfBoth(before, one, 1);
    WeightOfBoth(before, two, 2);
    WeightOfBoth(before + one, after, |after|);
    WeightOfBoth(before + two, after, |after|);
    SameAverage(before + one + after, before + two + after);
  }

  lemma SumsOfTwo(l: Line, m: Line)
    requires Weighs(l) && Weighs(m)
    ensures WeightedSum([l, m], 2) == Times(l.figures.percentage.value, l.annualQuantity.value)
                                      + Times(m.figures.percentage.value, m.annualQuantity.value)
    ensures Weight([l, m], 2) == l.annualQuantity.value + m.annualQuantity.value
  {
    assert WeightedSum([l, m], 1) == Times(l.figures.percentage.value, l.annualQuantity.value) + WeightedSum([l, m], 0);
    assert Weight([l, m], 1) == l.annualQuantity.value + Weight([l, m], 0);
  }

  /** And the average of two lines is their changes' mean, weighted by the quantities. */
  lemma AverageOfTwo(l: Line, m: Line)
    requires LineOk(l) && LineOk(m) && Weighs(l) && Weighs(m)
    ensures var p, q, a, b := l.figures.percentage.value, m.figures.percentage.value,
                              l.annualQuantity.value, m.annualQuantity.value;
            && a + b > 0.0 && AverageIncrease([l, m]).Some?
            && IsRounded(AverageIncrease([l, m]).value, (p * a + q * b) / (a + b), RATE)
  {
    var a, b := l.annualQuantity.value, m.annualQuantity.value;
    var sum := Times(l.figures.percentage.value, a) + Times(m.figures.percentage.value, b);
    assert WeightedSum([l, m], 2) == sum && Weight([l, m], 2) == a + b by { SumsOfTwo(l, m); }
    QuantizeIsRounded(Over(sum, a + b), RATE);
  }

  /** The line is no part of the average any more. */
  lemma {:induction false} WeightWithout(lines: seq<Line>, i: nat, r: Line, n: nat)
    requires i < n <= |lines| && !Weighs(r)
    ensures var rest := lines[..i] + lines[i + 1..];
            && Weight(lines[i := r], n) == Weight(rest, n - 1)
            && WeightedSum(lines[i := r], n) == WeightedSum(rest, n - 1)
  {
    if n - 1 > i {
      WeightWithout(lines, i, r, n - 1);
    } else {
      WeightBefore(lines[i := r], lines[..i] + lines[i + 1..], i);
    }
  }

  lemma {:induction false} WeightBefore(lines: seq<Line>, other: seq<Line>, n: nat)
    requires n <= |lines| && n <= |other| && lines[..n] == other[..n]
    ensures Weight(lines, n) == Weight(other, n) && WeightedSum(lines, n) == WeightedSum(other, n)
  {
    if n > 0 {
      assert lines[..n - 1] == lines[..n][..n - 1] == other[..n - 1];
      assert lines[n - 1] == lines[..n][n - 1] == other[n - 1];
      WeightBefore(lines, other, n - 1);
    }
  }

  lemma {:induction false} AlikeAddUpAlike(lines: seq<Line>, i: nat, r: Line, n: nat)
    requires i < |lines| && n <= |lines|
    requires r.figures == lines[i].figures && r.annualQuantity == lines[i].annualQuantity
    ensures YearlyCost(lines[i := r], n) == YearlyCost(lines, n)
    ensures Weighs(r) == Weighs(lines[i]) ==>
              Weight(lines[i := r], n) == Weight(lines, n) && WeightedSum(lines[i := r], n) == WeightedSum(lines, n)
  {
    if n > 0 { AlikeAddUpAlike(lines, i, r, n - 1); }
  }

  lemma SameAverage(lines: seq<Line>, other: seq<Line>)
    requires Weight(lines, |lines|) == Weight(other, |other|)
             && WeightedSum(lines, |lines|) == WeightedSum(other, |other|)
    ensures AverageIncrease(lines) == AverageIncrease(other)
  {
  }

  /** An ignored line still counts: neither the average nor the yearly cost changes. */
  lemma IgnoredLinesStillCount(lines: seq<Line>, i: nat)
    requires i < |lines|
    ensures var after := lines[i := Resolved(lines[i], Ignore).value];
            AverageIncrease(after) == AverageIncrease(lines) && YearlyCost(after, |lines|) == YearlyCost(lines, |lines|)
  {
    var r := Resolved(lines[i], Ignore).value;
    AlikeAddUpAlike(lines, i, r, |lines|);
    SameAverage(lines[i := r], lines);
  }

  lemma AverageWithout(lines: seq<Line>, i: nat, r: Line)
    requires i < |lines| && !Weighs(r)
    ensures AverageIncrease(lines[i := r]) == AverageIncrease(lines[..i] + lines[i + 1..])
  {
    var rest := lines[..i] + lines[i + 1..];
    assert |rest| == |lines| - 1 && |lines[i := r]| == |lines|;
    WeightWithout(lines, i, r, |lines|);
    SameAverage(lines[i := r], rest);
  }

  /** Marking a line new or discontinued leaves the average of the other lines, but the line stays in the yearly
      cost. */
  lemma MarkedLinesStillCost(lines: seq<Line>, i: nat, d: Decision)
    requires i < |lines| && d in {MarkNew, MarkDiscontinued}
    ensures var after := lines[i := Resolved(lines[i], d).value];
            && AverageIncrease(after) == AverageIncrease(lines[..i] + lines[i + 1..])
            && YearlyCost(after, |lines|) == YearlyCost(lines, |lines|)
  {
    var r := Resolved(lines[i], d).value;
    assert YearlyCost(lines[i := r], |lines|) == YearlyCost(lines, |lines|) by {
      AlikeAddUpAlike(lines, i, r, |lines|);
    }
    AverageWithout(lines, i, r);
  }

  /** New and discontinued movements go with their status. */
  predicate MovementFits(l: Line) {
    && (l.status == NewProduct <==> l.movement == Some(IsNew))
    && (l.status == Discontinued <==> l.movement == Some(IsDiscontinued))
  }

  /** Entering quantities and recalculating never turns a line into a new or discontinued product, nor back;
      a buyer's decisions can leave a confirmed or ignored line counted as one. */
  lemma QuantitiesKeepTheCounts(l: Line, quantity: real, selling: Option<real>)
    requires MovementFits(l) && WithQuantity(l, quantity, selling).Some?
    ensures var r := WithQuantity(l, quantity, selling).value;
            && MovementFits(r) && (Effective(r) == IsNew <==> Effective(l) == IsNew)
            && (Effective(r) == IsDiscontinued <==> Effective(l) == IsDiscontinued)
  {
  }

  lemma {:induction false} FlagsCoverPackChanges(lines: seq<Line>, n: nat)
    requires n <= |lines| && AllOk(lines)
    ensures CountOf(lines, n, PackChange) <= Flagged(lines, n)
    ensures CountOf(lines, n, PackChange) == Flagged(lines, n) <==>
            forall k :: 0 <= k < n && lines[k].packChanged ==> Effective(lines[k]) == PackChange
  {
    if n > 0 {
      FlagsCoverPackChanges(lines, n - 1);
      assert LineOk(lines[n - 1]);
    }
  }

  /** In every state of a review the matched lines are the increases, decreases, unchanged prices and changed
      packs exactly when each line marked as having another pack also moves by it; otherwise a line is counted
      among the changed packs and somewhere else. */
  lemma PackChangesAddUpExactly(lines: seq<Line>)
    requires AllOk(lines)
    ensures var n := |lines|;
            MatchedLines(lines, n) == CountOf(lines, n, PriceIncrease) + CountOf(lines, n, PriceDecrease) +
                                      CountOf(lines, n, NoChange) + Flagged(lines, n)
            <==> forall k :: 0 <= k < n && lines[k].packChanged ==> Effective(lines[k]) == PackChange
  {
    EveryLineCountsOnce(lines, |lines|);
    FlagsCoverPackChanges(lines, |lines|);
  }

  /** Right after matching, before any movement is worked out, that is exactly when no pack changed. */
  lemma FreshPackChangesAddUpExactly(ratio: (string, string) -> real, olds: seq<Row>, rows: seq<Row>)
    ensures var lines := AllLines(ratio, olds, rows);
            var n := |lines|;
            MatchedLines(lines, n) == CountOf(lines, n, PriceIncrease) + CountOf(lines, n, PriceDecrease) +
                                      CountOf(lines, n, NoChange) + Flagged(lines, n)
            <==> forall k :: 0 <= k < n ==> !lines[k].packChanged
  {
    var lines := AllLines(ratio, olds, rows);
    FreshLinesAreOk(ratio, olds, rows);
    PackChangesAddUpExactly(lines);
    forall k | 0 <= k < |lines| ensures Effective(lines[k]) != PackChange {
      if k < |olds| {
        LineOfRow(ratio, olds, rows, k);
      } else {
        var taken := PriceReview.Taken(LinesFor(ratio, olds, rows));
        NewLinesDoNotMove(Skus(rows), rows, taken, k - |olds|);
      }
    }
  }

  lemma {:induction false} NewLinesDoNotMove(skus: seq<Text>, rows: seq<Row>, taken: set<Text>, k: nat)
    requires forall x :: x in skus ==> Lists(rows, x)
    requires k < |NewLines(skus, rows, taken)|
    ensures Effective(NewLines(skus, rows, taken)[k]) == IsNew
  {
    assert skus == skus[..|skus| - 1] + [skus[|skus| - 1]];
    if k < |NewLines(skus[..|skus| - 1], rows, taken)| { NewLinesDoNotMove(skus[..|skus| - 1], rows, taken, k); }
  }

  // ---------------------------------------------------------------------------
  // Are the figures of a line those of its present prices?
  // ---------------------------------------------------------------------------

  /** Whatever change, risk or price movement the line shows is that of the two prices it compares now. */
  predicate ChangeIsTrue(l: Line) {
    match Compared(l)
    case None => NoChangeShown(l)
    case Some((x, y)) =>
      && (l.figures.absolute.Some? ==> l.figures.absolute == Some(RoundCurrency(y - x)))
      && (l.figures.percentage.Some? ==> l.figures.percentage == PercentageChange(x, y))
      && (Graded(l) ==> l.figures.risk == Some(RiskOf(PercentageChange(x, y))))
      && (Counts(l) ==> l.movement == Some(MovementOf(l.packChanged, PercentageChange(x, y))))
  }

  predicate Graded(l: Line) { l.figures.risk.Some? && l.figures.risk != Some(Unclassified) }

  predicate NoChangeShown(l: Line) {
    l.figures.absolute.None? && l.figures.percentage.None? && !Graded(l) && !Counts(l)
  }

  /** What it shows for a year is the change for its present quantity. */
  predicate ImpactIsTrue(l: Line) {
    l.figures.annualImpact.Some? ==>
      && l.figures.absolute.Some? && l.annualQuantity.Some?
      && l.figures.annualImpact == Some(RoundCurrency(Times(l.figures.absolute.value, l.annualQuantity.value)))
  }

  /** Its margins are those of its present prices at its present selling price. */
  predicate MarginsAreTrue(l: Line) {
    var m := l.figures.margins;
    && (m.before.Some? <==> m.after.Some?) && (m.before.Some? <==> m.movement.Some?)
    && (m.annual.Some? ==> m.movement.Some?)
    && (m.before.Some? ==>
          && Compared(l).Some? && l.sellingPrice.Some? && l.sellingPrice.value != 0.0
          && m.before == Some(GrossMargin(l.sellingPrice.value, Compared(l).value.0))
          && m.after == Some(GrossMargin(l.sellingPrice.value, Compared(l).value.1))
          && m.movement == Some(m.after.value - m.before.value))
    && (m.annual.Some? ==>
          l.annualQuantity.Some? && m.annual == Some(RoundCurrency(Times(m.movement.value, l.annualQuantity.value))))
  }

  predicate Truthful(l: Line) { ChangeIsTrue(l) && ImpactIsTrue(l) && MarginsAreTrue(l) }

  /** A line whose figures for a year, and margins, are all to be worked out anew where they are shown at all. */
  predicate Renews(l: Line) {
    && (l.annualQuantity.None? ==> l.figures.annualImpact.None? && l.figures.margins.annual.None?)
    && (l.sellingPrice.None? ==> l.figures.margins == Margins(None, None, None, None))
  }

  lemma ChangeIsRenewed(l: Line)
    requires IsMatched(l) && Compared(l).Some? && Recalculated(l).Some? && Renews(l)
    ensures ChangeIsTrue(Recalculated(l).value) && ImpactIsTrue(Recalculated(l).value)
  {
    assert Compared(Recalculated(l).value) == Compared(l);
  }

  lemma MarginsAreRenewed(l: Line)
    requires IsMatched(l) && Compared(l).Some? && Recalculated(l).Some? && Renews(l)
    ensures MarginsAreTrue(Recalculated(l).value)
  {
    assert Compared(Recalculated(l).value) == Compared(l);
  }

  lemma WorkedOutIsTrue(l: Line)
    requires IsMatched(l) && Compared(l).Some? && Recalculated(l).Some? && Renews(l)
    ensures Truthful(Recalculated(l).value)
  {
    ChangeIsRenewed(l);
    MarginsAreRenewed(l);
  }

  /** Without two prices to compare the figures for a year and the margins stay. */
  lemma NothingToWorkOut(l: Line)
    requires IsMatched(l) && Compared(l).None?
    ensures Recalculated(l).Some?
    ensures var r := Recalculated(l).value;
            && Compared(r).None? && r.figures.annualImpact == l.figures.annualImpact
            && r.figures.margins == l.figures.margins && r.annualQuantity == l.annualQuantity
            && (if BasisOf(l.before, l.after) == UnitMismatch then NoChangeShown(r)
                else r.figures.absolute == l.figures.absolute && r.figures.percentage == l.figures.percentage
                     && r.figures.risk == l.figures.risk && r.movement == l.movement)
  {
  }

  /** Recalculating never makes a figure untrue. */
  lemma RecalculationKeepsTruth(l: Line)
    requires Truthful(l) && Recalculated(l).Some?
    ensures Truthful(Recalculated(l).value)
  {
    if IsMatched(l) {
      if Compared(l).Some? { WorkedOutIsTrue(l); } else { NothingToWorkOut(l); }
    }
  }

  /** The line a choice turns it into, before it is recalculated. */
  function Chosen(l: Line, c: Line): Line {
    l.(after := Side(c.after.sku, c.after.pack, c.after.price, c.after.normalized, l.after.unit), status := Matched,
       how := Some(ManualOverride))
  }

  predicate NoMargins(l: Line) { l.figures.margins.before.None? }

  /** The new prices compare; or else no yearly impact and no margin was shown, and the units do not match or no
      change was shown either. */
  predicate ChoiceIsSafe(l: Line, c: Line) {
    || Compared(Chosen(l, c)).Some?
    || (l.figures.annualImpact.None? && NoMargins(l)
        && (BasisOf(l.before, Chosen(l, c).after) == UnitMismatch || NoChangeShown(l)))
  }

  /** Choosing another product keeps the figures true if and only if the choice is safe: otherwise figures of the
      product turned down live on. */
  lemma ChoosingKeepsTruthExactly(l: Line, c: Line)
    requires Truthful(l) && Resolved(l, ChooseDifferent(Some(c))).Some?
    ensures Truthful(Resolved(l, ChooseDifferent(Some(c))).value) <==> ChoiceIsSafe(l, c)
  {
    var m := Chosen(l, c);
    assert Resolved(l, ChooseDifferent(Some(c))) == Recalculated(m);
    if Compared(m).Some? { WorkedOutIsTrue(m); } else { NothingToWorkOut(m); }
  }

  /** The margins at another selling price are those already shown. */
  predicate SameMargins(l: Line, selling: real) {
    Compared(l).Some? ==>
      && selling != 0.0
      && l.figures.margins.before == Some(GrossMargin(selling, Compared(l).value.0))
      && l.figures.margins.after == Some(GrossMargin(selling, Compared(l).value.1))
  }

  /** The same figure for a year. */
  predicate SameForYear(annual: Option<real>, each: Option<real>, quantity: real) {
    annual.Some? && each.Some? ==> annual == Some(RoundCurrency(Times(each.value, quantity)))
  }

  /** The line is matched, and so recalculated; or what it shows for a year, and at its selling price, comes to the
      same. */
  predicate EntryIsSafe(l: Line, quantity: real, selling: Option<real>) {
    || IsMatched(l)
    || (&& SameForYear(l.figures.annualImpact, l.figures.absolute, quantity)
        && SameForYear(l.figures.margins.annual, l.figures.margins.movement, quantity)
        && (selling.Some? && !NoMargins(l) ==> SameMargins(l, selling.value)))
  }

  /** Entering a quantity, with or without a selling price, keeps the figures true if and only if that is safe. */
  lemma EnteringKeepsTruthExactly(l: Line, quantity: real, selling: Option<real>)
    requires Truthful(l) && WithQuantity(l, quantity, selling).Some?
    ensures Truthful(WithQuantity(l, quantity, selling).value) <==> EntryIsSafe(l, quantity, selling)
  {
    var m := Entered(l, quantity, selling);
    assert Compared(m) == Compared(l);
    if IsMatched(l) {
      if Compared(l).Some? { WorkedOutIsTrue(m); } else { NothingToWorkOut(m); }
    }
  }

  /** The other decisions always do. */
  lemma OtherDecisionsKeepTruth(l: Line, d: Decision)
    requires Truthful(l) && !d.ChooseDifferent? && Resolved(l, d).Some?
    ensures Truthful(Resolved(l, d).value)
  {
    if d.Confirm? { RecalculationKeepsTruth(l.(status := Matched)); }
  }

  /** What a caller can see before an edit. */
  predicate EditIsSafe(lines: seq<Line>, e: Edit)
    requires Possible(lines, e)
  {
    match e
    case Recalculate(_) => true
    case SetQuantity(i, quantity, selling) =>
      WithQuantity(lines[i], quantity, selling).Some? ==> EntryIsSafe(lines[i], quantity, selling)
    case Resolve(i, d) =>
      d.ChooseDifferent? && d.candidate.Some? && Resolved(lines[i], d).Some? ==>
        ChoiceIsSafe(lines[i], d.candidate.value)
  }

  ghost predicate AllTruthful(lines: seq<Line>) { forall k :: 0 <= k < |lines| ==> Truthful(lines[k]) }

  lemma LineKeepsTruthExactly(lines: seq<Line>, e: Edit)
    requires Possible(lines, e) && Truthful(lines[e.i])
    ensures |Edited(lines, e)| == |lines| && (Truthful(Edited(lines, e)[e.i]) <==> EditIsSafe(lines, e))
  {
    var l := lines[e.i];
    match e
    case Recalculate(i) => if Recalculated(l).Some? { RecalculationKeepsTruth(l); }
    case SetQuantity(i, quantity, selling) =>
      if WithQuantity(l, quantity, selling).Some? { EnteringKeepsTruthExactly(l, quantity, selling); }
    case Resolve(i, d) =>
      if Resolved(l, d).Some? {
        if d.ChooseDifferent? {
          ChoosingKeepsTruthExactly(l, d.candidate.value);
        } else {
          OtherDecisionsKeepTruth(l, d);
        }
      }
  }

  /** An edit keeps every figure of a review true if and only if it is safe. */
  lemma EditKeepsTruthExactly(lines: seq<Line>, e: Edit)
    requires Possible(lines, e) && AllTruthful(lines)
    ensures AllTruthful(Edited(lines, e)) <==> EditIsSafe(lines, e)
  {
    LineKeepsTruthExactly(lines, e);
    var edited := Edited(lines, e);
    assert forall k :: 0 <= k < |lines| && k != e.i ==> edited[k] == lines[k];
  }

  /** Over any run of safe edits every figure stays true, and the first edit that is not safe makes one untrue. */
  lemma {:induction false} RunStaysTruthfulExactly(states: seq<seq<Line>>, edits: seq<Edit>, n: nat)
    requires Run(states, edits) && n < |states| && AllTruthful(states[0])
    ensures (forall k :: 0 <= k <= n ==> AllTruthful(states[k])) <==>
            (forall k :: 0 <= k < n ==> Possible(states[k], edits[k]) && EditIsSafe(states[k], edits[k]))
  {
    if n > 0 {
      RunStaysTruthfulExactly(states, edits, n - 1);
      assert states[n - 1 + 1] == Edited(states[n - 1], edits[n - 1]);
      if AllTruthful(states[n - 1]) { EditKeepsTruthExactly(states[n - 1], edits[n - 1]); }
    }
  }

  lemma FreshLinesAreTruthful(ratio: (string, string) -> real, olds: seq<Row>, rows: seq<Row>)
    ensures AllTruthful(AllLines(ratio, olds, rows))
  {
    var lines := AllLines(ratio, olds, rows);
    forall k | 0 <= k < |lines| ensures Truthful(lines[k]) {
      if k < |olds| {
        LineOfRow(ratio, olds, rows, k);
      } else {
        NewLinesAreBlank(Skus(rows), rows, PriceReview.Taken(LinesFor(ratio, olds, rows)), k - |olds|);
      }
    }
  }

  lemma {:induction false} NewLinesAreBlank(skus: seq<Text>, rows: seq<Row>, taken: set<Text>, k: nat)
    requires forall x :: x in skus ==> Lists(rows, x)
    requires k < |NewLines(skus, rows, taken)|
    ensures NewLines(skus, rows, taken)[k].figures == NO_FIGURES
            && NewLines(skus, rows, taken)[k].movement == Some(IsNew)
  {
    assert skus == skus[..|skus| - 1] + [skus[|skus| - 1]];
    if k < |NewLines(skus[..|skus| - 1], rows, taken)| { NewLinesAreBlank(skus[..|skus| - 1], rows, taken, k); }
  }

  /** The increase of a product turned down lives on: a matched line gets a quantity, then another product that has
      no price, and is still counted among the increases, and still weighs in their average, with no new price. */
  lemma RejectedIncreaseLivesOn(lines: seq<Line>, i: nat, quantity: real, c: Line)
    requires i < |lines| && IsMatched(lines[i]) && lines[i].sellingPrice.None? && quantity > 0.0
    requires BasisOf(lines[i].before, lines[i].after) == Raw && Compared(lines[i]).Some?
    requires !lines[i].packChanged && c.after.price.None? && c.after.normalized.None?
    requires MovementOf(false, PercentageChange(Compared(lines[i]).value.0,
             Compared(lines[i]).value.1)) == PriceIncrease
    ensures var entered := Edited(lines, SetQuantity(i, quantity, None));
            |entered| == |lines| && Possible(entered, Resolve(i, ChooseDifferent(Some(c))))
    ensures var entered := Edited(lines, SetQuantity(i, quantity, None));
            var r := Edited(entered, Resolve(i, ChooseDifferent(Some(c))))[i];
            && r.status == Matched && r.after.price.None? && r.after.normalized.None?
            && r.movement == Some(PriceIncrease) && Weighs(r) && !Truthful(r)
  {
    var l := lines[i];
    var m := Entered(l, quantity, None);
    assert Compared(m) == Compared(l) && Recalculated(m).Some?;
    var n := Chosen(Recalculated(m).value, c);
    NothingToWorkOut(n);
    assert Resolved(Recalculated(m).value, ChooseDifferent(Some(c))) == Recalculated(n);
  }
}
