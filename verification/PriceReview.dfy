/** A price review: every row of the old price list matched against the new list, one line a row, and one
    line for every new product. */
module PriceReview {
  import opened Sql
  import opened Rounding
  import opened Matching
  import PackParser
  import Normalization

  /** A price as a row gives it: none or an empty text, a text that writes a number, or a number. */
  datatype Cell = Blank | Written(value: real) | Number(value: real)

  datatype Row = Row(sku: Text, barcode: Option<Text>, description: Text, pack: Option<Text>, price: Cell)

  datatype LineStatus = Matched | NewProduct | Discontinued | ReviewRequired | Ignored

  datatype Movement = IsNew | IsDiscontinued | NeedsReview | PackChange | PriceIncrease | PriceDecrease | NoChange

  datatype Basis = Normalized | Raw | UnitMismatch

  datatype LineMethod = By(how: MatchMethod) | ManualOverride

  datatype Risk = Unclassified | Low | Medium | High | Critical

  /** What one list says of the product of a line. */
  datatype Side = Side(
    sku: Option<Text>, pack: Option<Text>, price: Option<real>, normalized: Option<real>, unit: Option<string>)

  const ABSENT := Side(None, None, None, None, None)

  /** Gross margins at the old and the new price, the movement between them, and that for a year's quantity. */
  datatype Margins = Margins(before: Option<real>, after: Option<real>, movement: Option<real>, annual: Option<real>)

  /** What is worked out for a line once it is matched. */
  datatype Figures = Figures(
    basis: Option<Basis>, absolute: Option<real>, percentage: Option<real>, risk: Option<Risk>,
    annualImpact: Option<real>, margins: Margins)

  const NO_FIGURES := Figures(None, None, None, None, None, Margins(None, None, None, None))

  datatype Line = Line(
    before: Side, after: Side, status: LineStatus, how: Option<LineMethod>, confidence: Option<real>,
    packChanged: bool, movement: Option<Movement>, annualQuantity: Option<real>, sellingPrice: Option<real>,
    figures: Figures)

  /** The price of a row if it has one: the number zero counts as none, a written zero does not. */
  function PriceOf(c: Cell): Option<real> {
    match c
    case Blank => None
    case Written(v) => Some(v)
    case Number(v) => if v == 0.0 then None else Some(v)
  }

  /** _normalize: a price per base unit, or nothing when the pack cannot be read. */
  function NormalizePrice(pack: Option<Text>, price: Option<real>): (Option<real>, Option<string>) {
    if pack.None? || pack.value == "" || price.None? then (None, None)
    else match PackParser.Parse(Some(pack.value))
      case None => (None, None)
      case Some(p) =>
        match PackParser.PricePerBaseUnit(price.value, p)
        case None => (None, None)
        case Some(n) => (Some(n), Some(p.baseUnit))
  }

  function SideOf(r: Row): Side {
    var price := PriceOf(r.price);
    var (normalized, unit) := NormalizePrice(r.pack, price);
    Side(Some(r.sku), r.pack, price, normalized, unit)
  }

  function Candidate(r: Row): CandidateItem { CandidateItem(r.sku, Some(r.sku), r.barcode, r.description) }

  function Candidates(rows: seq<Row>): (c: seq<CandidateItem>)
    ensures |c| == |rows| && forall i :: 0 <= i < |rows| ==> c[i] == Candidate(rows[i])
  {
    seq(|rows|, i requires 0 <= i < |rows| => Candidate(rows[i]))
  }

  function PackText(pack: Option<Text>): string { if pack.None? then "" else pack.value }

  // ---------------------------------------------------------------------------
  // The rows by SKU: the last row of each, in the order the SKUs first appear.
  // ---------------------------------------------------------------------------

  ghost predicate Lists(rows: seq<Row>, sku: Text) { exists r :: r in rows && r.sku == sku }

  function Skus(rows: seq<Row>): (skus: seq<Text>)
    ensures forall k :: k in skus <==> Lists(rows, k)
    ensures forall i, j :: 0 <= i < j < |skus| ==> skus[i] != skus[j]
  {
    if rows == [] then []
    else
      var last := rows[|rows| - 1];
      assert rows == rows[..|rows| - 1] + [last];
      var before := Skus(rows[..|rows| - 1]);
      if last.sku in before then before else before + [last.sku]
  }

  function RowFor(rows: seq<Row>, sku: Text): (r: Row)
    requires Lists(rows, sku)
    ensures r in rows && r.sku == sku
  {
    var last := rows[|rows| - 1];
    assert rows == rows[..|rows| - 1] + [last];
    if last.sku == sku then last else RowFor(rows[..|rows| - 1], sku)
  }

  /** The row of a SKU is the last one that has it. */
  lemma {:induction false} RowForIsLast(rows: seq<Row>, i: nat)
    requires i < |rows| && forall j :: i < j < |rows| ==> rows[j].sku != rows[i].sku
    ensures Lists(rows, rows[i].sku) && RowFor(rows, rows[i].sku) == rows[i]
  {
    assert rows[i] in rows;
    var init := rows[..|rows| - 1];
    if i < |init| { RowForIsLast(init, i); }
  }

  /** SKUs are listed in the order in which they first appear: later rows only add behind. */
  lemma {:induction false} SkusInOrder(rows: seq<Row>, n: nat)
    requires n <= |rows|
    ensures Skus(rows[..n]) <= Skus(rows)
  {
    if n < |rows| {
      var init := rows[..|rows| - 1];
      SkusInOrder(init, n);
      assert init[..n] == rows[..n];
    } else {
      assert rows[..n] == rows;
    }
  }

  // ---------------------------------------------------------------------------
  // The lines.
  // ---------------------------------------------------------------------------

  function UnmatchedLine(r: Row): Line {
    Line(SideOf(r), ABSENT, Discontinued, Some(By(Unmatched)), None, false, Some(IsDiscontinued), None, None,
         NO_FIGURES)
  }

  function NewLine(r: Row): Line {
    Line(ABSENT, SideOf(r), NewProduct, Some(By(Unmatched)), None, false, Some(IsNew), None, None, NO_FIGURES)
  }

  function MatchedLine(r: Row, found: Row, m: MatchResult): Line {
    Line(SideOf(r), SideOf(found), if m.status == AutoMatched then Matched else ReviewRequired, Some(By(m.how)),
         Some(RoundCurrency(m.confidence)), PackText(r.pack) != PackText(found.pack), None, None, None, NO_FIGURES)
  }

  /** The row of the new list a row of the old one is matched with. */
  function Partner(ratio: (string, string) -> real, r: Row, rows: seq<Row>): (p: Option<Row>)
    ensures p.Some? ==> p.value in rows
    ensures p.Some? <==> ResultFor(ratio, Candidate(r), Candidates(rows)).newKey.Some?
    ensures p.Some? ==> ResultFor(ratio, Candidate(r), Candidates(rows)).newKey == Some(p.value.sku)
    ensures p.Some? ==> Lists(rows, p.value.sku) && p.value == RowFor(rows, p.value.sku)
  {
    var b := BestMatch(Rated(ratio, Candidate(r), Candidates(rows)));
    if b.None? then None
    else
      assert rows[b.value] in rows;
      Some(RowFor(rows, rows[b.value].sku))
  }

  function LineFor(ratio: (string, string) -> real, r: Row, rows: seq<Row>): Line {
    match Partner(ratio, r, rows)
    case None => UnmatchedLine(r)
    case Some(found) => MatchedLine(r, found, ResultFor(ratio, Candidate(r), Candidates(rows)))
  }

  function LinesFor(ratio: (string, string) -> real, olds: seq<Row>, rows: seq<Row>): (lines: seq<Line>)
    ensures |lines| == |olds|
  {
    if olds == [] then [] else LinesFor(ratio, olds[..|olds| - 1], rows) + [LineFor(ratio, olds[|olds| - 1], rows)]
  }

  /** The SKUs of the new list that a line carries. */
  function Taken(lines: seq<Line>): set<Text> { set l | l in lines && l.after.sku.Some? :: l.after.sku.value }

  function NewLines(skus: seq<Text>, rows: seq<Row>, taken: set<Text>): seq<Line>
    requires forall k :: k in skus ==> Lists(rows, k)
  {
    if skus == [] then []
    else
      var last := skus[|skus| - 1];
      assert skus == skus[..|skus| - 1] + [last];
      NewLines(skus[..|skus| - 1], rows, taken) + (if last in taken then [] else [NewLine(RowFor(rows, last))])
  }

  /** All lines run_matching adds. */
  function AllLines(ratio: (string, string) -> real, olds: seq<Row>, rows: seq<Row>): seq<Line> {
    var lines := LinesFor(ratio, olds, rows);
    lines + NewLines(Skus(rows), rows, Taken(lines))
  }

  /** The body of the first loop of run_matching, with the SKU it marks as matched. */
  method MatchRow(ratio: (string, string) -> real, r: Row, rows: seq<Row>) returns (line: Line, key: Option<Text>)
    requires IsSimilarity(ratio)
    ensures line == LineFor(ratio, r, rows) && key == line.after.sku
  {
    var m := FindBestMatch(ratio, Candidate(r), Candidates(rows));
    ghost var partner := Partner(ratio, r, rows);
    if m.newKey.None? {
      return UnmatchedLine(r), None;
    }
    assert Lists(rows, partner.value.sku);
    var found := RowFor(rows, m.newKey.value);
    return MatchedLine(r, found, m), Some(m.newKey.value);
  }

  /** The first loop of run_matching. */
  method MatchRows(ratio: (string, string) -> real, olds: seq<Row>, rows: seq<Row>)
    returns (lines: seq<Line>, taken: set<Text>)
    requires IsSimilarity(ratio)
    ensures lines == LinesFor(ratio, olds, rows) && taken == Taken(lines)
  {
    lines, taken := [], {};
    for i := 0 to |olds|
      invariant lines == LinesFor(ratio, olds[..i], rows) && taken == Taken(lines)
    {
      lines, taken := AddMatch(ratio, olds, i, rows, lines, taken);
    }
    assert olds[..|olds|] == olds;
  }

  method AddMatch(ratio: (string, string) -> real, olds: seq<Row>, i: nat, rows: seq<Row>, before: seq<Line>,
      takenBefore: set<Text>) returns (lines: seq<Line>, taken: set<Text>)
    requires IsSimilarity(ratio) && i < |olds|
    requires before == LinesFor(ratio, olds[..i], rows) && takenBefore == Taken(before)
    ensures lines == LinesFor(ratio, olds[..i + 1], rows) && taken == Taken(lines)
  {
    var line, key := MatchRow(ratio, olds[i], rows);
    lines, taken := before + [line], takenBefore;
    if key.Some? {
      taken := taken + {key.value};
    }
    LinesGrow(ratio, olds, rows, i);
    TakenGrows(before, line);
  }

  /** run_matching */
  method RunMatching(ratio: (string, string) -> real, olds: seq<Row>, rows: seq<Row>) returns (lines: seq<Line>)
    requires IsSimilarity(ratio)
    ensures lines == AllLines(ratio, olds, rows)
  {
    var matched, taken := MatchRows(ratio, olds, rows);
    lines := AddNewProducts(matched, rows, taken);
  }

  /** The second loop of run_matching. */
  method AddNewProducts(matched: seq<Line>, rows: seq<Row>, taken: set<Text>) returns (lines: seq<Line>)
    ensures lines == matched + NewLines(Skus(rows), rows, taken)
  {
    var skus := Skus(rows);
    lines := matched;
    for j := 0 to |skus|
      invariant lines == matched + NewLines(skus[..j], rows, taken)
    {
      assert skus[..j + 1][..j] == skus[..j];
      if skus[j] !in taken {
        lines := lines + [NewLine(RowFor(rows, skus[j]))];
      }
    }
    assert skus[..|skus|] == skus;
  }

  lemma LinesGrow(ratio: (string, string) -> real, olds: seq<Row>, rows: seq<Row>, i: nat)
    requires i < |olds|
    ensures LinesFor(ratio, olds[..i + 1], rows) == LinesFor(ratio, olds[..i], rows) + [LineFor(ratio, olds[i], rows)]
  {
    assert olds[..i + 1][..i] == olds[..i];
  }

  lemma TakenGrows(lines: seq<Line>, l: Line)
    ensures Taken(lines + [l]) == Taken(lines) + (if l.after.sku.Some? then {l.after.sku.value} else {})
  {
    forall k | k in Taken(lines) ensures k in Taken(lines + [l]) {
      var m :| m in lines && m.after.sku == Some(k);
      assert m in lines + [l];
    }
    assert l in lines + [l];
  }

  // ---------------------------------------------------------------------------
  // Every row has its line.
  // ---------------------------------------------------------------------------

  lemma {:induction false} LineOfRow(ratio: (string, string) -> real, olds: seq<Row>, rows: seq<Row>, i: nat)
    requires i < |olds|
    ensures LinesFor(ratio, olds, rows)[i] == LineFor(ratio, olds[i], rows)
  {
    if i < |olds| - 1 { LineOfRow(ratio, olds[..|olds| - 1], rows, i); }
  }

  /** The i-th line is that of the i-th old row: discontinued when nothing plausible is found, and otherwise
      holding the new row of the best match's SKU. */
  lemma LinePerOldRow(ratio: (string, string) -> real, olds: seq<Row>, rows: seq<Row>, i: nat)
    requires i < |olds|
    ensures var l := AllLines(ratio, olds, rows)[i];
            var m := ResultFor(ratio, Candidate(olds[i]), Candidates(rows));
            && |AllLines(ratio, olds, rows)| >= |olds|
            && l.before == SideOf(olds[i]) && l.status != NewProduct
            && (l.status == Discontinued <==> m.newKey.None?)
            && (m.newKey.Some? ==>
                  && l.after.sku.Some? && m.newKey.value == l.after.sku.value && Lists(rows, l.after.sku.value)
                  && l.after == SideOf(RowFor(rows, l.after.sku.value))
                  && (l.status == Matched <==> m.status == AutoMatched))
  {
    LineOfRow(ratio, olds, rows, i);
  }

  /** What else the line says: how it was matched and how surely, and whether the pack texts differ; nothing is worked
      out for it yet. */
  lemma LineOfMatch(ratio: (string, string) -> real, olds: seq<Row>, rows: seq<Row>, i: nat)
    requires i < |olds|
    ensures |AllLines(ratio, olds, rows)| >= |olds|
    ensures var l := AllLines(ratio, olds, rows)[i];
            var m := ResultFor(ratio, Candidate(olds[i]), Candidates(rows));
            && l.figures == NO_FIGURES && l.annualQuantity.None? && l.sellingPrice.None?
            && (m.newKey.None? ==>
                  && l.after == ABSENT && l.how == Some(By(Unmatched)) && l.confidence.None? && !l.packChanged
                  && l.movement == Some(IsDiscontinued))
            && (m.newKey.Some? ==>
                  && (l.status == ReviewRequired <==> m.status != AutoMatched) && l.how == Some(By(m.how))
                  && l.confidence.Some? && IsRounded(l.confidence.value, m.confidence, CURRENCY)
                  && (l.packChanged <==> PackText(l.before.pack) != PackText(l.after.pack)) && l.movement.None?)
  {
    LineOfRow(ratio, olds, rows, i);
    QuantizeIsRounded(ResultFor(ratio, Candidate(olds[i]), Candidates(rows)).confidence, CURRENCY);
  }

  /** A new row with the same SKU, the same barcode or the same words in the same order, wherever it is listed, makes
      the line matched without review. */
  lemma SameRowIsMatched(ratio: (string, string) -> real, olds: seq<Row>, rows: seq<Row>, i: nat, j: nat)
    requires IsSimilarity(ratio) && i < |olds| && j < |rows|
    requires MatchBySku(Some(olds[i].sku), Some(rows[j].sku)) || MatchByBarcode(olds[i].barcode, rows[j].barcode)
             || SameWords(olds[i].description, rows[j].description)
    ensures |AllLines(ratio, olds, rows)| >= |olds| && AllLines(ratio, olds, rows)[i].status == Matched
  {
    var wanted, items := Candidate(olds[i]), Candidates(rows);
    LinePerOldRow(ratio, olds, rows, i);
    LineOfMatch(ratio, olds, rows, i);
    var rated := Rated(ratio, wanted, items);
    RatedAt(ratio, wanted, items, j);
    ScoreMeans(ratio, wanted, items[j]);
    assert rated[j].0 >= 0.98;
    assert rated[BestOf(rated, |rated|)].0 >= rated[j].0;
  }

  /** Codes match exactly when both say something and what they say between blanks is the same, for SKUs in any letter
      case. */
  lemma CodesMatchExactly(x: string, s: string, y: string, z: string, t: string, w: string)
    requires PackParser.All(PackParser.Spaces, x) && PackParser.All(PackParser.Spaces, y)
    requires PackParser.All(PackParser.Spaces, z) && PackParser.All(PackParser.Spaces, w)
    requires Normalization.IsAscii(x + s + y) && Normalization.IsAscii(z + t + w) && IsSaid(s) && IsSaid(t)
    ensures MatchBySku(Some(x + s + y), Some(z + t + w)) <==> Normalization.Lowered(s) == Normalization.Lowered(t)
    ensures MatchByBarcode(Some(x + s + y), Some(z + t + w)) <==> s == t
  {
    PackParser.StripAround(x, s, y);
    PackParser.StripAround(z, t, w);
  }

  /** A code that is not given or empty matches nothing. Blanks are neither, and any two such codes match. */
  lemma BlankCodesMatch(a: Option<Text>, b: Option<Text>)
    ensures a.None? || b.None? || a.value == "" || b.value == "" ==> !MatchBySku(a, b) && !MatchByBarcode(a, b)
    ensures a.Some? && b.Some? && a.value != "" && b.value != ""
            && PackParser.All(PackParser.Spaces, a.value) && PackParser.All(PackParser.Spaces, b.value) ==>
              MatchBySku(a, b) && MatchByBarcode(a, b)
  {
    if a.Some? && PackParser.All(PackParser.Spaces, a.value) { BlanksAreStripped(a.value); }
    if b.Some? && PackParser.All(PackParser.Spaces, b.value) { BlanksAreStripped(b.value); }
  }

  lemma {:induction false} BlanksAreStripped(s: string)
    requires PackParser.All(PackParser.Spaces, s)
    ensures Normalization.StripLeft(s) == "" && Normalization.Strip(s) == ""
  {
    if s != "" {
      assert s[0] in s;
      BlanksAreStripped(s[1..]);
    }
  }

  /** Something without a blank at either end. */
  predicate IsSaid(s: string) {
    s != "" && !Normalization.IsSpace(s[0]) && !Normalization.IsSpace(s[|s| - 1])
  }

  /** The price of a side is there unless the cell is blank or the number zero; it is normalised exactly when the pack
      can be read and does not come to nothing, and then makes up the price with the base quantity. */
  lemma SideMeans(r: Row)
    ensures var side := SideOf(r);
            && side.sku == Some(r.sku) && side.pack == r.pack
            && (side.price.None? <==> r.price == Blank || r.price == Number(0.0))
            && (side.price.Some? ==> r.price == Written(side.price.value) || r.price == Number(side.price.value))
            && (side.normalized.Some? <==> side.unit.Some?)
            && (side.normalized.Some? <==>
                  side.price.Some? && ReadPack(r).Some? && ReadPack(r).value.baseQuantity != 0.0)
            && (side.normalized.Some? ==>
                  && side.unit == Some(ReadPack(r).value.baseUnit)
                  && side.normalized.value * ReadPack(r).value.baseQuantity == side.price.value)
  {
  }

  function ReadPack(r: Row): Option<PackParser.ParsedPack> { PackParser.Parse(r.pack) }

  /** Does one of the lines carry this SKU of the new list? */
  ghost predicate Carries(lines: seq<Line>, sku: Text) {
    exists i :: 0 <= i < |lines| && lines[i].after.sku == Some(sku)
  }

  /** A line for a product of the new list alone: the last row of its SKU, with nothing to compare and nothing worked
      out. */
  ghost predicate IsAddition(l: Line, rows: seq<Row>) {
    && l.status == NewProduct && l.movement == Some(IsNew) && l.before == ABSENT
    && l.after.sku.Some? && Lists(rows, l.after.sku.value) && l.after == SideOf(RowFor(rows, l.after.sku.value))
    && l.how == Some(By(Unmatched)) && l.confidence.None? && !l.packChanged
    && l.annualQuantity.None? && l.sellingPrice.None? && l.figures == NO_FIGURES
  }

  /** A new-product line is for a SKU not taken. */
  ghost predicate IsNewLine(l: Line, skus: seq<Text>, rows: seq<Row>, taken: set<Text>) {
    IsAddition(l, rows) && l.after.sku.value in skus && l.after.sku.value !in taken
  }

  lemma {:induction false} NewLinesAre(skus: seq<Text>, rows: seq<Row>, taken: set<Text>)
    requires forall k :: k in skus ==> Lists(rows, k)
    ensures forall l :: l in NewLines(skus, rows, taken) ==> IsNewLine(l, skus, rows, taken)
  {
    if skus != [] {
      assert skus == skus[..|skus| - 1] + [skus[|skus| - 1]];
      NewLinesAre(skus[..|skus| - 1], rows, taken);
    }
  }

  lemma {:induction false} NewLinesCover(skus: seq<Text>, rows: seq<Row>, taken: set<Text>, k: Text)
    requires forall x :: x in skus ==> Lists(rows, x)
    requires k in skus && k !in taken
    ensures Carries(NewLines(skus, rows, taken), k)
  {
    var init, last := skus[..|skus| - 1], skus[|skus| - 1];
    assert skus == init + [last];
    var had, lines := NewLines(init, rows, taken), NewLines(skus, rows, taken);
    if k == last {
      assert lines[|had|].after.sku == Some(k);
    } else {
      NewLinesCover(init, rows, taken, k);
      var i :| 0 <= i < |had| && had[i].after.sku == Some(k);
      assert lines[i] == had[i];
    }
  }

  ghost predicate SkusDiffer(lines: seq<Line>) {
    forall i, j :: 0 <= i < j < |lines| ==> lines[i].after.sku != lines[j].after.sku
  }

  lemma {:induction false} NewLinesDiffer(skus: seq<Text>, rows: seq<Row>, taken: set<Text>)
    requires forall k :: k in skus ==> Lists(rows, k)
    requires forall i, j :: 0 <= i < j < |skus| ==> skus[i] != skus[j]
    ensures SkusDiffer(NewLines(skus, rows, taken))
  {
    if skus != [] {
      var init, last := skus[..|skus| - 1], skus[|skus| - 1];
      assert skus == init + [last];
      NewLinesDiffer(init, rows, taken);
      NewLinesAre(init, rows, taken);
      var had := NewLines(init, rows, taken);
      assert last !in init;
      forall i | 0 <= i < |had| ensures had[i].after.sku != Some(last) { assert had[i] in had; }
    }
  }

  lemma TakenMeans(lines: seq<Line>, k: Text)
    ensures k in Taken(lines) <==> Carries(lines, k)
  {
    if k in Taken(lines) {
      var l :| l in lines && l.after.sku == Some(k);
      var i :| 0 <= i < |lines| && lines[i] == l;
    }
    if i :| 0 <= i < |lines| && lines[i].after.sku == Some(k) { assert lines[i] in lines; }
  }

  ghost predicate EachOnce(matched: seq<Line>, added: seq<Line>, rows: seq<Row>) {
    && (forall k :: Lists(rows, k) ==> (Carries(matched, k) <==> !Carries(added, k)))
    && SkusDiffer(added)
    && (forall l :: l in added ==> IsAddition(l, rows))
  }

  lemma AddedOrTaken(skus: seq<Text>, rows: seq<Row>, taken: set<Text>, k: Text)
    requires forall x :: x in skus ==> Lists(rows, x)
    requires k in skus
    ensures k in taken <==> !Carries(NewLines(skus, rows, taken), k)
  {
    var added := NewLines(skus, rows, taken);
    NewLinesAre(skus, rows, taken);
    if k !in taken {
      NewLinesCover(skus, rows, taken, k);
    } else {
      forall i | 0 <= i < |added| ensures added[i].after.sku != Some(k) { assert added[i] in added; }
    }
  }

  lemma AdditionsComplete(matched: seq<Line>, rows: seq<Row>)
    ensures EachOnce(matched, NewLines(Skus(rows), rows, Taken(matched)), rows)
  {
    var skus, taken := Skus(rows), Taken(matched);
    forall k | Lists(rows, k) ensures Carries(matched, k) <==> !Carries(NewLines(skus, rows, taken), k) {
      TakenMeans(matched, k);
      AddedOrTaken(skus, rows, taken, k);
    }
    NewLinesAre(skus, rows, taken);
    NewLinesDiffer(skus, rows, taken);
  }

  /** Every SKU of the new list is either the target of a match or has exactly one new-product line, never
      both, however often it is listed; and no other line is added. */
  lemma EveryNewSkuOnce(ratio: (string, string) -> real, olds: seq<Row>, rows: seq<Row>)
    ensures |AllLines(ratio, olds, rows)| >= |olds|
    ensures EachOnce(AllLines(ratio, olds, rows)[..|olds|], AllLines(ratio, olds, rows)[|olds|..], rows)
  {
    var first := LinesFor(ratio, olds, rows);
    var second := NewLines(Skus(rows), rows, Taken(first));
    AdditionsComplete(first, rows);
    assert (first + second)[..|olds|] == first && (first + second)[|olds|..] == second;
  }
}
