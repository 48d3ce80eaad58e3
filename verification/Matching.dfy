/** Scoring an old price-list row against a new one, and the best match among all new rows.  The
    character similarity is any function into 0..1. */
module Matching {
  import opened Sql
  import opened Rounding
  import opened Normalization
  import Digits

  type Text = s: string | IsAscii(s)

  datatype MatchMethod = ExactSku | ExactBarcode | ExactDescription | Fuzzy | Unmatched

  datatype MatchStatus = AutoMatched | ReviewRecommended | ManualReviewRequired | NoCandidate

  datatype CandidateItem = CandidateItem(key: string, sku: Option<Text>, barcode: Option<Text>, description: Text)

  datatype MatchResult = MatchResult(
    oldKey: string, newKey: Option<string>, confidence: real, how: MatchMethod, status: MatchStatus)

  const AUTO_MATCH_THRESHOLD := 0.95
  const REVIEW_RECOMMENDED_THRESHOLD := 0.80
  const NO_PLAUSIBLE_MATCH_FLOOR := 0.45
  const VARIANT_CONFLICT_SCORE_CAP := 0.55
  const EXACT_DESCRIPTION_SCORE := 0.98

  ghost predicate IsSimilarity(ratio: (string, string) -> real) { forall a, b :: 0.0 <= ratio(a, b) <= 1.0 }

  // ---------------------------------------------------------------------------
  // The exact stages.
  // ---------------------------------------------------------------------------

  predicate Given(s: Option<Text>) { s.Some? && s.value != "" }

  predicate MatchBySku(a: Option<Text>, b: Option<Text>) {
    Given(a) && Given(b) && Lowered(Strip(a.value)) == Lowered(Strip(b.value))
  }

  predicate MatchByBarcode(a: Option<Text>, b: Option<Text>) {
    Given(a) && Given(b) && Strip(a.value) == Strip(b.value)
  }

  predicate MatchByDescription(a: Text, b: Text) {
    a != "" && b != "" && NormalizeDescription(a) == NormalizeDescription(b)
  }

  // ---------------------------------------------------------------------------
  // The fuzzy stage.
  // ---------------------------------------------------------------------------

  const PACK_NOISE_WORDS := {"x", "ml", "l", "kg", "g", "ea", "each", "unit", "units", "case", "of"}

  predicate IsDigits(s: string) { s != "" && Digits.AllDigits(s) }

  /** \d+(\.\d+)? */
  predicate IsNumber(t: string) {
    IsDigits(t) || exists i :: 0 < i < |t| && t[i] == '.' && IsDigits(t[..i]) && IsDigits(t[i + 1..])
  }

  function IdentityTokens(normalized: string): set<string> {
    if normalized == "" then {} else set t | t in Split(normalized) && t !in PACK_NOISE_WORDS && !IsNumber(t)
  }

  /** Shared identity tokens as a part of all of them. */
  function TokenOverlap(a: string, b: string): real { Jaccard(IdentityTokens(a), IdentityTokens(b)) }

  function Jaccard(s: set<string>, t: set<string>): real {
    if s == {} || t == {} then 0.0
    else
      assert s + t != {};
      Over(|s * t| as real, |s + t| as real)
  }

  function FuzzyRatio(ratio: (string, string) -> real, a: string, b: string): real {
    if a == "" || b == "" then 0.0 else ratio(a, b)
  }

  function CombinedScore(ratio: (string, string) -> real, a: Text, b: Text): real {
    var x, y := NormalizeDescription(a), NormalizeDescription(b);
    Blend(FuzzyRatio(ratio, x, y), TokenOverlap(x, y))
  }

  predicate HasConflictingVariant(a: Text, b: Text) {
    var g, h := FindVariantGroup(NormalizeDescription(a)), FindVariantGroup(NormalizeDescription(b));
    g.Some? && h.Some? && g != h
  }

  function ScorePair(ratio: (string, string) -> real, a: CandidateItem, b: CandidateItem): (real, MatchMethod) {
    if MatchBySku(a.sku, b.sku) then (1.0, ExactSku)
    else if MatchByBarcode(a.barcode, b.barcode) then (1.0, ExactBarcode)
    else if MatchByDescription(a.description, b.description) then (EXACT_DESCRIPTION_SCORE, ExactDescription)
    else
      var score := CombinedScore(ratio, a.description, b.description);
      (Capped(score, HasConflictingVariant(a.description, b.description)), Fuzzy)
  }

  function Capped(score: real, conflict: bool): (r: real)
    ensures r <= score && (conflict ==> r <= VARIANT_CONFLICT_SCORE_CAP)
    ensures r == score || r == VARIANT_CONFLICT_SCORE_CAP
  {
    if conflict && score > VARIANT_CONFLICT_SCORE_CAP then VARIANT_CONFLICT_SCORE_CAP else score
  }

  function ClassifyStatus(confidence: real): MatchStatus {
    if confidence >= AUTO_MATCH_THRESHOLD then AutoMatched
    else if confidence >= REVIEW_RECOMMENDED_THRESHOLD then ReviewRecommended
    else ManualReviewRequired
  }

  lemma SubsetSize(s: set<string>, t: set<string>)
    requires s <= t
    ensures |s| <= |t| && (|s| == |t| ==> s == t)
  {
    assert t == s + (t - s);
    assert |t| == |s| + |t - s|;
    if |s| == |t| { assert t - s == {}; }
  }

  lemma JaccardMeans(s: set<string>, t: set<string>)
    ensures 0.0 <= Jaccard(s, t) <= 1.0 && Jaccard(s, t) == Jaccard(t, s)
    ensures Jaccard(s, t) == 1.0 <==> s != {} && s == t
  {
    assert s * t == t * s && s + t == t + s;
    if s != {} && t != {} {
      SubsetSize(s * t, s + t);
      assert s + t != {};
      PartOfWhole(|s * t|, |s + t|);
      if s == t { assert s * t == s + t; }
    }
  }

  lemma PartOfWhole(part: nat, whole: nat)
    requires part <= whole && whole > 0
    ensures 0.0 <= Over(part as real, whole as real) <= 1.0
    ensures Over(part as real, whole as real) == 1.0 <==> part == whole
  {
    OverMonotone(part as real, whole as real, whole as real);
    OverMonotone(0.0, part as real, whole as real);
    OverTimes(part as real, whole as real);
  }

  /** The overlap runs from 0 to 1, does not depend on which side is which, and is 1 exactly for equal
      non-empty sets of identity tokens: word order and pack notation play no part. */
  lemma OverlapMeans(a: string, b: string)
    ensures 0.0 <= TokenOverlap(a, b) <= 1.0 && TokenOverlap(a, b) == TokenOverlap(b, a)
    ensures TokenOverlap(a, b) == 1.0 <==> IdentityTokens(a) != {} && IdentityTokens(a) == IdentityTokens(b)
  {
    JaccardMeans(IdentityTokens(a), IdentityTokens(b));
  }

  function Blend(x: real, y: real): real { RoundCurrency(Times(0.4, x) + Times(0.6, y)) }

  lemma BlendRange(x: real, y: real)
    requires 0.0 <= x <= 1.0 && 0.0 <= y <= 1.0
    ensures 0.0 <= Blend(x, y) <= 1.0
  {
    var score := Times(0.4, x) + Times(0.6, y);
    QuantizeMonotone(0.0, score, CURRENCY);
    QuantizeMonotone(score, 1.0, CURRENCY);
    QuantizeOfGrid(0, CURRENCY);
    QuantizeOfGrid(10000, CURRENCY);
    assert Over(0.0, CURRENCY) == 0.0 && Over(10000.0, CURRENCY) == 1.0;
  }

  /** The words of a description that tell its product: neither pack notation nor numbers nor stopwords. */
  function IdentityWords(a: Text): set<string> {
    set w | w in Words(a) && w !in STOPWORDS && w !in PACK_NOISE_WORDS && exists c :: c in w && !('0' <= c <= '9')
  }

  lemma IdentityTokensAreWords(a: Text)
    ensures IdentityTokens(NormalizeDescription(a)) == IdentityWords(a)
  {
    TokensAreTheWords(a);
    KeptAreKept(Words(a));
    NoWordsInNothing();
    TokensAreTokens(a);
    JoinIsTidy(Tokens(a));
    if Tokens(a) != [] { NormalFormSplits(a); }
    forall t | t in Tokens(a) ensures IsNumber(t) <==> forall c :: c in t ==> '0' <= c <= '9' {
      TokenHasNoPoint(t);
    }
  }

  lemma TokenHasNoPoint(t: string)
    requires IsToken(t)
    ensures IsNumber(t) <==> forall c :: c in t ==> '0' <= c <= '9'
  {
    forall i | 0 <= i < |t| ensures t[i] != '.' && t[i] in t { assert t[i] in t && IsPlain(t[i]); }
    if IsDigits(t) {
      forall c | c in t ensures '0' <= c <= '9' { var i :| 0 <= i < |t| && t[i] == c; }
    }
  }

  /** share is the common part of all elements of both. */
  predicate IsShare(share: real, s: set<string>, t: set<string>) {
    if s == {} || t == {} then share == 0.0 else share * |s + t| as real == |s * t| as real
  }

  lemma JaccardIsShare(s: set<string>, t: set<string>)
    ensures IsShare(Jaccard(s, t), s, t)
  {
    if s != {} && t != {} {
      assert s + t != {};
      OverTimes(|s * t| as real, |s + t| as real);
    }
  }

  /** What two descriptions are worth to each other: four tenths the similarity of their normal forms, nothing where
      one is empty, and six tenths the share of identity words they have in common, to four decimals. */
  lemma CombinedScoreMeans(ratio: (string, string) -> real, a: Text, b: Text)
    ensures exists share :: IsShare(share, IdentityWords(a), IdentityWords(b)) &&
              IsRounded(CombinedScore(ratio, a, b),
                        0.4 * (if Tokens(a) == [] || Tokens(b) == [] then 0.0
                               else ratio(Join(Tokens(a)), Join(Tokens(b)))) + 0.6 * share, CURRENCY)
  {
    var x, y := NormalizeDescription(a), NormalizeDescription(b);
    NormalFormIsJoined(a);
    NormalFormIsJoined(b);
    IdentityTokensAreWords(a);
    IdentityTokensAreWords(b);
    JaccardIsShare(IdentityWords(a), IdentityWords(b));
    QuantizeIsRounded(Times(0.4, FuzzyRatio(ratio, x, y)) + Times(0.6, TokenOverlap(x, y)), CURRENCY);
    assert IsShare(TokenOverlap(x, y), IdentityWords(a), IdentityWords(b));
  }

  lemma NormalFormIsJoined(a: Text)
    ensures NormalizeDescription(a) == Join(Tokens(a)) && (NormalizeDescription(a) == "" <==> Tokens(a) == [])
  {
    NoWordsInNothing();
    TokensAreTokens(a);
    JoinIsTidy(Tokens(a));
  }

  /** The score of a pair: certain with a common code, nearly so with the same words in the same order, and otherwise
      what the descriptions are worth to each other, at most the cap for competing variants. */
  lemma ScoreMeans(ratio: (string, string) -> real, a: CandidateItem, b: CandidateItem)
    ensures var (score, how) := ScorePair(ratio, a, b);
            var worth := CombinedScore(ratio, a.description, b.description);
            if MatchBySku(a.sku, b.sku) then score == 1.0 && how == ExactSku
            else if MatchByBarcode(a.barcode, b.barcode) then score == 1.0 && how == ExactBarcode
            else if SameWords(a.description, b.description) then score == 0.98 && how == ExactDescription
            else
              && how == Fuzzy
              && score == if HasConflictingVariant(a.description, b.description) && worth > 0.55 then 0.55 else worth
  {
    NormalFormsMeanWords(a.description, b.description);
  }

  /** Two descriptions of something with the same words in the same order, stopwords aside. */
  predicate SameWords(a: Text, b: Text) { a != "" && b != "" && Kept(Words(a)) == Kept(Words(b)) }

  /** Descriptions conflict exactly when each has a group of variants and the groups are not the same. */
  lemma ConflictMeans(a: Text, b: Text)
    ensures HasConflictingVariant(a, b) <==> exists i: nat, j: nat {:trigger VariantOf(a, i), VariantOf(b, j)} ::
              i != j && VariantOf(a, i) && VariantOf(b, j)
  {
    var g, h := FindVariantGroup(NormalizeDescription(a)), FindVariantGroup(NormalizeDescription(b));
    if HasConflictingVariant(a, b) { assert VariantOf(a, g.value) && VariantOf(b, h.value); }
  }

  /** Is i the first group with a variant that the normal form shows? */
  ghost predicate VariantOf(a: Text, i: nat) {
    && i < |VARIANT_CONFLICT_GROUPS| && ShowsAny(NormalizeDescription(a), VARIANT_CONFLICT_GROUPS[i])
    && forall j :: 0 <= j < i ==> !ShowsAny(NormalizeDescription(a), VARIANT_CONFLICT_GROUPS[j])
  }

  /** Scores of 0.95 and more are matched, of 0.80 and more recommended. */
  lemma StatusMeans(confidence: real)
    ensures ClassifyStatus(confidence) == AutoMatched <==> confidence >= 0.95
    ensures ClassifyStatus(confidence) == ReviewRecommended <==> 0.80 <= confidence < 0.95
    ensures ClassifyStatus(confidence) == ManualReviewRequired <==> confidence < 0.80
  {
  }

  lemma CombinedScoreRange(ratio: (string, string) -> real, a: Text, b: Text)
    requires IsSimilarity(ratio)
    ensures 0.0 <= CombinedScore(ratio, a, b) <= 1.0
  {
    var x, y := NormalizeDescription(a), NormalizeDescription(b);
    JaccardMeans(IdentityTokens(x), IdentityTokens(y));
    BlendRange(FuzzyRatio(ratio, x, y), TokenOverlap(x, y));
  }

  /** Competing variants are never matched on their descriptions: without a common SKU or barcode they
      score at most the cap and stay with a person. */
  lemma ConflictStaysManual(ratio: (string, string) -> real, a: CandidateItem, b: CandidateItem)
    requires HasConflictingVariant(a.description, b.description)
    ensures !MatchByDescription(a.description, b.description)
    ensures !MatchBySku(a.sku, b.sku) && !MatchByBarcode(a.barcode, b.barcode) ==>
              var (score, how) := ScorePair(ratio, a, b);
              how == Fuzzy && score <= VARIANT_CONFLICT_SCORE_CAP && ClassifyStatus(score) == ManualReviewRequired
  {
  }

  /** Is the description one of a mature or matured product, extra mature ones included? */
  predicate IsMature(a: Text) { "mature" in Tokens(a) || "matured" in Tokens(a) }

  /** Two extra mature, or a mature and an extra mature, description never conflict. */
  lemma MatureAndExtraMatureDoNotConflict(a: Text, b: Text)
    requires IsMature(a) && IsMature(b)
    ensures !HasConflictingVariant(a, b)
  {
    ExtraMatureIsTakenForMature(a);
    ExtraMatureIsTakenForMature(b);
  }

  /** Descriptions of punctuation and stopwords alone all have the empty normal form, so any two of them match
      exactly, and nothing else matches one exactly; such a match is made without review. */
  lemma NothingToCompareIsAutoMatched(ratio: (string, string) -> real, a: CandidateItem, b: CandidateItem)
    requires a.description != "" && b.description != "" && Tokens(a.description) == []
    ensures MatchByDescription(a.description, b.description) <==> Tokens(b.description) == []
    ensures Tokens(b.description) == [] ==> ClassifyStatus(ScorePair(ratio, a, b).0) == AutoMatched
  {
    NormalFormsMeanTokens(a.description, b.description);
  }

  /** Punctuation alone is such a description. */
  lemma PunctuationIsAutoMatched(ratio: (string, string) -> real, a: CandidateItem, b: CandidateItem)
    requires a.description != "" && forall c :: c in a.description ==> !IsWord(c)
    requires b.description != "" && forall c :: c in b.description ==> !IsWord(c)
    ensures ClassifyStatus(ScorePair(ratio, a, b).0) == AutoMatched
  {
    PunctuationHasNoTokens(a.description);
    PunctuationHasNoTokens(b.description);
    NothingToCompareIsAutoMatched(ratio, a, b);
  }

  // ---------------------------------------------------------------------------
  // The best match.
  // ---------------------------------------------------------------------------

  function Score(ratio: (string, string) -> real, wanted: CandidateItem, item: CandidateItem): real {
    ScorePair(ratio, wanted, item).0
  }

  lemma ScoreRange(ratio: (string, string) -> real, wanted: CandidateItem, item: CandidateItem)
    requires IsSimilarity(ratio)
    ensures 0.0 <= Score(ratio, wanted, item) <= 1.0
  {
    var score := CombinedScore(ratio, wanted.description, item.description);
    assert 0.0 <= score <= 1.0 by { CombinedScoreRange(ratio, wanted.description, item.description); }
    var capped := Capped(score, HasConflictingVariant(wanted.description, item.description));
    assert 0.0 <= capped <= 1.0;
    assert Score(ratio, wanted, item) in {1.0, EXACT_DESCRIPTION_SCORE, capped};
  }

  /** Every item's score and method. */
  function Rated(ratio: (string, string) -> real, wanted: CandidateItem, items: seq<CandidateItem>)
    : (rated: seq<(real, MatchMethod)>)
    ensures |rated| == |items|
  {
    if items == [] then []
    else Rated(ratio, wanted, items[..|items| - 1]) + [ScorePair(ratio, wanted, items[|items| - 1])]
  }

  lemma {:induction false} RatedAt(
    ratio: (string, string) -> real, wanted: CandidateItem, items: seq<CandidateItem>, i: nat)
    requires i < |items|
    ensures Rated(ratio, wanted, items)[i] == ScorePair(ratio, wanted, items[i])
  {
    if i < |items| - 1 { RatedAt(ratio, wanted, items[..|items| - 1], i); }
  }

  /** The first of the greatest of the first n scores. */
  function BestOf(rated: seq<(real, MatchMethod)>, n: nat): (b: nat)
    requires 1 <= n <= |rated|
    ensures b < n
    ensures forall j :: 0 <= j < n ==> rated[j].0 <= rated[b].0
    ensures forall j :: 0 <= j < b ==> rated[j].0 < rated[b].0
  {
    if n == 1 then 0
    else
      var b := BestOf(rated, n - 1);
      if rated[n - 1].0 > rated[b].0 then n - 1 else b
  }

  /** The best item if it is plausible. */
  function BestMatch(rated: seq<(real, MatchMethod)>): (r: Option<nat>)
    ensures r.Some? ==> r.value < |rated|
  {
    if rated == [] then None
    else
      var b := BestOf(rated, |rated|);
      if rated[b].0 < NO_PLAUSIBLE_MATCH_FLOOR then None else Some(b)
  }

  function ResultFor(ratio: (string, string) -> real, wanted: CandidateItem, items: seq<CandidateItem>): MatchResult {
    var rated := Rated(ratio, wanted, items);
    match BestMatch(rated)
    case None => MatchResult(wanted.key, None, 0.0, Unmatched, NoCandidate)
    case Some(b) => MatchResult(wanted.key, Some(items[b].key), rated[b].0, rated[b].1, ClassifyStatus(rated[b].0))
  }

  method Rate(ratio: (string, string) -> real, wanted: CandidateItem, items: seq<CandidateItem>, i: nat)
    returns (score: real, how: MatchMethod)
    requires IsSimilarity(ratio) && i < |items|
    ensures (score, how) == Rated(ratio, wanted, items)[i] && score >= 0.0
  {
    ScoreRange(ratio, wanted, items[i]);
    RatedAt(ratio, wanted, items, i);
    var pair := ScorePair(ratio, wanted, items[i]);
    return pair.0, pair.1;
  }

  /** find_best_match */
  method FindBestMatch(ratio: (string, string) -> real, wanted: CandidateItem, items: seq<CandidateItem>)
    returns (r: MatchResult)
    requires IsSimilarity(ratio)
    ensures r == ResultFor(ratio, wanted, items)
  {
    ghost var rated := Rated(ratio, wanted, items);
    var bestScore, bestHow, bestKey: Option<string> := -1.0, Unmatched, None;
    for i := 0 to |items|
      invariant i == 0 ==> bestScore == -1.0 && bestKey == None
      invariant i > 0 ==>
                  (bestScore, bestHow) == rated[BestOf(rated, i)] && bestKey == Some(items[BestOf(rated, i)].key)
    {
      var score, how := Rate(ratio, wanted, items, i);
      if score > bestScore {
        bestScore, bestHow, bestKey := score, how, Some(items[i].key);
      }
    }
    if bestKey.None? || bestScore < NO_PLAUSIBLE_MATCH_FLOOR {
      return MatchResult(wanted.key, None, 0.0, Unmatched, NoCandidate);
    }
    return MatchResult(wanted.key, bestKey, bestScore, bestHow, ClassifyStatus(bestScore));
  }

  /** A row is left without a candidate exactly when every new row scores under the floor. */
  lemma NoCandidateMeans(ratio: (string, string) -> real, wanted: CandidateItem, items: seq<CandidateItem>)
    ensures ResultFor(ratio, wanted, items).status == NoCandidate <==>
            forall i :: 0 <= i < |items| ==> Score(ratio, wanted, items[i]) < NO_PLAUSIBLE_MATCH_FLOOR
  {
    if items != [] {
      var b := BestOf(Rated(ratio, wanted, items), |items|);
      RatedAt(ratio, wanted, items, b);
      forall i | 0 <= i < |items| ensures Score(ratio, wanted, items[i]) <= Score(ratio, wanted, items[b]) {
        RatedAt(ratio, wanted, items, i);
      }
    }
  }

  predicate SharesCode(a: CandidateItem, b: CandidateItem) {
    MatchBySku(a.sku, b.sku) || MatchByBarcode(a.barcode, b.barcode)
  }

  /** A new row with the same SKU or barcode, wherever it is in the list, makes the match certain. */
  lemma SharedCodeIsCertain(ratio: (string, string) -> real, wanted: CandidateItem, items: seq<CandidateItem>, i: nat)
    requires IsSimilarity(ratio) && i < |items| && SharesCode(wanted, items[i])
    ensures ResultFor(ratio, wanted, items).confidence == 1.0 && ResultFor(ratio, wanted, items).status == AutoMatched
  {
    var rated := Rated(ratio, wanted, items);
    var b := BestOf(rated, |items|);
    assert rated[i].0 == 1.0 by { RatedAt(ratio, wanted, items, i); }
    assert rated[b].0 <= 1.0 by {
      RatedAt(ratio, wanted, items, b);
      ScoreRange(ratio, wanted, items[b]);
    }
  }

  /** Whatever is matched without a person, or recommended, is a best row, and no competing variant
      unless SKU or barcode vouch for it. */
  lemma ConfidentMatchIsNoConflict(ratio: (string, string) -> real, wanted: CandidateItem, items: seq<CandidateItem>)
    requires ResultFor(ratio, wanted, items).status in {AutoMatched, ReviewRecommended}
    ensures exists b :: 0 <= b < |items| && ResultFor(ratio, wanted, items).newKey == Some(items[b].key)
              && (forall j :: 0 <= j < |items| ==> Score(ratio, wanted, items[j]) <= Score(ratio, wanted, items[b]))
              && (HasConflictingVariant(wanted.description, items[b].description) ==> SharesCode(wanted, items[b]))
  {
    var rated := Rated(ratio, wanted, items);
    var b := BestMatch(rated).value;
    RatedAt(ratio, wanted, items, b);
    forall j | 0 <= j < |items| ensures Score(ratio, wanted, items[j]) <= Score(ratio, wanted, items[b]) {
      RatedAt(ratio, wanted, items, j);
    }
    if HasConflictingVariant(wanted.description, items[b].description) {
      ConflictStaysManual(ratio, wanted, items[b]);
    }
  }
}
