/** Pack strings such as "24 x 330ml" on ASCII text: the four patterns as scanners, proved to recognise
    exactly their regular expressions, and the quantity in base units they give. */
module PackParser {
  import opened Sql
  import opened Rounding
  import opened Normalization
  import opened Digits

  // ---------------------------------------------------------------------------
  // Scanning.
  // ---------------------------------------------------------------------------

  datatype Kind = Spaces | Numerals | Letters

  predicate Is(k: Kind, c: char) {
    match k case Spaces => IsSpace(c) case Numerals => IsDigit(c) case Letters => IsLetter(c)
  }

  predicate All(k: Kind, s: string) { forall c :: c in s ==> Is(k, c) }

  /** The text does not go on with a character of the kind. */
  predicate Ends(k: Kind, s: string) { s == "" || !Is(k, s[0]) }

  /** The longest run of the kind at the front. */
  function Run(k: Kind, s: string): (r: string)
    ensures r <= s && All(k, r) && Ends(k, s[|r|..])
  {
    if s != "" && Is(k, s[0]) then [s[0]] + Run(k, s[1..]) else ""
  }

  function After(k: Kind, s: string): string { s[|Run(k, s)|..] }

  lemma {:induction false} RunIsLongest(k: Kind, r: string, rest: string)
    requires All(k, r) && Ends(k, rest)
    ensures Run(k, r + rest) == r && After(k, r + rest) == rest
  {
    if r == "" {
      assert r + rest == rest;
    } else {
      assert r[0] in r;
      assert (r + rest)[1..] == r[1..] + rest;
      RunIsLongest(k, r[1..], rest);
    }
  }

  /** A numeral as written: the digits before the point, and those after it, none without a point. */
  datatype Number = Number(whole: string, fraction: string)

  predicate IsNumeral(n: Number) { n.whole != "" && All(Numerals, n.whole) && All(Numerals, n.fraction) }

  function Written(n: Number): string { if n.fraction == "" then n.whole else n.whole + ("." + n.fraction) }

  lemma RunSplits(k: Kind, s: string)
    ensures s == Run(k, s) + After(k, s)
  {
  }

  lemma WithFraction(whole: string, fraction: string, rest: string)
    ensures (whole + ("." + fraction)) + rest == whole + ("." + (fraction + rest))
  {
  }

  /** \d+(?:\.\d+)? and what follows it. */
  function TakeNumber(s: string): (r: Option<(Number, string)>)
    ensures r.Some? ==> IsNumeral(r.value.0) && s == Written(r.value.0) + r.value.1
  {
    var whole, t := Run(Numerals, s), After(Numerals, s);
    if whole == "" then None
    else if |t| >= 2 && t[0] == '.' && IsDigit(t[1]) then
      var fraction, rest := Run(Numerals, t[1..]), After(Numerals, t[1..]);
      assert s == Written(Number(whole, fraction)) + rest by {
        RunSplits(Numerals, s);
        RunSplits(Numerals, t[1..]);
        assert t == "." + t[1..];
        WithFraction(whole, fraction, rest);
      }
      Some((Number(whole, fraction), rest))
    else
      assert s == Written(Number(whole, "")) + t by { RunSplits(Numerals, s); }
      Some((Number(whole, ""), t))
  }

  /** Neither a digit nor a point follows. */
  predicate EndsNumber(s: string) { Ends(Numerals, s) && (s == "" || s[0] != '.') }

  lemma FractionIsTaken(fraction: string, rest: string)
    requires fraction != "" && All(Numerals, fraction) && Ends(Numerals, rest)
    ensures var t := "." + fraction + rest;
            Ends(Numerals, t) && |t| >= 2 && t[0] == '.' && IsDigit(t[1])
            && Run(Numerals, t[1..]) == fraction && After(Numerals, t[1..]) == rest
  {
    var t := "." + fraction + rest;
    assert t[1..] == fraction + rest;
    RunIsLongest(Numerals, fraction, rest);
    assert fraction[0] in fraction;
  }

  lemma NumberIsTaken(n: Number, rest: string)
    requires IsNumeral(n) && EndsNumber(rest)
    ensures TakeNumber(Written(n) + rest) == Some((n, rest))
  {
    var t := if n.fraction == "" then rest else "." + n.fraction + rest;
    if n.fraction != "" { FractionIsTaken(n.fraction, rest); }
    assert Written(n) + rest == n.whole + t;
    RunIsLongest(Numerals, n.whole, t);
  }

  // ---------------------------------------------------------------------------
  // The patterns.
  // ---------------------------------------------------------------------------

  /** \s*[a-zA-Z]+\s*$ */
  function TakeUnit(s: string): (r: Option<string>)
    ensures r.Some? ==> r.value != "" && All(Letters, r.value)
  {
    var d := After(Spaces, s);
    var u := Run(Letters, d);
    if u == "" || After(Spaces, After(Letters, d)) != "" then None else Some(u)
  }

  /** \s*number */
  function Leading(s: string): (r: Option<(Number, string)>)
    ensures r.Some? ==> IsNumeral(r.value.0)
  {
    TakeNumber(After(Spaces, s))
  }

  /** \s*x */
  function TakeTimes(s: string): Option<string> {
    var b := After(Spaces, s);
    if b == "" || (b[0] != 'x' && b[0] != 'X') then None else Some(b[1..])
  }

  /** ^\s*number\s*letters\s*$ */
  function Single(s: string): (r: Option<(Number, string)>)
    ensures r.Some? ==> IsNumeral(r.value.0)
  {
    match Leading(s)
    case None => None
    case Some((size, a)) => match TakeUnit(a) case None => None case Some(unit) => Some((size, unit))
  }

  /** ^\s*number\s*x\s*number\s*letters\s*$ */
  function MultiPack(s: string): (r: Option<(Number, Number, string)>)
    ensures r.Some? ==> IsNumeral(r.value.0) && IsNumeral(r.value.1)
  {
    match Leading(s)
    case None => None
    case Some((qty, a)) =>
      match TakeTimes(a)
      case None => None
      case Some(t) => match Single(t) case None => None case Some((size, unit)) => Some((qty, size, unit))
  }

  /** units?|each|ea, in any case */
  predicate IsCount(unit: string) { Lowered(unit) in {"unit", "units", "each", "ea"} }

  /** ^\s*number\s*(?:units?|each|ea)\s*$ */
  function Count(s: string): (r: Option<Number>)
    ensures r.Some? ==> IsNumeral(r.value)
  {
    match Single(s)
    case None => None
    case Some((qty, unit)) => if IsCount(unit) then Some(qty) else None
  }

  /** \s*case\s* */
  function TakeCase(s: string): Option<string> {
    var a := After(Spaces, s);
    if |a| < 4 || Lowered(a[..4]) != "case" then None else Some(After(Spaces, a[4..]))
  }

  /** (?:of\s*)? */
  function SkipOf(b: string): string {
    if |b| >= 2 && Lowered(b[..2]) == "of" then After(Spaces, b[2..]) else b
  }

  /** ^\s*case\s*(?:of\s*)?number\s*$ */
  function Case(s: string): (r: Option<Number>)
    ensures r.Some? ==> IsNumeral(r.value)
  {
    match TakeCase(s)
    case None => None
    case Some(b) =>
      match TakeNumber(SkipOf(b))
      case None => None
      case Some((qty, d)) => if After(Spaces, d) == "" then Some(qty) else None
  }

  // ---------------------------------------------------------------------------
  // Packs.
  // ---------------------------------------------------------------------------

  datatype ParsedPack = ParsedPack(quantity: real, size: real, unit: string, baseQuantity: real, baseUnit: string)

  const UNIT_CONVERSIONS: map<string, (string, real)> := map[
    "g" := ("kg", 0.001), "gram" := ("kg", 0.001), "grams" := ("kg", 0.001),
    "kg" := ("kg", 1.0), "kilogram" := ("kg", 1.0), "kilograms" := ("kg", 1.0),
    "ml" := ("L", 0.001), "millilitre" := ("L", 0.001), "millilitres" := ("L", 0.001),
    "l" := ("L", 1.0), "litre" := ("L", 1.0), "litres" := ("L", 1.0), "liter" := ("L", 1.0), "liters" := ("L", 1.0),
    "each" := ("each", 1.0), "unit" := ("each", 1.0), "units" := ("each", 1.0), "ea" := ("each", 1.0)]

  /** The number a numeral denotes. */
  function Value(n: Number): real
    requires IsNumeral(n)
  {
    assert AllDigits(n.whole + n.fraction) by {
      forall i | 0 <= i < |n.whole + n.fraction| ensures IsDigit((n.whole + n.fraction)[i]) {
        assert (n.whole + n.fraction)[i] in n.whole + n.fraction;
      }
    }
    Over(NatOf(n.whole + n.fraction) as real, Pow10(|n.fraction|) as real)
  }

  /** None stands for an unrecognised unit. */
  function Build(quantity: real, size: real, unit: string): Option<ParsedPack> {
    if unit !in UNIT_CONVERSIONS then None
    else
      var (baseUnit, factor) := UNIT_CONVERSIONS[unit];
      Some(ParsedPack(quantity, size, unit, Times(Times(quantity, size), factor), baseUnit))
  }

  datatype Pattern = MultiPattern | CasePattern | CountPattern | SinglePattern

  /** One item of a size and unit, if there are these. */
  function BuildSize(single: Option<(Number, string)>): Option<Option<ParsedPack>>
    requires single.Some? ==> IsNumeral(single.value.0)
  {
    match single case None => None case Some((size, unit)) => Some(Build(1.0, Value(size), Lowered(unit)))
  }

  /** None when the pattern does not match, Some(None) when it does with a unit nobody knows. */
  function Try(p: Pattern, s: string): Option<Option<ParsedPack>> {
    match p
    case MultiPattern =>
      (match MultiPack(s)
       case None => None
       case Some((qty, size, unit)) => Some(Build(Value(qty), Value(size), Lowered(unit))))
    case CasePattern => (match Case(s) case None => None case Some(qty) => Some(Build(Value(qty), 1.0, "each")))
    case CountPattern => (match Count(s) case None => None case Some(qty) => Some(Build(Value(qty), 1.0, "each")))
    case SinglePattern => BuildSize(Single(s))
  }

  /** The first pattern that matches decides. */
  function TryInTurn(order: seq<Pattern>, s: string): Option<ParsedPack> {
    if order == [] then None
    else match Try(order[0], s) case Some(pack) => pack case None => TryInTurn(order[1..], s)
  }

  const TRIAL_ORDER := [MultiPattern, CasePattern, CountPattern, SinglePattern]

  /** parse_pack_string; None stands for UnrecognizedPackFormatError. */
  function Parse(raw: Option<string>): Option<ParsedPack>
    requires raw.Some? ==> IsAscii(raw.value)
  {
    if raw.None? || Strip(raw.value) == "" then None else TryInTurn(TRIAL_ORDER, Strip(raw.value))
  }

  // ---------------------------------------------------------------------------
  // The scanners recognise the regular expressions.
  // ---------------------------------------------------------------------------

  ghost predicate SingleForm(s: string, size: Number, unit: string, a: string, d: string, e: string) {
    && All(Spaces, a) && All(Spaces, d) && All(Spaces, e) && IsNumeral(size) && unit != "" && All(Letters, unit)
    && s == a + (Written(size) + (d + (unit + e)))
  }

  ghost predicate MultiForm(s: string, qty: Number, size: Number, unit: string, a: string, b: string, x: char,
      t: string)
  {
    && All(Spaces, a) && All(Spaces, b) && (x == 'x' || x == 'X') && IsNumeral(qty)
    && (exists c, d, e :: SingleForm(t, size, unit, c, d, e))
    && s == a + (Written(qty) + (b + ([x] + t)))
  }

  ghost predicate CaseForm(s: string, qty: Number, a: string, word: string, b: string, of: string, c: string,
      e: string)
  {
    && All(Spaces, a) && All(Spaces, b) && All(Spaces, c) && All(Spaces, e) && IsNumeral(qty)
    && Lowered(word) == "case" && (Lowered(of) == "of" || (of == "" && c == ""))
    && s == a + (word + (b + (of + (c + (Written(qty) + e)))))
  }

  lemma FirstOfNumeral(n: Number, rest: string)
    requires IsNumeral(n)
    ensures Ends(Spaces, Written(n) + rest) && (Written(n) + rest)[0] == n.whole[0] && IsDigit(n.whole[0])
  {
    assert n.whole[0] in n.whole;
  }

  lemma FirstOfRun(k: Kind, r: string, rest: string)
    requires All(k, r)
    ensures r != "" ==> Is(k, (r + rest)[0]) && (r + rest)[0] == r[0]
    ensures r == "" ==> r + rest == rest
  {
    if r != "" { assert r[0] in r; }
  }

  lemma UnitIsTaken(d: string, unit: string, e: string)
    requires All(Spaces, d) && All(Spaces, e) && unit != "" && All(Letters, unit)
    ensures TakeUnit(d + (unit + e)) == Some(unit)
    ensures EndsNumber(d + (unit + e))
  {
    FirstOfRun(Letters, unit, e);
    FirstOfRun(Spaces, d, unit + e);
    FirstOfRun(Spaces, e, "");
    assert e + "" == e;
    RunIsLongest(Spaces, d, unit + e);
    RunIsLongest(Letters, unit, e);
    RunIsLongest(Spaces, e, "");
  }

  lemma UnitWasThere(s: string) returns (d: string, e: string)
    requires TakeUnit(s).Some?
    ensures All(Spaces, d) && All(Spaces, e) && s == d + (TakeUnit(s).value + e)
  {
    d := Run(Spaces, s);
    e := After(Letters, After(Spaces, s));
    RunSplits(Spaces, s);
    RunSplits(Letters, After(Spaces, s));
    RunSplits(Spaces, e);
    assert Run(Spaces, e) + "" == Run(Spaces, e);
  }

  lemma LeadingIsTaken(a: string, n: Number, rest: string)
    requires All(Spaces, a) && IsNumeral(n) && EndsNumber(rest)
    ensures Leading(a + (Written(n) + rest)) == Some((n, rest))
  {
    NumberIsTaken(n, rest);
    FirstOfNumeral(n, rest);
    RunIsLongest(Spaces, a, Written(n) + rest);
  }

  lemma LeadingWasThere(s: string) returns (a: string)
    requires Leading(s).Some?
    ensures All(Spaces, a) && s == a + (Written(Leading(s).value.0) + Leading(s).value.1)
  {
    a := Run(Spaces, s);
    RunSplits(Spaces, s);
  }

  lemma SingleIsComplete(s: string, size: Number, unit: string, a: string, d: string, e: string)
    requires SingleForm(s, size, unit, a, d, e)
    ensures Single(s) == Some((size, unit))
  {
    UnitIsTaken(d, unit, e);
    LeadingIsTaken(a, size, d + (unit + e));
  }

  /** The single pattern: the scanner finds a size and a unit exactly where the expression does. */
  lemma SingleIsTheRegex(s: string, size: Number, unit: string)
    ensures Single(s) == Some((size, unit)) <==> exists a, d, e :: SingleForm(s, size, unit, a, d, e)
  {
    if Single(s) == Some((size, unit)) {
      var a := LeadingWasThere(s);
      var d, e := UnitWasThere(Leading(s).value.1);
      assert SingleForm(s, size, unit, a, d, e);
    }
    if a, d, e :| SingleForm(s, size, unit, a, d, e) { SingleIsComplete(s, size, unit, a, d, e); }
  }

  lemma TimesIsTaken(b: string, x: char, t: string)
    requires All(Spaces, b) && (x == 'x' || x == 'X')
    ensures TakeTimes(b + ([x] + t)) == Some(t) && EndsNumber(b + ([x] + t))
  {
    RunIsLongest(Spaces, b, [x] + t);
    FirstOfRun(Spaces, b, [x] + t);
    assert ([x] + t)[1..] == t;
  }

  lemma TimesWasThere(s: string) returns (b: string, x: char)
    requires TakeTimes(s).Some?
    ensures All(Spaces, b) && (x == 'x' || x == 'X') && s == b + ([x] + TakeTimes(s).value)
  {
    b, x := Run(Spaces, s), After(Spaces, s)[0];
    assert After(Spaces, s) == [x] + TakeTimes(s).value;
  }

  lemma MultiPackIsComplete(s: string, qty: Number, size: Number, unit: string, a: string, b: string, x: char,
      t: string)
    requires All(Spaces, a) && All(Spaces, b) && (x == 'x' || x == 'X') && IsNumeral(qty)
    requires s == a + (Written(qty) + (b + ([x] + t))) && Single(t) == Some((size, unit))
    ensures MultiPack(s) == Some((qty, size, unit))
  {
    var rest := b + ([x] + t);
    TimesIsTaken(b, x, t);
    LeadingIsTaken(a, qty, rest);
    MultiPackInParts(s, qty, rest, t, size, unit);
  }

  lemma MultiPackInParts(s: string, qty: Number, rest: string, t: string, size: Number, unit: string)
    requires Leading(s) == Some((qty, rest)) && TakeTimes(rest) == Some(t) && Single(t) == Some((size, unit))
    ensures MultiPack(s) == Some((qty, size, unit))
  {
  }

  lemma MultiPackIsSound(s: string) returns (a: string, b: string, x: char, t: string)
    requires MultiPack(s).Some?
    ensures All(Spaces, a) && All(Spaces, b) && (x == 'x' || x == 'X')
    ensures var (qty, size, unit) := MultiPack(s).value;
            s == a + (Written(qty) + (b + ([x] + t))) && Single(t) == Some((size, unit))
  {
    var rest := Leading(s).value.1;
    a := LeadingWasThere(s);
    b, x := TimesWasThere(rest);
    t := TakeTimes(rest).value;
  }

  /** The multi-pack pattern: likewise for a quantity, an x in either case, and a size with its unit. */
  lemma MultiPackIsTheRegex(s: string, qty: Number, size: Number, unit: string)
    ensures MultiPack(s) == Some((qty, size, unit)) <==> exists a, b, x, t :: MultiForm(s, qty, size, unit, a, b, x, t)
  {
    if MultiPack(s) == Some((qty, size, unit)) {
      var a, b, x, t := MultiPackIsSound(s);
      SingleIsTheRegex(t, size, unit);
      assert MultiForm(s, qty, size, unit, a, b, x, t);
    }
    if a, b, x, t :| MultiForm(s, qty, size, unit, a, b, x, t) {
      SingleIsTheRegex(t, size, unit);
      MultiPackIsComplete(s, qty, size, unit, a, b, x, t);
    }
  }

  lemma LoweredPrefix(w: string, rest: string, k: nat)
    requires |w| == k
    ensures |w + rest| >= k && (w + rest)[..k] == w && (w + rest)[k..] == rest
  {
  }

  lemma FirstOfWord(w: string, lower: string, rest: string)
    requires Lowered(w) == lower && lower != "" && 'a' <= lower[0] <= 'z'
    ensures Ends(Spaces, w + rest) && Ends(Numerals, w + rest)
  {
    assert Lowered(w)[0] == Lower(w[0]);
  }

  lemma CaseIsTaken(a: string, word: string, b: string, t: string)
    requires All(Spaces, a) && Lowered(word) == "case" && All(Spaces, b) && Ends(Spaces, t)
    ensures TakeCase(a + (word + (b + t))) == Some(t)
  {
    RunIsLongest(Spaces, b, t);
    LoweredPrefix(word, b + t, 4);
    FirstOfWord(word, "case", b + t);
    RunIsLongest(Spaces, a, word + (b + t));
  }

  lemma OfIsSkipped(of: string, c: string, t: string)
    requires All(Spaces, c) && (Lowered(of) == "of" || (of == "" && c == "")) && t != "" && IsDigit(t[0])
    ensures SkipOf(of + (c + t)) == t && Ends(Spaces, of + (c + t))
  {
    RunIsLongest(Spaces, c, t);
    if of == "" {
      assert of + (c + t) == t;
      if |t| >= 2 { assert Lowered(t[..2])[0] == Lower(t[0]); }
    } else {
      LoweredPrefix(of, c + t, 2);
      FirstOfWord(of, "of", c + t);
    }
  }

  lemma LastNumber(qty: Number, e: string)
    requires IsNumeral(qty) && All(Spaces, e)
    ensures TakeNumber(Written(qty) + e) == Some((qty, e)) && After(Spaces, e) == ""
  {
    FirstOfRun(Spaces, e, "");
    assert e + "" == e;
    RunIsLongest(Spaces, e, "");
    NumberIsTaken(qty, e);
  }

  /** After the word "case": blanks, perhaps "of", blanks, a number and blanks. */
  lemma CaseIsComplete(s: string, qty: Number, a: string, word: string, b: string, of: string, c: string, e: string)
    requires CaseForm(s, qty, a, word, b, of, c, e)
    ensures Case(s) == Some(qty)
  {
    var number := Written(qty) + e;
    FirstOfNumeral(qty, e);
    LastNumber(qty, e);
    OfIsSkipped(of, c, number);
    CaseIsTaken(a, word, b, of + (c + number));
  }

  lemma CaseWasThere(s: string) returns (a: string, word: string, b: string)
    requires TakeCase(s).Some?
    ensures All(Spaces, a) && Lowered(word) == "case" && All(Spaces, b) && s == a + (word + (b + TakeCase(s).value))
  {
    a := Run(Spaces, s);
    word := After(Spaces, s)[..4];
    var rest := After(Spaces, s)[4..];
    b := Run(Spaces, rest);
    RunSplits(Spaces, s);
    RunSplits(Spaces, rest);
    assert After(Spaces, s) == word + rest;
  }

  lemma OfWasThere(s: string) returns (of: string, c: string)
    ensures All(Spaces, c) && (Lowered(of) == "of" || (of == "" && c == "")) && s == of + (c + SkipOf(s))
  {
    of, c := "", "";
    if |s| >= 2 && Lowered(s[..2]) == "of" {
      of, c := s[..2], Run(Spaces, s[2..]);
      assert s[2..] == c + SkipOf(s);
    }
  }

  lemma NumberWasLast(s: string) returns (e: string)
    requires TakeNumber(s).Some? && After(Spaces, TakeNumber(s).value.1) == ""
    ensures All(Spaces, e) && s == Written(TakeNumber(s).value.0) + e
  {
    e := TakeNumber(s).value.1;
    assert e == Run(Spaces, e) + After(Spaces, e);
  }

  lemma CaseIsSound(s: string)
    requires Case(s).Some?
    ensures exists a, word, b, of, c, e :: CaseForm(s, Case(s).value, a, word, b, of, c, e)
  {
    var t := TakeCase(s).value;
    var a, word, b := CaseWasThere(s);
    var of, c := OfWasThere(t);
    var e := NumberWasLast(SkipOf(t));
    assert CaseForm(s, Case(s).value, a, word, b, of, c, e);
  }

  /** The case pattern. */
  lemma CaseIsTheRegex(s: string, qty: Number)
    ensures Case(s) == Some(qty) <==> exists a, word, b, of, c, e :: CaseForm(s, qty, a, word, b, of, c, e)
  {
    if Case(s) == Some(qty) { CaseIsSound(s); }
    if a, word, b, of, c, e :| CaseForm(s, qty, a, word, b, of, c, e) { CaseIsComplete(s, qty, a, word, b, of, c, e); }
  }

  // ---------------------------------------------------------------------------
  // The order of trial does not matter.
  // ---------------------------------------------------------------------------

  lemma LeadingIsNoUnit(t: string)
    requires Leading(t).Some?
    ensures Ends(Letters, t) && After(Spaces, t) != ""
  {
    var c := LeadingWasThere(t);
    var (n, rest) := Leading(t).value;
    FirstOfNumeral(n, rest);
    FirstOfRun(Spaces, c, Written(n) + rest);
    RunIsLongest(Spaces, c, Written(n) + rest);
  }

  lemma UnitIsNotTimes(x: char, t: string)
    requires IsLetter(x) && Leading(t).Some?
    ensures TakeUnit([x] + t).None?
  {
    LeadingIsNoUnit(t);
    RunIsLongest(Letters, [x], t);
    RunIsLongest(Spaces, "", [x] + t);
    assert "" + ([x] + t) == [x] + t;
  }

  lemma UnitSkipsSpaces(b: string, s: string)
    requires All(Spaces, b) && Ends(Spaces, s)
    ensures TakeUnit(b + s) == TakeUnit(s)
  {
    RunIsLongest(Spaces, b, s);
    RunIsLongest(Spaces, "", s);
    assert "" + s == s;
  }

  lemma TimesIsNoUnit(s: string)
    requires TakeTimes(s).Some? && Leading(TakeTimes(s).value).Some?
    ensures TakeUnit(s).None?
  {
    var b, x := TimesWasThere(s);
    var t := TakeTimes(s).value;
    UnitIsNotTimes(x, t);
    UnitSkipsSpaces(b, [x] + t);
  }

  lemma MultiPackIsNotSingle(s: string)
    requires MultiPack(s).Some?
    ensures Single(s).None?
  {
    TimesIsNoUnit(Leading(s).value.1);
  }

  lemma CaseIsNoNumber(s: string)
    requires Case(s).Some?
    ensures Leading(s).None?
  {
    var word := After(Spaces, s)[..4];
    assert After(Spaces, s) == word + After(Spaces, s)[4..];
    FirstOfWord(word, "case", After(Spaces, s)[4..]);
  }

  /** What the rest of the system uses of a pack: its quantity in base units. */
  function Base(pack: Option<ParsedPack>): Option<(real, string)> {
    match pack case None => None case Some(p) => Some((p.baseQuantity, p.baseUnit))
  }

  lemma CountedOrSized(n: real, unit: string)
    requires IsCount(unit)
    ensures Base(Build(n, 1.0, "each")) == Base(Build(1.0, n, Lowered(unit)))
  {
    assert Lowered(unit) in UNIT_CONVERSIONS && UNIT_CONVERSIONS[Lowered(unit)] == ("each", 1.0);
    assert "each" in UNIT_CONVERSIONS && UNIT_CONVERSIONS["each"] == ("each", 1.0);
    assert Times(n, 1.0) == Times(1.0, n);
  }

  /** Two patterns that both match a text agree on its quantity in base units, or both reject its unit. */
  lemma PatternsAgree(p: Pattern, q: Pattern, s: string)
    requires Try(p, s).Some? && Try(q, s).Some?
    ensures Base(Try(p, s).value) == Base(Try(q, s).value)
  {
    if MultiPack(s).Some? { MultiPackIsNotSingle(s); }
    if Case(s).Some? { CaseIsNoNumber(s); }
    if Count(s).Some? {
      var (size, unit) := Single(s).value;
      CountedOrSized(Value(size), unit);
    }
  }

  lemma {:induction false} TurnHasAMatch(order: seq<Pattern>, s: string)
    ensures TryInTurn(order, s).Some? || (exists p :: p in order && Try(p, s).Some?)
            ==> exists p :: p in order && Try(p, s).Some? && TryInTurn(order, s) == Try(p, s).value
  {
    if order != [] {
      assert order[0] in order;
      TurnHasAMatch(order[1..], s);
      if Try(order[0], s).None? && exists p :: p in order && Try(p, s).Some? {
        var p :| p in order && Try(p, s).Some?;
        assert p in order[1..];
      }
    }
  }

  /** In whatever order the same patterns are tried, the base quantity and unit, and so every price per
      base unit, are the same. */
  lemma TrialOrderDoesNotMatter(order: seq<Pattern>, other: seq<Pattern>, s: string)
    requires forall p :: p in order <==> p in other
    ensures Base(TryInTurn(order, s)) == Base(TryInTurn(other, s))
  {
    TurnHasAMatch(order, s);
    TurnHasAMatch(other, s);
    if p, q :| p in order && q in other && Try(p, s).Some? && Try(q, s).Some?
               && TryInTurn(order, s) == Try(p, s).value && TryInTurn(other, s) == Try(q, s).value {
      PatternsAgree(p, q, s);
    }
  }

  // ---------------------------------------------------------------------------
  // Renderings parse back.
  // ---------------------------------------------------------------------------

  lemma {:induction false} StripLeftBlanks(a: string, core: string)
    requires All(Spaces, a) && core != "" && Ends(Spaces, core)
    ensures StripLeft(a + core) == core
  {
    if a == "" {
      assert a + core == core;
    } else {
      assert a[0] in a;
      assert (a + core)[1..] == a[1..] + core;
      StripLeftBlanks(a[1..], core);
    }
  }

  lemma {:induction false} StripRightBlanks(core: string, e: string)
    requires All(Spaces, e) && core != "" && !IsSpace(core[|core| - 1])
    ensures StripRight(core + e) == core
  {
    if e == "" {
      assert core + e == core;
    } else {
      assert e[|e| - 1] in e;
      assert (core + e)[..|core + e| - 1] == core + e[..|e| - 1];
      StripRightBlanks(core, e[..|e| - 1]);
    }
  }

  /** A whole number written out denotes itself. */
  lemma WholeNumeral(n: nat)
    ensures IsNumeral(Number(Text(n), "")) && Value(Number(Text(n), "")) == n as real
  {
    forall c | c in Text(n) ensures IsDigit(c) {
      var i :| 0 <= i < |Text(n)| && Text(n)[i] == c;
    }
    TextDenotes(n);
    assert Text(n) + "" == Text(n);
    assert Pow10(0) == 1;
  }

  /** A pack as written, blanks around it aside: "24 x 330ml"; "10kg" or "12 units"; "case 24" or "case of 24".
      Strings between the parts are blanks, and words are in any case. */
  datatype Rendering =
    | Packs(qty: Number, b: string, x: char, c: string, size: Number, d: string, unit: string)
    | Sized(size: Number, d: string, unit: string)
    | Cases(word: string, b: string, of: string, c: string, qty: Number)

  predicate ProperSize(size: Number, d: string, unit: string) {
    IsNumeral(size) && All(Spaces, d) && unit != "" && All(Letters, unit)
  }

  predicate Proper(r: Rendering) {
    match r
    case Packs(qty, b, x, c, size, d, unit) =>
      && All(Spaces, b) && All(Spaces, c) && (x == 'x' || x == 'X') && IsNumeral(qty) && ProperSize(size, d, unit)
    case Sized(size, d, unit) => ProperSize(size, d, unit)
    case Cases(word, b, of, c, qty) =>
      && Lowered(word) == "case" && All(Spaces, b) && (Lowered(of) == "of" || (of == "" && c == "")) && All(Spaces, c)
      && IsNumeral(qty)
  }

  function Core(r: Rendering): string {
    match r
    case Packs(qty, b, x, c, size, d, unit) => Written(qty) + (b + ([x] + (c + (Written(size) + (d + unit)))))
    case Sized(size, d, unit) => Written(size) + (d + unit)
    case Cases(word, b, of, c, qty) => word + (b + (of + (c + Written(qty))))
  }

  /** How many, of what size, in which unit. */
  function Meaning(r: Rendering): (real, real, string)
    requires Proper(r)
  {
    match r
    case Packs(qty, _, _, _, size, _, unit) => (Value(qty), Value(size), Lowered(unit))
    case Sized(size, _, unit) =>
      if IsCount(unit) then (Value(size), 1.0, "each")
      else (1.0, Value(size), Lowered(unit))
    case Cases(_, _, _, _, qty) => (Value(qty), 1.0, "each")
  }

  lemma KindsAreAscii(k: Kind, s: string)
    requires All(k, s)
    ensures IsAscii(s)
  {
    forall c | c in s ensures c as int < 128 { assert Is(k, c); }
  }

  lemma WordIsAscii(w: string)
    requires IsAscii(Lowered(w))
    ensures IsAscii(w)
  {
    forall c | c in w ensures c as int < 128 {
      var i :| 0 <= i < |w| && w[i] == c;
      assert Lowered(w)[i] in Lowered(w);
    }
  }

  /** The text ends in something other than a blank. */
  predicate Closed(s: string) { IsAscii(s) && s != "" && !IsSpace(s[|s| - 1]) }

  lemma ClosedAfter(s: string, t: string)
    requires IsAscii(s) && Closed(t)
    ensures Closed(s + t)
  {
    assert (s + t)[|s + t| - 1] == t[|t| - 1];
  }

  lemma ClosedRun(k: Kind, s: string)
    requires All(k, s) && !k.Spaces? && s != ""
    ensures Closed(s)
  {
    KindsAreAscii(k, s);
    assert s[|s| - 1] in s;
  }

  lemma ClosedNumeral(n: Number)
    requires IsNumeral(n)
    ensures Closed(Written(n))
  {
    ClosedRun(Numerals, n.whole);
    if n.fraction != "" {
      ClosedRun(Numerals, n.fraction);
      ClosedAfter(".", n.fraction);
      ClosedAfter(n.whole, "." + n.fraction);
    }
  }

  lemma ClosedSize(size: Number, d: string, unit: string)
    requires ProperSize(size, d, unit)
    ensures Closed(Written(size) + (d + unit))
  {
    ClosedRun(Letters, unit);
    KindsAreAscii(Spaces, d);
    ClosedAfter(d, unit);
    ClosedNumeral(size);
    ClosedAfter(Written(size), d + unit);
  }

  lemma CoreIsClosed(r: Rendering)
    requires Proper(r)
    ensures Closed(Core(r)) && Ends(Spaces, Core(r))
  {
    match r
    case Packs(qty, b, x, c, size, d, unit) =>
      var t := Written(size) + (d + unit);
      ClosedSize(size, d, unit);
      KindsAreAscii(Spaces, c);
      ClosedAfter(c, t);
      ClosedAfter([x], c + t);
      KindsAreAscii(Spaces, b);
      ClosedAfter(b, [x] + (c + t));
      ClosedNumeral(qty);
      ClosedAfter(Written(qty), b + ([x] + (c + t)));
      FirstOfNumeral(qty, b + ([x] + (c + t)));
    case Sized(size, d, unit) =>
      ClosedSize(size, d, unit);
      FirstOfNumeral(size, d + unit);
    case Cases(word, b, of, c, qty) =>
      var t := Written(qty);
      ClosedNumeral(qty);
      KindsAreAscii(Spaces, c);
      ClosedAfter(c, t);
      WordIsAscii(of);
      ClosedAfter(of, c + t);
      KindsAreAscii(Spaces, b);
      ClosedAfter(b, of + (c + t));
      WordIsAscii(word);
      ClosedAfter(word, b + (of + (c + t)));
      FirstOfWord(word, "case", b + (of + (c + t)));
  }

  lemma SizeIsFound(c: string, size: Number, d: string, unit: string)
    requires All(Spaces, c) && ProperSize(size, d, unit)
    ensures Single(c + (Written(size) + (d + unit))) == Some((size, unit))
  {
    assert unit + "" == unit;
    SingleIsComplete(c + (Written(size) + (d + unit)), size, unit, c, d, "");
  }

  lemma PacksFound(s: string, qty: Number, b: string, x: char, t: string, size: Number, unit: string)
    requires All(Spaces, b) && (x == 'x' || x == 'X') && IsNumeral(qty) && Single(t) == Some((size, unit))
    requires s == Written(qty) + (b + ([x] + t))
    ensures MultiPack(s) == Some((qty, size, unit))
  {
    assert s == "" + (Written(qty) + (b + ([x] + t)));
    MultiPackIsComplete(s, qty, size, unit, "", b, x, t);
  }

  lemma PacksAreFound(r: Rendering)
    requires Proper(r) && r.Packs?
    ensures MultiPack(Core(r)) == Some((r.qty, r.size, r.unit))
  {
    SizeIsFound(r.c, r.size, r.d, r.unit);
    PacksFound(Core(r), r.qty, r.b, r.x, r.c + (Written(r.size) + (r.d + r.unit)), r.size, r.unit);
  }

  lemma SizeAloneIsFound(r: Rendering)
    requires Proper(r) && r.Sized?
    ensures Single(Core(r)) == Some((r.size, r.unit))
  {
    SizeIsFound("", r.size, r.d, r.unit);
    assert "" + Core(r) == Core(r);
  }

  lemma CasesAreFound(r: Rendering)
    requires Proper(r) && r.Cases?
    ensures Case(Core(r)) == Some(r.qty)
  {
    assert Written(r.qty) + "" == Written(r.qty) && "" + Core(r) == Core(r);
    CaseIsComplete(Core(r), r.qty, "", r.word, r.b, r.of, r.c, "");
  }

  lemma StripAround(a: string, core: string, e: string)
    requires All(Spaces, a) && All(Spaces, e) && core != "" && Ends(Spaces, core) && !IsSpace(core[|core| - 1])
    ensures Strip(a + core + e) == core
  {
    assert a + core + e == a + (core + e);
    StripLeftBlanks(a, core + e);
    StripRightBlanks(core, e);
  }

  lemma TryThenRest(p: Pattern, rest: seq<Pattern>, s: string)
    ensures TryInTurn([p] + rest, s) == if Try(p, s).Some? then Try(p, s).value else TryInTurn(rest, s)
  {
    assert ([p] + rest)[1..] == rest;
  }

  lemma TrialOrder(s: string)
    ensures TryInTurn(TRIAL_ORDER, s) ==
              if Try(MultiPattern, s).Some? then Try(MultiPattern, s).value
              else if Try(CasePattern, s).Some? then Try(CasePattern, s).value
              else if Try(CountPattern, s).Some? then Try(CountPattern, s).value
              else if Try(SinglePattern, s).Some? then Try(SinglePattern, s).value
              else None
  {
    var last := [SinglePattern] + [];
    var lastTwo := [CountPattern] + last;
    var lastThree := [CasePattern] + lastTwo;
    assert TRIAL_ORDER == [MultiPattern] + lastThree;
    TryThenRest(SinglePattern, [], s);
    TryThenRest(CountPattern, last, s);
    TryThenRest(CasePattern, lastTwo, s);
    TryThenRest(MultiPattern, lastThree, s);
  }

  lemma SizeIsNoOther(s: string)
    requires Single(s).Some?
    ensures MultiPack(s).None? && Case(s).None?
  {
    if MultiPack(s).Some? { MultiPackIsNotSingle(s); }
    if Case(s).Some? { CaseIsNoNumber(s); }
  }

  lemma MultiPackDecides(s: string, qty: Number, size: Number, unit: string)
    requires IsNumeral(qty) && IsNumeral(size) && MultiPack(s) == Some((qty, size, unit))
    ensures TryInTurn(TRIAL_ORDER, s) == Build(Value(qty), Value(size), Lowered(unit))
  {
    TrialOrder(s);
  }

  lemma CaseDecides(s: string, qty: Number)
    requires IsNumeral(qty) && Case(s) == Some(qty) && MultiPack(s).None?
    ensures TryInTurn(TRIAL_ORDER, s) == Build(Value(qty), 1.0, "each")
  {
    TrialOrder(s);
  }

  lemma CountDecides(s: string, qty: Number)
    requires IsNumeral(qty) && Count(s) == Some(qty) && MultiPack(s).None? && Case(s).None?
    ensures TryInTurn(TRIAL_ORDER, s) == Build(Value(qty), 1.0, "each")
  {
    TrialOrder(s);
  }

  lemma OneIsBuilt(size: Number, unit: string, single: Option<(Number, string)>)
    requires IsNumeral(size) && single == Some((size, unit))
    ensures BuildSize(single) == Some(Build(1.0, Value(size), Lowered(unit)))
  {
  }

  lemma SingleMatches(s: string, size: Number, unit: string)
    requires IsNumeral(size) && Single(s) == Some((size, unit))
    ensures Try(SinglePattern, s) == Some(Build(1.0, Value(size), Lowered(unit)))
  {
    OneIsBuilt(size, unit, Single(s));
  }

  lemma SingleDecides(s: string, size: Number, unit: string)
    requires IsNumeral(size) && Single(s) == Some((size, unit))
    requires Try(MultiPattern, s).None? && Try(CasePattern, s).None? && Try(CountPattern, s).None?
    ensures TryInTurn(TRIAL_ORDER, s) == Build(1.0, Value(size), Lowered(unit))
  {
    SingleMatches(s, size, unit);
    TrialOrder(s);
  }

  lemma CountedSize(s: string, size: Number, unit: string)
    requires IsNumeral(size) && Single(s) == Some((size, unit))
    ensures Count(s) == if IsCount(unit) then Some(size) else None
  {
  }

  lemma SizeDecides(s: string, size: Number, unit: string)
    requires IsNumeral(size) && Single(s) == Some((size, unit))
    ensures TryInTurn(TRIAL_ORDER, s) ==
              if IsCount(unit) then Build(Value(size), 1.0, "each") else Build(1.0, Value(size), Lowered(unit))
  {
    SizeIsNoOther(s);
    CountedSize(s, size, unit);
    if IsCount(unit) { CountDecides(s, size); } else { SingleDecides(s, size, unit); }
  }

  lemma CoreIsTried(r: Rendering)
    requires Proper(r)
    ensures var (quantity, size, unit) := Meaning(r); TryInTurn(TRIAL_ORDER, Core(r)) == Build(quantity, size, unit)
  {
    if r.Packs? {
      PacksAreFound(r);
      MultiPackDecides(Core(r), r.qty, r.size, r.unit);
    } else if r.Sized? {
      SizeAloneIsFound(r);
      SizeDecides(Core(r), r.size, r.unit);
    } else {
      CasesAreFound(r);
      CaseIsNoNumber(Core(r));
      CaseDecides(Core(r), r.qty);
    }
  }

  lemma BlanksDoNotMatter(a: string, core: string, e: string)
    requires All(Spaces, a) && All(Spaces, e) && Closed(core) && Ends(Spaces, core)
    ensures IsAscii(a + core + e) && Parse(Some(a + core + e)) == TryInTurn(TRIAL_ORDER, core)
  {
    KindsAreAscii(Spaces, a);
    KindsAreAscii(Spaces, e);
    StripAround(a, core, e);
  }

  lemma RenderingIsBuilt(r: Rendering, a: string, e: string)
    requires Proper(r) && All(Spaces, a) && All(Spaces, e)
    ensures IsAscii(a + Core(r) + e)
    ensures var (quantity, size, unit) := Meaning(r); Parse(Some(a + Core(r) + e)) == Build(quantity, size, unit)
  {
    CoreIsTried(r);
    CoreIsClosed(r);
    BlanksDoNotMatter(a, Core(r), e);
  }

  /** Every rendering, with any blanks around it, parses to its own quantity, size and unit when somebody knows the
      unit, and to nothing when nobody does. */
  lemma RenderingsParseBack(r: Rendering, a: string, e: string)
    requires Proper(r) && All(Spaces, a) && All(Spaces, e)
    ensures IsAscii(a + Core(r) + e)
    ensures var pack := Parse(Some(a + Core(r) + e));
            && (pack.Some? <==> Meaning(r).2 in UNIT_CONVERSIONS)
            && (pack.Some? ==> (pack.value.quantity, pack.value.size, pack.value.unit) == Meaning(r))
  {
    RenderingIsBuilt(r, a, e);
  }

  predicate IsSmall(unit: string) { unit in {"g", "gram", "grams", "ml", "millilitre", "millilitres"} }

  predicate IsMass(unit: string) { unit in {"g", "gram", "grams", "kg", "kilogram", "kilograms"} }

  predicate IsVolume(unit: string) {
    unit in {"ml", "millilitre", "millilitres", "l", "litre", "litres", "liter", "liters"}
  }

  /** Masses come in kilograms, volumes in litres and counts as they are; a small unit is a thousandth. */
  lemma BuildConverts(quantity: real, size: real, unit: string)
    ensures Build(quantity, size, unit).Some? <==>
            IsMass(unit) || IsVolume(unit) || unit in {"unit", "units", "each", "ea"}
    ensures Build(quantity, size, unit).Some? ==>
              var p := Build(quantity, size, unit).value;
              && p.quantity == quantity && p.size == size && p.unit == unit
              && p.baseUnit == (if IsMass(unit) then "kg" else if IsVolume(unit) then "L" else "each")
              && p.baseQuantity * (if IsSmall(unit) then 1000.0 else 1.0) == quantity * size
  {
    if unit in UNIT_CONVERSIONS {
      FactorIs(unit);
      var n := Times(quantity, size);
      assert Times(n, 0.001) * 1000.0 == n && Times(n, 1.0) == n;
    }
  }

  lemma FactorIs(unit: string)
    requires unit in UNIT_CONVERSIONS
    ensures UNIT_CONVERSIONS[unit] == (if IsMass(unit) then "kg" else if IsVolume(unit) then "L" else "each",
                                       if IsSmall(unit) then 0.001 else 1.0)
  {
  }

  /** A numeral denotes its whole digits and its places in decimal notation. */
  lemma NumeralDenotes(n: Number)
    requires IsNumeral(n)
    ensures AllDigits(n.whole) && AllDigits(n.fraction)
    ensures Value(n) == NatOf(n.whole) as real + Over(NatOf(n.fraction) as real, Pow10(|n.fraction|) as real)
  {
    RunIsDigits(n.whole);
    RunIsDigits(n.fraction);
    NatOfConcat(n.whole, n.fraction);
    SplitQuotient(NatOf(n.whole), NatOf(n.fraction), Pow10(|n.fraction|));
  }

  lemma RunIsDigits(s: string)
    requires All(Numerals, s)
    ensures AllDigits(s)
  {
    forall i | 0 <= i < |s| ensures IsDigit(s[i]) { assert s[i] in s; }
  }

  lemma SplitQuotient(a: nat, b: nat, p: nat)
    requires p > 0
    ensures Over((a * p + b) as real, p as real) == a as real + Over(b as real, p as real)
  {
    var x, y, q := a as real, b as real, p as real;
    assert (a * p + b) as real == x * q + y;
    assert (x * q + y) / q == x + y / q;
  }

  // ---------------------------------------------------------------------------
  // Nothing but renderings parses.
  // ---------------------------------------------------------------------------

  lemma {:induction false} StrippedLeft(s: string) returns (a: string)
    ensures All(Spaces, a) && s == a + StripLeft(s)
  {
    if s != "" && IsSpace(s[0]) {
      var rest := StrippedLeft(s[1..]);
      a := [s[0]] + rest;
    } else {
      a := "";
    }
  }

  lemma {:induction false} StrippedRight(s: string) returns (e: string)
    ensures All(Spaces, e) && s == StripRight(s) + e
  {
    if s != "" && IsSpace(s[|s| - 1]) {
      var init := s[..|s| - 1];
      var rest := StrippedRight(init);
      e := rest + [s[|s| - 1]];
      assert s == init + [s[|s| - 1]];
    } else {
      e := "";
    }
  }

  ghost predicate IsRendering(s: string, r: Rendering, a: string, e: string) {
    Proper(r) && All(Spaces, a) && All(Spaces, e) && s == a + Core(r) + e
  }

  ghost predicate WasWritten(s: string) { exists r, a, e :: IsRendering(s, r, a, e) }

  lemma SizeWasWritten(s: string, size: Number, unit: string, a: string, d: string, e: string)
    requires SingleForm(s, size, unit, a, d, e)
    ensures IsRendering(s, Sized(size, d, unit), a, e)
  {
    assert a + (Written(size) + (d + (unit + e))) == a + (Written(size) + (d + unit)) + e;
  }

  lemma PacksWereWritten(s: string, qty: Number, size: Number, unit: string, a: string, b: string, x: char, t: string)
    requires MultiForm(s, qty, size, unit, a, b, x, t)
    ensures WasWritten(s)
  {
    var c, d, e :| SingleForm(t, size, unit, c, d, e);
    SizeWasWritten(t, size, unit, c, d, e);
    var r := Packs(qty, b, x, c, size, d, unit);
    PacksRegrouped(a, Written(qty), b, [x], c, Written(size) + (d + unit), e);
    assert IsRendering(s, r, a, e);
  }

  lemma PacksRegrouped(a: string, qty: string, b: string, x: string, c: string, sized: string, e: string)
    ensures a + (qty + (b + (x + (c + sized + e)))) == a + (qty + (b + (x + (c + sized)))) + e
  {
  }

  lemma CaseWasWritten(s: string, qty: Number, a: string, word: string, b: string, of: string, c: string, e: string)
    requires CaseForm(s, qty, a, word, b, of, c, e)
    ensures IsRendering(s, Cases(word, b, of, c, qty), a, e)
  {
    CaseRegrouped(a, word, b, of, c, Written(qty), e);
  }

  lemma CaseRegrouped(a: string, word: string, b: string, of: string, c: string, qty: string, e: string)
    ensures a + (word + (b + (of + (c + (qty + e))))) == a + (word + (b + (of + (c + qty)))) + e
  {
  }

  lemma SingleWasWritten(s: string, size: Number, unit: string)
    requires exists a, d, e :: SingleForm(s, size, unit, a, d, e)
    ensures WasWritten(s)
  {
    var a, d, e :| SingleForm(s, size, unit, a, d, e);
    SizeWasWritten(s, size, unit, a, d, e);
  }

  lemma MatchWasWritten(s: string)
    requires MultiPack(s).Some? || Case(s).Some? || Single(s).Some?
    ensures WasWritten(s)
  {
    if MultiPack(s).Some? {
      var (qty, size, unit) := MultiPack(s).value;
      MultiPackIsTheRegex(s, qty, size, unit);
      var a, b, x, t :| MultiForm(s, qty, size, unit, a, b, x, t);
      PacksWereWritten(s, qty, size, unit, a, b, x, t);
    } else if Case(s).Some? {
      CaseIsSound(s);
      var a, word, b, of, c, e :| CaseForm(s, Case(s).value, a, word, b, of, c, e);
      CaseWasWritten(s, Case(s).value, a, word, b, of, c, e);
    } else {
      SingleIsTheRegex(s, Single(s).value.0, Single(s).value.1);
      SingleWasWritten(s, Single(s).value.0, Single(s).value.1);
    }
  }

  lemma TriedWasMatched(s: string)
    requires TryInTurn(TRIAL_ORDER, s).Some?
    ensures MultiPack(s).Some? || Case(s).Some? || Single(s).Some?
  {
    TrialOrder(s);
  }

  lemma AroundAndAround(x: string, a: string, core: string, e: string, y: string)
    ensures x + (a + core + e) + y == (x + a) + core + (e + y)
  {
  }

  lemma SpacesAround(x: string, a: string)
    requires All(Spaces, x) && All(Spaces, a)
    ensures All(Spaces, x + a)
  {
  }

  lemma BlanksAround(x: string, s: string, y: string)
    requires All(Spaces, x) && All(Spaces, y) && WasWritten(s)
    ensures WasWritten(x + s + y)
  {
    var r, a, e :| IsRendering(s, r, a, e);
    AroundAndAround(x, a, Core(r), e, y);
    SpacesAround(x, a);
    SpacesAround(e, y);
    assert IsRendering(x + s + y, r, x + a, e + y);
  }

  lemma StripParts(raw: string) returns (x: string, y: string)
    ensures All(Spaces, x) && All(Spaces, y) && raw == x + Strip(raw) + y
  {
    x := StrippedLeft(raw);
    y := StrippedRight(StripLeft(raw));
    AroundAndAround(x, "", Strip(raw), y, "");
  }

  lemma ParsedWasTried(raw: string)
    requires IsAscii(raw) && Parse(Some(raw)).Some?
    ensures TryInTurn(TRIAL_ORDER, Strip(raw)).Some?
  {
  }

  lemma StrippedWasWritten(raw: string)
    requires WasWritten(Strip(raw))
    ensures WasWritten(raw)
  {
    var x, y := StripParts(raw);
    BlanksAround(x, Strip(raw), y);
  }

  lemma ParsedWasWritten(raw: string)
    requires IsAscii(raw) && Parse(Some(raw)).Some?
    ensures WasWritten(raw)
  {
    ParsedWasTried(raw);
    TriedWasMatched(Strip(raw));
    MatchWasWritten(Strip(raw));
    StrippedWasWritten(raw);
  }

  /** A text parses exactly when it is a rendering in a known unit with blanks around it. */
  lemma ParsesExactly(raw: string)
    requires IsAscii(raw)
    ensures Parse(Some(raw)).Some? <==> exists r, a, e :: IsRendering(raw, r, a, e) && Meaning(r).2 in UNIT_CONVERSIONS
  {
    if Parse(Some(raw)).Some? {
      ParsedWasWritten(raw);
      var r, a, e :| IsRendering(raw, r, a, e);
      RenderingsParseBack(r, a, e);
    }
    if r, a, e :| IsRendering(raw, r, a, e) && Meaning(r).2 in UNIT_CONVERSIONS { RenderingsParseBack(r, a, e); }
  }

  /** A thousand of the small unit is one of the large one, so packs are comparable across units. */
  lemma ThousandSmallAreOneLarge(quantity: real, size: real)
    ensures Base(Build(quantity, 1000.0 * size, "g")) == Base(Build(quantity, size, "kg"))
    ensures Base(Build(quantity, 1000.0 * size, "ml")) == Base(Build(quantity, size, "l"))
  {
    assert UNIT_CONVERSIONS["g"] == ("kg", 0.001) && UNIT_CONVERSIONS["kg"] == ("kg", 1.0);
    assert UNIT_CONVERSIONS["ml"] == ("L", 0.001) && UNIT_CONVERSIONS["l"] == ("L", 1.0);
    assert quantity * (1000.0 * size) == 1000.0 * (quantity * size);
  }

  /** price_per_base_unit; None stands for the ValueError. */
  function PricePerBaseUnit(price: real, pack: ParsedPack): (r: Option<real>)
    ensures r.None? <==> pack.baseQuantity == 0.0
    ensures r.Some? ==> Times(r.value, pack.baseQuantity) == price
  {
    if pack.baseQuantity == 0.0 then None else Some(Over(price, pack.baseQuantity))
  }
}
