/** Showing decimal strings without ever turning them into numbers: shifting the point, percentages cut
    to a number of places, and thousands separators.  Slicing follows JavaScript's rules. */
module DecimalDisplay {
  import opened Sql
  import opened Digits

  // ---------------------------------------------------------------------------
  // Decimal strings.
  // ---------------------------------------------------------------------------

  predicate Negative(v: string) { v != "" && v[0] == '-' }

  function Unsigned(v: string): string { if Negative(v) then v[1..] else v }

  /** The first part of split("."). */
  function Whole(u: string): (w: string)
    ensures |w| <= |u| && (|w| < |u| ==> u[|w|] == '.')
  {
    if u == "" || u[0] == '.' then "" else [u[0]] + Whole(u[1..])
  }

  /** The second part of split("."), if there is one. */
  function Fraction(u: string): Option<string> {
    if |Whole(u)| == |u| then None else Some(Whole(u[|Whole(u)| + 1..]))
  }

  function OrEmpty(f: Option<string>): string { if f.None? then "" else f.value }

  function Tail(fraction: Option<string>): (t: string)
    ensures t == "" || t[0] == '.'
  {
    if fraction.None? then "" else "." + fraction.value
  }

  function Written(negative: bool, whole: string, fraction: Option<string>): string {
    if negative then "-" + (whole + Tail(fraction)) else whole + Tail(fraction)
  }

  predicate AreParts(whole: string, fraction: Option<string>) {
    whole != "" && AllDigits(whole) && AllDigits(OrEmpty(fraction))
  }

  /** An optional minus, digits, and perhaps a point and digits. */
  predicate IsDecimal(v: string) {
    var u := Unsigned(v);
    AreParts(Whole(u), Fraction(u)) && v == Written(Negative(v), Whole(u), Fraction(u))
  }

  /** All digits of a decimal as one number, and how many of them stand after the point. */
  function Magnitude(v: string): nat
    requires IsDecimal(v)
  {
    var u := Unsigned(v);
    NatOfConcat(Whole(u), OrEmpty(Fraction(u)));
    NatOf(Whole(u) + OrEmpty(Fraction(u)))
  }

  function WithSign(negative: bool, n: nat): int { if negative then 0 - n else n }

  function Coefficient(v: string): (c: int)
    requires IsDecimal(v)
    ensures (c < 0 <==> Negative(v) && Magnitude(v) != 0) && (c == Magnitude(v) || c == 0 - Magnitude(v))
  {
    WithSign(Negative(v), Magnitude(v))
  }

  function Places(v: string): nat { |OrEmpty(Fraction(Unsigned(v)))| }

  /** m * 10^a == n * 10^b */
  predicate SameNumber(m: int, a: int, n: int, b: int) {
    if a >= b then m * Pow10(a - b) == n else m == n * Pow10(b - a)
  }

  lemma {:induction false} WholeOf(whole: string, rest: string)
    requires AllDigits(whole) && (rest == "" || rest[0] == '.')
    ensures Whole(whole + rest) == whole
  {
    if whole == "" {
      assert whole + rest == rest;
    } else {
      assert (whole + rest)[1..] == whole[1..] + rest;
      WholeOf(whole[1..], rest);
    }
  }

  lemma FractionOf(whole: string, fraction: Option<string>)
    requires AllDigits(whole) && AllDigits(OrEmpty(fraction))
    ensures Fraction(whole + Tail(fraction)) == fraction
  {
    WholeOf(whole, Tail(fraction));
    if fraction.Some? {
      assert (whole + Tail(fraction))[|whole| + 1..] == fraction.value;
      assert fraction.value + "" == fraction.value;
      WholeOf(fraction.value, "");
    }
  }

  lemma Reassociate(a: string, b: string, c: string)
    ensures (a + b) + c == a + (b + c) && "" + b == b && b + "" == b
  {
  }

  /** A decimal written from its parts has those parts. */
  lemma PartsOfWritten(negative: bool, whole: string, fraction: Option<string>)
    requires AreParts(whole, fraction)
    ensures var v := Written(negative, whole, fraction);
            && Negative(v) == negative && Unsigned(v) == whole + Tail(fraction)
            && Whole(Unsigned(v)) == whole && Fraction(Unsigned(v)) == fraction && IsDecimal(v)
  {
    var u := whole + Tail(fraction);
    WholeOf(whole, Tail(fraction));
    FractionOf(whole, fraction);
    assert ("-" + u)[1..] == u;
    assert u[0] == whole[0] && IsDigit(whole[0]);
  }

  // ---------------------------------------------------------------------------
  // Shifting the point.
  // ---------------------------------------------------------------------------

  /** Where slice takes an index to be. */
  function At(s: string, i: int): (k: nat)
    ensures k <= |s|
  {
    if i < 0 then (if |s| + i < 0 then 0 else |s| + i) else if i > |s| then |s| else i
  }

  function Slice(s: string, i: int, j: int): string { if At(s, i) < At(s, j) then s[At(s, i)..At(s, j)] else "" }

  /** replace(/^0+(?=\d)/, "") */
  function StripZeros(s: string): string {
    if |s| >= 2 && s[0] == '0' && IsDigit(s[1]) then StripZeros(s[1..]) else s
  }

  /** "0" or /^0\.0*$/ */
  predicate LooksZero(s: string) {
    s == "0" || (|s| >= 2 && s[0] == '0' && s[1] == '.' && forall i :: 2 <= i < |s| ==> s[i] == '0')
  }

  /** The digits of a decimal with the point moved. */
  function Moved(whole: string, fraction: string, exponent: int): string {
    var digits := whole + fraction;
    var after := |fraction| - exponent;
    if after <= 0 then digits + Zeros(-after)
    else
      var splitAt := |digits| - after;
      var left := Slice(digits, 0, splitAt);
      (if left == "" then "0" else left) + ("." + Slice(digits, splitAt, |digits|))
  }

  /** The sign is put back on unless only zeros are left. */
  function Signed(negative: bool, result: string): string {
    if negative && !LooksZero(result) then "-" + result else result
  }

  /** multiplyDecimalStringByPowerOfTen */
  function Multiply(value: string, exponent: int): string {
    var u := Unsigned(value);
    var result := StripZeros(Moved(Whole(u), OrEmpty(Fraction(u)), exponent));
    Signed(Negative(value), result)
  }

  /** The digits with a point before the k-th of them. */
  function CutAt(digits: string, k: nat): (string, Option<string>)
    requires k <= |digits|
  {
    (if k == 0 then "0" else digits[..k], Some(digits[k..]))
  }

  /** The two parts Moved writes. */
  function MovedParts(digits: string, places: nat, exponent: int): (string, Option<string>) {
    if exponent >= places then (digits + Zeros(exponent - places), None)
    else CutAt(digits, At(digits, |digits| - (places - exponent)))
  }

  lemma CutIsWritten(digits: string, splitAt: int)
    ensures var left := Slice(digits, 0, splitAt);
            var (l, r) := CutAt(digits, At(digits, splitAt));
            (if left == "" then "0" else left) + ("." + Slice(digits, splitAt, |digits|)) == l + Tail(r)
  {
    var k := At(digits, splitAt);
    assert Slice(digits, 0, splitAt) == digits[..k];
    assert Slice(digits, splitAt, |digits|) == digits[k..];
  }

  lemma CutKeepsDigits(digits: string, k: nat)
    requires k <= |digits| && AllDigits(digits)
    ensures var (l, r) := CutAt(digits, k);
            AreParts(l, r) && AllDigits(l + OrEmpty(r)) && NatOf(l + OrEmpty(r)) == NatOf(digits)
  {
    if k == 0 {
      assert digits[0..] == digits;
      ZeroInFront(digits);
    } else {
      assert digits[..k] + digits[k..] == digits;
    }
  }

  lemma ZeroInFront(digits: string)
    requires AllDigits(digits)
    ensures AllDigits("0" + digits) && NatOf("0" + digits) == NatOf(digits)
  {
    NatOfConcat("0", digits);
    ZerosDenoteZero("0");
  }

  lemma PaddingShifts(digits: string, n: nat)
    requires AllDigits(digits)
    ensures AllDigits(digits + Zeros(n)) && NatOf(digits + Zeros(n)) == NatOf(digits) * Pow10(n)
  {
    NatOfConcat(digits, Zeros(n));
    ZerosDenoteZero(Zeros(n));
  }

  lemma MovedIsWritten(whole: string, fraction: string, exponent: int)
    ensures var (left, right) := MovedParts(whole + fraction, |fraction|, exponent);
            Moved(whole, fraction, exponent) == left + Tail(right)
  {
    var digits := whole + fraction;
    if exponent >= |fraction| {
      var all := digits + Zeros(exponent - |fraction|);
      assert all + "" == all;
    } else {
      CutIsWritten(digits, |digits| - (|fraction| - exponent));
    }
  }

  function Grown(n: nat, places: nat, exponent: int): nat {
    if exponent >= places then n * Pow10(exponent - places) else n
  }

  /** The digits of the result are the digits of the value, but for zeros added in front or behind. */
  lemma MovedDigits(digits: string, places: nat, exponent: int)
    requires digits != "" && AllDigits(digits)
    ensures var (left, right) := MovedParts(digits, places, exponent);
            && AreParts(left, right) && AllDigits(left + OrEmpty(right))
            && NatOf(left + OrEmpty(right)) == Grown(NatOf(digits), places, exponent)
  {
    if exponent >= places {
      PaddingShifts(digits, exponent - places);
      Reassociate("", digits + Zeros(exponent - places), "");
    } else {
      CutKeepsDigits(digits, At(digits, |digits| - (places - exponent)));
    }
  }

  /** How many places the result has. */
  lemma MovedPlaces(digits: string, places: nat, exponent: int)
    requires places <= |digits|
    ensures var p := |OrEmpty(MovedParts(digits, places, exponent).1)|;
            && (exponent >= places ==> p == 0)
            && (places - |digits| <= exponent <= places ==> p == places - exponent)
            && (exponent < places - |digits| ==> p < places - exponent)
  {
  }

  lemma {:induction false} ZerosAreStripped(whole: string, tail: string)
    requires whole != "" && AllDigits(whole) && (tail == "" || tail[0] == '.')
    ensures StripZeros(whole + tail) == StripZeros(whole) + tail
    ensures StripZeros(whole) != "" && AllDigits(StripZeros(whole)) && NatOf(StripZeros(whole)) == NatOf(whole)
    ensures |StripZeros(whole)| > 1 ==> StripZeros(whole)[0] != '0'
  {
    if |whole| >= 2 && whole[0] == '0' {
      assert (whole + tail)[1..] == whole[1..] + tail;
      ZerosAreStripped(whole[1..], tail);
      assert whole == "0" + whole[1..];
      NatOfConcat("0", whole[1..]);
      ZerosDenoteZero("0");
    }
  }

  lemma WholeLooksZero(whole: string)
    requires whole != "" && AllDigits(whole) && (|whole| > 1 ==> whole[0] != '0')
    ensures LooksZero(whole) <==> NatOf(whole) == 0
  {
    if whole == "0" { ZerosDenoteZero(whole); }
    if NatOf(whole) == 0 { ZeroMeansZeros(whole); }
  }

  predicate AllZeros(s: string) { forall i :: 0 <= i < |s| ==> s[i] == '0' }

  lemma ZeroIsZeros(s: string)
    requires AllDigits(s)
    ensures NatOf(s) == 0 <==> AllZeros(s)
  {
    if NatOf(s) == 0 { ZeroMeansZeros(s); }
    if AllZeros(s) { ZerosDenoteZero(s); }
  }

  lemma PointLooksZero(whole: string, f: string)
    requires whole != "" && AllDigits(whole) && (|whole| > 1 ==> whole[0] != '0')
    ensures LooksZero(whole + ("." + f)) <==> AllZeros(whole) && AllZeros(f)
  {
    var w := whole + ("." + f);
    assert forall i :: 0 <= i < |whole| ==> w[i] == whole[i];
    assert forall i :: 0 <= i < |f| ==> w[i + |whole| + 1] == f[i];
    assert w[|whole|] == '.';
    if |whole| == 1 {
      assert forall i :: 2 <= i < |w| ==> w[i] == f[i - 2];
    }
  }

  lemma FractionLooksZero(whole: string, f: string)
    requires whole != "" && AllDigits(whole) && AllDigits(f) && (|whole| > 1 ==> whole[0] != '0')
    ensures LooksZero(whole + ("." + f)) <==> NatOf(whole) == 0 && NatOf(f) == 0
  {
    ZeroIsZeros(whole);
    ZeroIsZeros(f);
    PointLooksZero(whole, f);
  }

  lemma JoinIsZero(a: string, b: string)
    requires AllDigits(a) && AllDigits(b)
    ensures AllDigits(a + b) && (NatOf(a + b) == 0 <==> NatOf(a) == 0 && NatOf(b) == 0)
  {
    NatOfConcat(a, b);
  }

  lemma SameJoin(a: string, b: string, c: string)
    requires AllDigits(a) && AllDigits(b) && AllDigits(c) && NatOf(a) == NatOf(b)
    ensures AllDigits(a + c) && AllDigits(b + c) && NatOf(a + c) == NatOf(b + c)
  {
    NatOfConcat(a, c);
    NatOfConcat(b, c);
  }

  lemma LooksZeroMeans(whole: string, fraction: Option<string>)
    requires AreParts(whole, fraction) && (|whole| > 1 ==> whole[0] != '0')
    ensures AllDigits(whole + OrEmpty(fraction))
    ensures LooksZero(Written(false, whole, fraction)) <==> NatOf(whole + OrEmpty(fraction)) == 0
  {
    JoinIsZero(whole, OrEmpty(fraction));
    if fraction.None? {
      assert whole + "" == whole;
      WholeLooksZero(whole);
    } else {
      FractionLooksZero(whole, fraction.value);
    }
  }

  lemma WrittenIsStripped(left: string, right: Option<string>)
    requires AreParts(left, right)
    ensures AreParts(StripZeros(left), right) && NatOf(StripZeros(left)) == NatOf(left)
    ensures |StripZeros(left)| > 1 ==> StripZeros(left)[0] != '0'
    ensures StripZeros(Written(false, left, right)) == Written(false, StripZeros(left), right)
  {
    ZerosAreStripped(left, Tail(right));
  }

  lemma StrippedAndSigned(negative: bool, left: string, right: Option<string>)
    requires AreParts(left, right)
    ensures AllDigits(left + OrEmpty(right))
    ensures Signed(negative, StripZeros(Written(false, left, right)))
            == Written(negative && NatOf(left + OrEmpty(right)) != 0, StripZeros(left), right)
  {
    var short := StripZeros(left);
    WrittenIsStripped(left, right);
    LooksZeroMeans(short, right);
    SameJoin(short, left, OrEmpty(right));
  }

  /** All digits of a decimal. */
  function DigitsOf(v: string): string { Whole(Unsigned(v)) + OrEmpty(Fraction(Unsigned(v))) }

  lemma MultiplyIsWritten(v: string, exponent: int)
    requires IsDecimal(v)
    ensures AllDigits(DigitsOf(v)) && NatOf(DigitsOf(v)) == Magnitude(v)
    ensures var (left, right) := MovedParts(DigitsOf(v), Places(v), exponent);
            && AreParts(left, right)
            && Multiply(v, exponent) == Signed(Negative(v), StripZeros(Written(false, left, right)))
  {
    var u := Unsigned(v);
    NatOfConcat(Whole(u), OrEmpty(Fraction(u)));
    MovedIsWritten(Whole(u), OrEmpty(Fraction(u)), exponent);
    MovedDigits(DigitsOf(v), Places(v), exponent);
  }

  lemma ProductIsZero(n: nat, p: nat)
    requires p > 0
    ensures n * p == 0 <==> n == 0
  {
  }

  lemma ZeroStaysZero(n: nat, places: nat, exponent: int)
    ensures Grown(n, places, exponent) == 0 <==> n == 0
  {
    if exponent >= places { ProductIsZero(n, Pow10(exponent - places)); }
  }

  /** The result is again a decimal, with the digits of the value but for zeros in front or behind, no
      needless zero in front and no negative zero, whatever the exponent. */
  lemma ResultIsTidy(v: string, exponent: int)
    requires IsDecimal(v)
    ensures var r := Multiply(v, exponent);
            && IsDecimal(r) && (|Whole(Unsigned(r))| > 1 ==> Whole(Unsigned(r))[0] != '0')
            && (Negative(r) <==> Negative(v) && Magnitude(v) != 0)
            && Magnitude(r) == Grown(Magnitude(v), Places(v), exponent)
            && Fraction(Unsigned(r)) == MovedParts(DigitsOf(v), Places(v), exponent).1
  {
    var (left, right) := MovedParts(DigitsOf(v), Places(v), exponent);
    MultiplyIsWritten(v, exponent);
    MovedDigits(DigitsOf(v), Places(v), exponent);
    ZeroStaysZero(Magnitude(v), Places(v), exponent);
    WrittenIsStripped(left, right);
    StrippedAndSigned(Negative(v), left, right);
    PartsOfWritten(Negative(v) && Magnitude(v) != 0, StripZeros(left), right);
    SameJoin(StripZeros(left), left, OrEmpty(right));
  }

  lemma SignedProduct(n: nat, p: nat)
    ensures (0 - n) * p == 0 - n * p
  {
  }

  lemma OnlyZeroStays(n: int, k: nat)
    requires k > 0
    ensures n == n * Pow10(k) <==> n == 0
  {
    var p := Pow10(k);
    assert p >= 10 by { assert p == 10 * Pow10(k - 1); }
    if n > 0 { assert n * p >= n * 10; }
    if n < 0 { assert n * p <= n * 10; }
  }

  lemma ExactPlaces(c: int, r: int, a: int, b: int)
    requires if a > b then r == c * Pow10(a - b) else r == c
    ensures SameNumber(c, a, r, b) <==> a >= b || c == 0
  {
    assert Pow10(0) == 1 && c * 1 == c;
    if a < b { OnlyZeroStays(c, b - a); }
  }

  /** d is c with the zeros that go behind it. */
  predicate Scaled(c: int, d: int, before: int, exponent: int) {
    d == if exponent > before then c * Pow10(exponent - before) else c
  }

  lemma GrownWithSign(negative: bool, n: nat, places: nat, exponent: int)
    ensures Scaled(WithSign(negative, n), WithSign(negative && n != 0, Grown(n, places, exponent)), places, exponent)
  {
    assert Pow10(0) == 1 && n * 1 == n;
    if exponent > places { SignedProduct(n, Pow10(exponent - places)); }
  }

  lemma ShiftedCoefficient(v: string, exponent: int)
    requires IsDecimal(v)
    ensures IsDecimal(Multiply(v, exponent))
    ensures Scaled(Coefficient(v), Coefficient(Multiply(v, exponent)), Places(v), exponent)
  {
    ResultIsTidy(v, exponent);
    GrownWithSign(Negative(v), Magnitude(v), Places(v), exponent);
  }

  lemma PlacesAfter(v: string, exponent: int)
    requires IsDecimal(v)
    ensures var after := Places(Multiply(v, exponent));
            && (exponent >= Places(v) ==> after == 0)
            && (-|Whole(Unsigned(v))| <= exponent <= Places(v) ==> after == Places(v) - exponent)
            && (exponent < -|Whole(Unsigned(v))| ==> after < Places(v) - exponent)
  {
    ResultIsTidy(v, exponent);
    MovedPlaces(DigitsOf(v), Places(v), exponent);
  }

  /** c with a digits after the point, times ten to the exponent, is d with b digits after the point. */
  predicate SameAfterShift(c: int, a: int, exponent: int, d: int, b: int) { SameNumber(c, exponent - a, d, 0 - b) }

  /** r denotes v times ten to the exponent. */
  predicate Denotes(r: string, v: string, exponent: int)
    requires IsDecimal(r) && IsDecimal(v)
  {
    SameAfterShift(Coefficient(v), Places(v), exponent, Coefficient(r), Places(r))
  }

  lemma PlacesDecide(c: int, d: int, before: int, after: int, exponent: int, room: int)
    requires Scaled(c, d, before, exponent)
    requires room >= 0 && before >= 0 && (exponent >= before ==> after == 0)
    requires -room <= exponent <= before ==> after == before - exponent
    requires exponent < -room ==> after < before - exponent
    ensures SameAfterShift(c, before, exponent, d, after) <==> exponent >= -room || c == 0
  {
    ExactPlaces(c, d, exponent - before, 0 - after);
  }

  /** The shifted string denotes the value times the power of ten exactly when the point does not have to
      pass in front of the whole part, or there is nothing to shift. */
  lemma ShiftIsExact(v: string, exponent: int)
    requires IsDecimal(v)
    ensures IsDecimal(Multiply(v, exponent))
    ensures Denotes(Multiply(v, exponent), v, exponent) <==> exponent >= -|Whole(Unsigned(v))| || Coefficient(v) == 0
  {
    var r := Multiply(v, exponent);
    ShiftedCoefficient(v, exponent);
    PlacesAfter(v, exponent);
    PlacesDecide(Coefficient(v), Coefficient(r), Places(v), Places(r), exponent, |Whole(Unsigned(v))|);
  }

  // ---------------------------------------------------------------------------
  // Percentages.
  // ---------------------------------------------------------------------------

  /** The digits cut off are what is left over by division. */
  lemma CutDigits(whole: string, fraction: string, k: nat)
    requires AllDigits(whole) && AllDigits(fraction) && k <= |fraction|
    ensures AllDigits(whole + fraction[..k]) && AllDigits(whole + fraction)
    ensures var rest := Pow10(|fraction| - k);
            NatOf(whole + fraction[..k]) * rest <= NatOf(whole + fraction) < (NatOf(whole + fraction[..k]) + 1) * rest
  {
    var head, tail := whole + fraction[..k], fraction[k..];
    NatOfConcat(whole, fraction[..k]);
    assert whole + fraction == head + tail;
    NatOfConcat(head, tail);
    NatOfBound(tail);
    Distribute(NatOf(head), Pow10(|tail|));
  }

  lemma Distribute(m: nat, p: nat)
    ensures (m + 1) * p == m * p + p
  {
  }

  /** The first k of the fraction's places, zeros added when there are fewer. */
  function Padded(fraction: string, k: nat): string { (fraction + Zeros(k))[..k] }

  lemma Scale(m: nat, p: nat, n: nat, q: nat)
    requires m * p <= n < (m + 1) * p && q > 0
    ensures m * (p * q) <= n * q < (m + 1) * (p * q)
  {
    assert m * (p * q) == (m * p) * q;
    assert (m + 1) * (p * q) == ((m + 1) * p) * q;
  }

  /** m units of 10^-k are n units of 10^-p cut toward zero. */
  predicate CutTo(m: nat, p: nat, n: nat, k: nat) { m * Pow10(p) <= n * Pow10(k) < (m + 1) * Pow10(p) }

  /** Cutting or padding to k places truncates. */
  lemma PaddedTruncates(whole: string, fraction: string, k: nat)
    requires AllDigits(whole) && AllDigits(fraction)
    ensures AllDigits(whole + Padded(fraction, k)) && AllDigits(whole + fraction)
    ensures var m, n := NatOf(whole + Padded(fraction, k)), NatOf(whole + fraction);
            CutTo(m, |fraction|, n, k)
  {
    if k <= |fraction| {
      assert Padded(fraction, k) == fraction[..k];
      CutDigits(whole, fraction, k);
      PowSum(|fraction| - k, k);
      Scale(NatOf(whole + fraction[..k]), Pow10(|fraction| - k), NatOf(whole + fraction), Pow10(k));
    } else {
      var more := k - |fraction|;
      assert Padded(fraction, k) == fraction + Zeros(more);
      assert whole + Padded(fraction, k) == (whole + fraction) + Zeros(more);
      NatOfConcat(whole, fraction);
      PaddingShifts(whole + fraction, more);
      PowSum(more, |fraction|);
      Regroup(NatOf(whole + fraction), Pow10(more), Pow10(|fraction|));
      Distribute(NatOf(whole + Padded(fraction, k)), Pow10(|fraction|));
    }
  }

  lemma Regroup(n: nat, p: nat, q: nat)
    ensures (n * p) * q == n * (p * q)
  {
  }

  /** formatDecimalPercent of a known value, without the percent sign. */
  function PercentText(value: string, fractionDigits: nat): string {
    var points := Multiply(value, 2);
    var whole, fraction := Whole(points), OrEmpty(Fraction(points));
    if fractionDigits > 0 then whole + ("." + Padded(fraction, fractionDigits)) else whole
  }

  lemma SplitMinus(u: string)
    ensures Whole("-" + u) == "-" + Whole(u) && Fraction("-" + u) == Fraction(u)
  {
    var v := "-" + u;
    assert v[1..] == u;
    assert v[|Whole(u)| + 1..] == u[|Whole(u)|..];
    if |Whole(u)| < |u| { assert v[|Whole(u)| + 2..] == u[|Whole(u)| + 1..]; }
  }

  lemma SplitSigned(v: string)
    ensures Whole(v) == (if Negative(v) then "-" + Whole(Unsigned(v)) else Whole(v))
    ensures Fraction(v) == Fraction(Unsigned(v))
  {
    if Negative(v) {
      assert v == "-" + v[1..];
      SplitMinus(v[1..]);
    }
  }

  function PercentPlaces(fraction: string, k: nat): Option<string> { if k > 0 then Some(Padded(fraction, k)) else None }

  lemma PercentIsWritten(v: string, k: nat)
    requires IsDecimal(v)
    ensures IsDecimal(Multiply(v, 2))
    ensures var points := Multiply(v, 2);
            var u := Unsigned(points);
            PercentText(v, k) == Written(Negative(points), Whole(u), PercentPlaces(OrEmpty(Fraction(u)), k))
  {
    ResultIsTidy(v, 2);
    var points := Multiply(v, 2);
    SplitSigned(points);
    var whole, tail := Whole(Unsigned(points)), "." + Padded(OrEmpty(Fraction(Unsigned(points))), k);
    Reassociate("", whole, tail);
    Reassociate("-", whole, tail);
  }

  lemma PaddedDigits(fraction: string, k: nat)
    requires AllDigits(fraction)
    ensures AllDigits(Padded(fraction, k)) && |Padded(fraction, k)| == k
    ensures OrEmpty(PercentPlaces(fraction, k)) == Padded(fraction, k)
  {
    PaddingShifts(fraction, k);
  }

  lemma TruncationCarries(m: nat, n: nat, p: nat, magnitude: nat, places: nat, k: nat)
    requires CutTo(m, p, n, k)
    requires p == (if places >= 2 then places - 2 else 0) && n == Grown(magnitude, places, 2)
    ensures CutTo(m, places, magnitude, k + 2)
  {
    var q := if places >= 2 then 2 else places;
    Scale(m, Pow10(p), n * Pow10(k), Pow10(q));
    PowSum(p, q);
    assert p + q == places;
    if places >= 2 {
      assert Pow10(0) == 1 && n == magnitude;
      PowSum(k, 2);
      Regroup(n, Pow10(k), Pow10(2));
    } else {
      PowSum(2 - places, k);
      PowSum(2 - places + k, places);
      Regroup(magnitude, Pow10(2 - places), Pow10(k));
      Regroup(magnitude, Pow10(2 - places + k), Pow10(places));
    }
  }

  /** The parts of the text a percentage is shown as. */
  lemma PercentParts(v: string, k: nat)
    requires IsDecimal(v)
    ensures IsDecimal(Multiply(v, 2))
    ensures var u := Unsigned(Multiply(v, 2));
            var digits := Whole(u) + Padded(OrEmpty(Fraction(u)), k);
            var t := PercentText(v, k);
            && IsDecimal(t) && Places(t) == k && Negative(t) == Negative(Multiply(v, 2))
            && AllDigits(digits) && Magnitude(t) == NatOf(digits)
  {
    var points := Multiply(v, 2);
    PercentIsWritten(v, k);
    var whole, fraction := Whole(Unsigned(points)), OrEmpty(Fraction(Unsigned(points)));
    PaddedDigits(fraction, k);
    NatOfConcat(whole, Padded(fraction, k));
    PartsOfWritten(Negative(points), whole, PercentPlaces(fraction, k));
  }

  lemma PercentIsCut(v: string, k: nat)
    requires IsDecimal(v)
    ensures IsDecimal(Multiply(v, 2)) && IsDecimal(PercentText(v, k))
    ensures CutTo(Magnitude(PercentText(v, k)), Places(Multiply(v, 2)), Magnitude(Multiply(v, 2)), k)
  {
    var u := Unsigned(Multiply(v, 2));
    PercentParts(v, k);
    assert CutTo(NatOf(Whole(u) + Padded(OrEmpty(Fraction(u)), k)), |OrEmpty(Fraction(u))|,
                 NatOf(Whole(u) + OrEmpty(Fraction(u))), k) by {
      PaddedTruncates(Whole(u), OrEmpty(Fraction(u)), k);
    }
  }

  /** The percentage is the value times one hundred, cut toward zero after k places: it falls short of it
      by less than one unit of its last place, and keeps its sign. */
  lemma PercentTruncates(v: string, k: nat)
    requires IsDecimal(v)
    ensures var t := PercentText(v, k);
            && IsDecimal(t) && Places(t) == k && (Negative(t) <==> Negative(v) && Magnitude(v) != 0)
            && CutTo(Magnitude(t), Places(v), Magnitude(v), k + 2)
  {
    PercentParts(v, k);
    ResultIsTidy(v, 2);
    PlacesAfter(v, 2);
    PercentIsCut(v, k);
    TruncationCarries(Magnitude(PercentText(v, k)), Magnitude(Multiply(v, 2)), Places(Multiply(v, 2)),
                      Magnitude(v), Places(v), k);
  }

  lemma Quotient(m: nat, p: nat, x: nat)
    requires m * p <= x < (m + 1) * p
    ensures m == 0 <==> x < p
  {
    if m > 0 { assert m * p >= 1 * p; }
  }

  lemma BelowOne(m: nat, p: nat, n: nat, k: nat)
    requires CutTo(m, p, n, k)
    ensures m == 0 <==> n * Pow10(k) < Pow10(p)
  {
    Quotient(m, Pow10(p), n * Pow10(k));
  }

  /** A percentage shows a minus before nothing but zeros exactly for a negative value under one unit of
      the last place shown. */
  lemma NegativeZeroPercent(v: string, k: nat)
    requires IsDecimal(v)
    ensures IsDecimal(PercentText(v, k))
    ensures Negative(PercentText(v, k)) && Magnitude(PercentText(v, k)) == 0
            <==> Negative(v) && Magnitude(v) != 0 && Magnitude(v) * Pow10(k + 2) < Pow10(Places(v))
  {
    PercentTruncates(v, k);
    BelowOne(Magnitude(PercentText(v, k)), Places(v), Magnitude(v), k + 2);
  }

  // ---------------------------------------------------------------------------
  // Thousands separators.
  // ---------------------------------------------------------------------------

  /** replace(/\B(?=(\d{3})+(?!\d))/g, ",") on the first i digits of a whole part of n: a comma goes in front
      of every digit but the first that has a multiple of three digits from itself to the end. */
  function Separated(digits: string, n: nat, i: nat): string
    requires i <= |digits| && i <= n
  {
    if i == 0 then ""
    else Separated(digits, n, i - 1) + (if i > 1 && (n - i + 1) % 3 == 0 then [',', digits[i - 1]] else [digits[i - 1]])
  }

  function WithSeparators(digits: string): string { Separated(digits, |digits|, |digits|) }

  /** insertThousandsSeparators */
  function InsertSeparators(value: string): string {
    var u := Unsigned(value);
    var text := WithSeparators(Whole(u)) + Tail(Fraction(u));
    if Negative(value) then "-" + text else text
  }

  function Erased(s: string): string {
    if s == "" then "" else if s[0] == ',' then Erased(s[1..]) else [s[0]] + Erased(s[1..])
  }

  lemma {:induction false} ErasedConcat(s: string, t: string)
    ensures Erased(s + t) == Erased(s) + Erased(t)
  {
    if s == "" {
      assert s + t == t;
    } else {
      assert (s + t)[1..] == s[1..] + t;
      ErasedConcat(s[1..], t);
    }
  }

  lemma {:induction false} NothingToErase(s: string)
    requires ',' !in s
    ensures Erased(s) == s
  {
    if s != "" {
      assert s == [s[0]] + s[1..];
      NothingToErase(s[1..]);
    }
  }

  lemma OneIsKept(c: char)
    requires c != ','
    ensures Erased([c]) == [c] && Erased([',', c]) == [c]
  {
    assert [c][1..] == "" && [',', c][1..] == [c];
  }

  lemma {:induction false} SeparatorsAreErased(digits: string, n: nat, i: nat)
    requires i <= |digits| && i <= n && AllDigits(digits)
    ensures Erased(Separated(digits, n, i)) == digits[..i]
  {
    if i > 0 {
      var c := digits[i - 1];
      SeparatorsAreErased(digits, n, i - 1);
      OneIsKept(c);
      ErasedConcat(Separated(digits, n, i - 1), if i > 1 && (n - i + 1) % 3 == 0 then [',', c] else [c]);
      assert digits[..i] == digits[..i - 1] + [c];
    }
  }

  lemma WholeIsErased(digits: string)
    requires AllDigits(digits)
    ensures Erased(WithSeparators(digits)) == digits
  {
    SeparatorsAreErased(digits, |digits|, |digits|);
    assert digits[..|digits|] == digits;
  }

  /** Erasing the separators gives the value back. */
  lemma ErasingUndoesInserting(v: string)
    requires IsDecimal(v)
    ensures Erased(InsertSeparators(v)) == v
  {
    var u := Unsigned(v);
    var text, tail := WithSeparators(Whole(u)), Tail(Fraction(u));
    WholeIsErased(Whole(u));
    assert ',' !in tail;
    NothingToErase(tail);
    ErasedConcat(text, tail);
    assert ("-" + (text + tail))[1..] == text + tail;
  }

  /** Groups of three counted from the right, the first one to three digits long. */
  function Grouped(digits: string): string {
    if |digits| <= 3 then digits else Grouped(digits[..|digits| - 3]) + ("," + digits[|digits| - 3..])
  }

  /** A shown amount is its sign, its whole digits in groups of three, and the point and places as they were. */
  lemma InsertingMeans(negative: bool, whole: string, fraction: Option<string>)
    requires AreParts(whole, fraction)
    ensures InsertSeparators(Written(negative, whole, fraction)) == Written(negative, Grouped(whole), fraction)
  {
    PartsOfWritten(negative, whole, fraction);
    SeparatorsGroupByThree(whole);
  }

  lemma {:induction false} ThreeMoreDigits(digits: string, n: nat, i: nat)
    requires i <= n <= |digits|
    ensures Separated(digits, n + 3, i) == Separated(digits[..n], n, i)
  {
    if i > 0 {
      ThreeMoreDigits(digits, n, i - 1);
      assert (n + 3 - i + 1) % 3 == (n - i + 1) % 3;
    }
  }

  lemma LastThree(digits: string, n: nat)
    requires |digits| == n + 3 && n > 0
    ensures WithSeparators(digits) == Separated(digits, n + 3, n) + ("," + digits[n..])
  {
    var head := Separated(digits, n + 3, n);
    assert Separated(digits, n + 3, n + 1) == head + [',', digits[n]];
    assert Separated(digits, n + 3, n + 2) == (head + [',', digits[n]]) + [digits[n + 1]];
    assert Separated(digits, n + 3, n + 3) == ((head + [',', digits[n]]) + [digits[n + 1]]) + [digits[n + 2]];
    assert "," + digits[n..] == [',', digits[n]] + [digits[n + 1]] + [digits[n + 2]];
  }

  lemma {:induction false} ShortIsWhole(digits: string, i: nat)
    requires i <= |digits| <= 3
    ensures Separated(digits, |digits|, i) == digits[..i]
  {
    if i > 0 {
      ShortIsWhole(digits, i - 1);
      assert digits[..i] == digits[..i - 1] + [digits[i - 1]];
    }
  }

  /** The look-ahead rule makes the usual grouping: every group after the first has three digits. */
  lemma {:induction false} SeparatorsGroupByThree(digits: string)
    ensures WithSeparators(digits) == Grouped(digits)
  {
    if |digits| > 3 {
      var n := |digits| - 3;
      LastThree(digits, n);
      ThreeMoreDigits(digits, n, n);
      SeparatorsGroupByThree(digits[..n]);
    } else {
      ShortIsWhole(digits, |digits|);
      assert digits[..|digits|] == digits;
    }
  }
}
