/** Exact timestamp arithmetic. */
module Timestamps {
  // 192-bit products over 32-bit limbs, comparison of ticks in different time bases, checked addition and the
  // bracket-and-bisect search for the least tick count.

  import opened Options

  const MAX64: int := 0x7fff_ffff_ffff_ffff
  const MIN64: int := -0x8000_0000_0000_0000
  const LIMB: int := 0x1_0000_0000

  type i64 = x: int | MIN64 <= x <= MAX64
  type u64 = x: int | 0 <= x < LIMB * LIMB
  type limb = x: int | 0 <= x < LIMB

  function Low(x: nat): limb { x % LIMB }

  function High(x: nat): nat { x / LIMB }

  // ---------------------------------------------------------------------
  // Little-endian values of limb sequences

  function Pow(n: nat): (p: nat)
    ensures p > 0
  {
    if n == 0 then 1 else LIMB * Pow(n - 1)
  }

  function Val(s: seq<limb>): nat {
    if s == [] then 0 else s[0] + LIMB * Val(s[1..])
  }

  lemma {:induction false} PowAdd(m: nat, n: nat)
    ensures Pow(m + n) == Pow(m) * Pow(n)
  {
    if m != 0 {
      PowAdd(m - 1, n);
      MulAssoc(LIMB, Pow(m - 1), Pow(n));
    }
  }

  lemma MulAssoc(a: int, b: int, c: int)
    ensures a * (b * c) == (a * b) * c
  {
  }

  lemma {:induction false} ValSnoc(s: seq<limb>, x: limb)
    ensures Val(s + [x]) == Val(s) + x * Pow(|s|)
  {
    if s == [] {
      assert s + [x] == [x];
      assert Val([x]) == x + LIMB * Val([]);
    } else {
      assert (s + [x])[1..] == s[1..] + [x];
      ValSnoc(s[1..], x);
      assert LIMB * (x * Pow(|s| - 1)) == x * (LIMB * Pow(|s| - 1));
    }
  }

  lemma {:induction false} ValUpdate(s: seq<limb>, i: nat, x: limb)
    requires i < |s|
    ensures Val(s[i := x]) == Val(s) + (x - s[i]) * Pow(i)
  {
    if i == 0 {
      assert s[0 := x][1..] == s[1..];
    } else {
      assert s[i := x][1..] == s[1..][i - 1 := x];
      ValUpdate(s[1..], i - 1, x);
      assert LIMB * ((x - s[i]) * Pow(i - 1)) == (x - s[i]) * (LIMB * Pow(i - 1));
    }
  }

  lemma {:induction false} ValBound(s: seq<limb>)
    ensures Val(s) < Pow(|s|)
  {
    if s != [] {
      ValBound(s[1..]);
    }
  }

  lemma {:induction false} ValZero(s: seq<limb>)
    requires forall i :: 0 <= i < |s| ==> s[i] == 0
    ensures Val(s) == 0
  {
    if s != [] {
      ValZero(s[1..]);
    }
  }

  // ---------------------------------------------------------------------
  // The 192-bit product

  function Word(factor: u64, row: nat): limb {
    if row == 0 then Low(factor) else Low(High(factor))
  }

  /** Sum of the first schoolbook rows as they are computed: row r never meets the topmost r limbs. */
  function Rows(s: seq<limb>, factor: u64, count: nat): nat
    requires |s| == 6 && count <= 2
  {
    if count == 0 then 0
    else Rows(s, factor, count - 1) + Word(factor, count - 1) * Val(s[..7 - count]) * Pow(count - 1)
  }

  function RowProduct(s: seq<limb>, factor: u64): nat
    requires |s| == 6
  {
    Rows(s, factor, 2)
  }

  method MultiplyRow(source: seq<limb>, result: array<limb>, word: limb, shift: nat) returns (carry: int)
    requires |source| == 6 && result.Length == 6 && shift <= 1
    modifies result
    ensures 0 <= carry < LIMB
    ensures Val(result[..]) + carry * Pow(6) == old(Val(result[..])) + word * Val(source[..6 - shift]) * Pow(shift)
  {
    ghost var before := result[..];
    carry := 0;
    var index := 0;
    while index + shift < 6
      invariant index + shift <= 6
      invariant 0 <= carry < LIMB
      invariant Val(result[..]) + carry * Pow(index + shift) == Val(before) + word * Val(source[..index]) * Pow(shift)
    {
      var destination := index + shift;
      ghost var now := result[..];
      var current := source[index] * word + result[destination] + carry;
      assert current <= (LIMB - 1) * (LIMB - 1) + (LIMB - 1) + (LIMB - 1) by {
        ProductBound(source[index], word);
      }
      RowStep(now, source, index, shift, word, carry, Val(before));
      result[destination] := Low(current);
      assert result[..] == now[destination := Low(current)];
      carry := High(current);
      index := index + 1;
    }
    assert source[..index] == source[..6 - shift];
  }

  lemma ProductBound(a: limb, b: limb)
    ensures 0 <= a * b <= (LIMB - 1) * (LIMB - 1)
  {
    MulMono(a, LIMB - 1, b);
    MulMono(b, LIMB - 1, LIMB - 1);
  }

  lemma MulMono(a: int, b: int, c: nat)
    requires a <= b
    ensures a * c <= b * c && c * a <= c * b
  {
  }

  /** One limb of a row moves weight from the carry into the result and the next carry. */
  lemma RowStep(now: seq<limb>, source: seq<limb>, index: nat, shift: nat, word: limb, carry: int, base: nat)
    requires |now| == 6 && |source| == 6 && index + shift < 6
    requires carry >= 0
    requires Val(now) + carry * Pow(index + shift) == base + word * Val(source[..index]) * Pow(shift)
    ensures var current := source[index] * word + now[index + shift] + carry;
            Val(now[index + shift := Low(current)]) + High(current) * Pow(index + shift + 1)
              == base + word * Val(source[..index + 1]) * Pow(shift)
  {
    var d := index + shift;
    var current := source[index] * word + now[d] + carry;
    ValUpdate(now, d, Low(current));
    var high, low, p := High(current), Low(current), Pow(d);
    assert high * Pow(d + 1) == (high * LIMB) * p by { MulAssoc(high, LIMB, p); }
    assert (low - now[d]) * p + (high * LIMB) * p == (current - now[d]) * p by {
      Distribute(low - now[d], high * LIMB, p);
      assert low + high * LIMB == current;
    }
    assert (current - now[d]) * p == (source[index] * word) * p + carry * p by {
      Distribute(source[index] * word, carry, p);
    }
    assert source[..index + 1] == source[..index] + [source[index]];
    ValSnoc(source[..index], source[index]);
    PowAdd(index, shift);
    assert word * Val(source[..index + 1]) * Pow(shift)
      == word * Val(source[..index]) * Pow(shift) + (source[index] * word) * p by {
      RowTerm(word, Val(source[..index]), source[index], Pow(index), Pow(shift));
    }
  }

  lemma Distribute(a: int, b: int, c: int)
    ensures a * c + b * c == (a + b) * c
  {
  }

  lemma RowTerm(w: int, v: int, x: int, pi: int, ps: int)
    ensures w * (v + x * pi) * ps == w * v * ps + (x * w) * (pi * ps)
  {
    assert w * (v + x * pi) == w * v + w * (x * pi);
    Distribute(w * v, w * (x * pi), ps);
    assert w * (x * pi) == (x * w) * pi by { MulAssoc(w, x, pi); }
    MulAssoc(x * w, pi, ps);
  }

  lemma CarryOverflows(s: seq<limb>, factor: u64, row: nat, value: nat, carry: nat)
    requires |s| == 6 && row < 2 && carry > 0
    requires value + carry * Pow(6) == Rows(s, factor, row + 1)
    ensures RowProduct(s, factor) >= Pow(6)
  {
    MulMono(1, carry, Pow(6));
    assert Rows(s, factor, 2) >= Rows(s, factor, row + 1);
  }

  lemma NoRows(s: seq<limb>, factor: u64)
    requires |s| == 6
    ensures Rows(s, factor, 0) == 0
  {
  }

  lemma NextRow(s: seq<limb>, factor: u64, row: nat)
    requires |s| == 6 && row < 2
    ensures Rows(s, factor, row + 1) == Rows(s, factor, row) + Word(factor, row) * Val(s[..6 - row]) * Pow(row)
  {
  }

  /** Multiplies in place; reports false and leaves the value alone when a row carries out. */
  method Multiply(value: array<limb>, factor: u64) returns (ok: bool)
    requires value.Length == 6
    modifies value
    ensures ok <==> old(RowProduct(value[..], factor)) < Pow(6)
    ensures ok ==> Val(value[..]) == old(RowProduct(value[..], factor))
    ensures !ok ==> value[..] == old(value[..])
  {
    hide Val, Rows, Pow;
    var source := value[..];
    var result := new limb[6](_ => 0);
    ValZero(result[..]);
    NoRows(source, factor);
    var row := 0;
    while row < 2
      invariant 0 <= row <= 2
      invariant value[..] == source
      invariant Val(result[..]) == Rows(source, factor, row)
    {
      NextRow(source, factor, row);
      var carry := MultiplyRow(source, result, Word(factor, row), row);
      ValBound(result[..]);
      if carry != 0 {
        CarryOverflows(source, factor, row, Val(result[..]), carry);
        return false;
      }
      row := row + 1;
    }
    ValBound(result[..]);
    ghost var total := result[..];
    forall i | 0 <= i < 6 {
      value[i] := result[i];
    }
    assert value[..] == total;
    ok := true;
  }

  /** The product is exact precisely when the factor fits one word or the top limb is clear. */
  lemma RowProductExact(s: seq<limb>, factor: u64)
    requires |s| == 6
    ensures RowProduct(s, factor) == Val(s) * factor <==> s[5] == 0 || factor < LIMB
  {
    var low, high := Low(factor), High(factor);
    assert s[..6] == s && s == s[..5] + [s[5]];
    ValSnoc(s[..5], s[5]);
    var v, t := Val(s[..5]), s[5] * Pow(5);
    assert RowProduct(s, factor) == low * Val(s) + high * v * LIMB by {
      assert Low(high) == high && Pow(0) == 1 && Pow(1) == LIMB;
      assert Rows(s, factor, 1) == low * Val(s);
    }
    ExactSplit(low, high, v, t);
    ZeroProduct(s[5], Pow(5));
    ZeroProduct(t, high * LIMB);
  }

  lemma ExactSplit(low: nat, high: nat, v: nat, t: nat)
    ensures (v + t) * (low + high * LIMB) == low * (v + t) + high * v * LIMB + t * (high * LIMB)
  {
    Distribute(v, t, high * LIMB);
    MulAssoc(v, high, LIMB);
  }

  lemma ZeroProduct(a: nat, b: nat)
    ensures a * b == 0 <==> a == 0 || b == 0
  {
  }

  /** A carry the rows miss: 2^160 times 2^32 is reported as representable, with result zero. */
  lemma TopLimbCarryIsMissed()
    ensures var s: seq<limb> := [0, 0, 0, 0, 0, 1];
            RowProduct(s, LIMB) == 0 && Val(s) * LIMB == Pow(6)
  {
    var s: seq<limb> := [0, 0, 0, 0, 0, 1];
    ValZero(s[..5]);
    assert s == s[..5] + [1];
    ValSnoc(s[..5], 1);
    assert Word(LIMB, 0) == 0;
    assert Rows(s, LIMB, 1) == 0;
  }

  lemma TopLimbClear(s: seq<limb>)
    requires |s| == 6 && Val(s) < Pow(5)
    ensures s[5] == 0
  {
    assert s == s[..5] + [s[5]];
    ValSnoc(s[..5], s[5]);
    if s[5] != 0 {
      MulMono(1, s[5], Pow(5));
    }
  }

  lemma BelowPow(a: nat, b: u64, n: nat)
    requires a < Pow(n)
    ensures 0 <= a * b < Pow(n + 2)
  {
    MulMono(a, Pow(n) - 1, b);
    MulMono(b, LIMB * LIMB - 1, Pow(n) - 1);
    assert Pow(n + 2) == LIMB * LIMB * Pow(n) by { PowAdd(2, n); }
    SquareBound(Pow(n), LIMB * LIMB);
  }

  lemma SquareBound(p: nat, q: nat)
    requires p > 0 && q > 0
    ensures (q - 1) * (p - 1) < q * p
  {
    Distribute(q - 1, 1, p);
  }

  /** The product of three 64-bit factors always fits: no row carry is lost on this path. */
  method Product(first: u64, second: u64, third: u64) returns (result: array<limb>)
    ensures fresh(result) && result.Length == 6
    ensures Val(result[..]) == first * second * third
  {
    result := new limb[6](index => if index == 0 then 1 else 0);
    ValZero(result[1..]);
    assert Val(result[..]) == 1;
    assert Pow(0) == 1 && Pow(2) == LIMB * LIMB;
    BelowPow(first, second, 2);
    BelowPow(first * second, third, 4);
    MultiplyInto(result, first);
    MultiplyInto(result, second);
    MultiplyInto(result, third);
  }

  method MultiplyInto(value: array<limb>, factor: u64)
    requires value.Length == 6
    requires Val(value[..]) < Pow(5) && Val(value[..]) * factor < Pow(6)
    modifies value
    ensures Val(value[..]) == old(Val(value[..])) * factor
  {
    TopLimbClear(value[..]);
    RowProductExact(value[..], factor);
    var representable := Multiply(value, factor);
  }

  method CompareUnsigned(left: array<limb>, right: array<limb>) returns (order: int)
    requires left.Length == 6 && right.Length == 6
    ensures order == Sign(Val(left[..]) - Val(right[..]))
  {
    var index := 6;
    while index > 0
      invariant 0 <= index <= 6
      invariant left[index..] == right[index..]
    {
      index := index - 1;
      if left[index] != right[index] {
        TopDifference(left[..], right[..], index);
        return if left[index] < right[index] then -1 else 1;
      }
    }
    assert left[..] == left[0..] && right[..] == right[0..];
    order := 0;
  }

  function Sign(x: int): int {
    if x < 0 then -1 else if x > 0 then 1 else 0
  }

  lemma {:induction false} TopDifference(s: seq<limb>, t: seq<limb>, i: nat)
    requires |s| == |t| && i < |s|
    requires s[i + 1..] == t[i + 1..] && s[i] != t[i]
    ensures Sign(Val(s) - Val(t)) == Sign(s[i] as int - t[i] as int)
  {
    if i != 0 {
      assert s[1..][i..] == s[i + 1..] && t[1..][i..] == t[i + 1..];
      TopDifference(s[1..], t[1..], i - 1);
    }
  }

  // ---------------------------------------------------------------------
  // Comparison of ticks of 1 / den seconds

  datatype TimeBase = TimeBase(num: i64, den: i64) {
    predicate Valid() { num > 0 && den > 0 }
  }

  function Magnitude(value: i64): (m: u64)
    ensures m == if value >= 0 then value as int else -(value as int)
  {
    if value >= 0 then value else -(value + 1) + 1
  }

  /** Sign of left / leftDen - right / rightDen. */
  function Cmp(left: int, leftDen: int, right: int, rightDen: int): int {
    Sign(left * rightDen - right * leftDen)
  }

  method CompareTimestamps(left: i64, leftBase: TimeBase, right: i64, rightBase: TimeBase) returns (order: int)
    requires leftBase.den > 0 && rightBase.den > 0
    ensures order == Cmp(left, leftBase.den, right, rightBase.den)
  {
    SignTimes(left, rightBase.den);
    SignTimes(right, leftBase.den);
    if left < 0 && right >= 0 {
      return -1;
    }
    if left >= 0 && right < 0 {
      return 1;
    }
    var leftProduct := Product(Magnitude(left), 1, rightBase.den);
    var rightProduct := Product(Magnitude(right), 1, leftBase.den);
    var comparison := CompareUnsigned(leftProduct, rightProduct);
    NegTimes(left, rightBase.den);
    NegTimes(right, leftBase.den);
    order := if left < 0 then -comparison else comparison;
  }

  lemma SignTimes(a: int, b: int)
    requires b > 0
    ensures a < 0 <==> a * b < 0
    ensures a == 0 <==> a * b == 0
  {
  }

  lemma NegTimes(a: int, b: int)
    ensures (-a) * b == -(a * b)
  {
  }

  /** Checked addition: none exactly when the sum leaves the 64-bit range. */
  function AddTimestamp(value: i64, offset: i64): (sum: Option<i64>)
    ensures sum == if MIN64 <= value as int + offset as int <= MAX64 then Some(value + offset) else None
  {
    if offset > 0 && value as int > MAX64 - offset then None
    else if offset < 0 && value as int < MIN64 - offset then None
    else Some(value + offset)
  }

  // ---------------------------------------------------------------------
  // The order of rational times

  /** left / leftDen <= right / rightDen. */
  predicate Le(left: int, leftDen: int, right: int, rightDen: int) {
    Cmp(left, leftDen, right, rightDen) <= 0
  }

  lemma LeTransitive(a: int, ad: int, b: int, bd: int, c: int, cd: int)
    requires ad > 0 && bd > 0 && cd > 0
    requires Le(a, ad, b, bd) && Le(b, bd, c, cd)
    ensures Le(a, ad, c, cd)
    ensures Cmp(a, ad, b, bd) < 0 || Cmp(b, bd, c, cd) < 0 ==> Cmp(a, ad, c, cd) < 0
  {
    MulMono(a * bd, b * ad, cd);
    MulMono(b * cd, c * bd, ad);
    assert a * bd * cd == bd * (a * cd) by { Regroup(a, bd, cd); }
    assert c * bd * ad == bd * (c * ad) by { Regroup(c, bd, ad); }
    assert b * ad * cd == b * cd * ad by { Regroup(b, ad, cd); }
    Cancel(bd, a * cd, c * ad);
    if Cmp(a, ad, b, bd) < 0 { StrictMono(a * bd, b * ad, cd); }
    if Cmp(b, bd, c, cd) < 0 { StrictMono(b * cd, c * bd, ad); }
  }

  lemma Regroup(a: int, b: int, c: int)
    ensures a * b * c == b * (a * c) == a * c * b
  {
  }

  lemma StrictMono(a: int, b: int, c: int)
    requires a < b && c > 0
    ensures a * c < b * c
  {
  }

  lemma Cancel(k: int, a: int, b: int)
    requires k > 0
    ensures k * a <= k * b ==> a <= b
    ensures k * a < k * b ==> a < b
  {
    if a >= b { MulMono(b, a, k); }
    if a > b { StrictMono(b, a, k); assert b * k == k * b && a * k == k * a; }
  }

  /** Least c with c / den above (or, when not strict, at or above) the time value / valueDen. */
  function LeastTick(value: int, valueDen: int, den: int, strict: bool): int
    requires valueDen > 0
  {
    if strict then value * den / valueDen + 1 else -(-(value * den) / valueDen)
  }

  predicate Clears(tick: int, den: int, value: int, valueDen: int, strict: bool) {
    var order := Cmp(tick, den, value, valueDen);
    order > 0 || (!strict && order == 0)
  }

  lemma LeastTickIsLeast(tick: int, value: int, valueDen: int, den: int, strict: bool)
    requires valueDen > 0 && den > 0
    ensures Clears(tick, den, value, valueDen, strict) <==> tick >= LeastTick(value, valueDen, den, strict)
  {
    var target := value * den;
    if strict {
      FloorSplit(target, valueDen, tick);
    } else {
      FloorSplit(-target, valueDen, -tick);
      NegTimes(tick, valueDen);
    }
  }

  lemma FloorSplit(target: int, d: int, tick: int)
    requires d > 0
    ensures tick * d > target <==> tick >= target / d + 1
    ensures tick * d <= target <==> tick <= target / d
  {
    var q := target / d;
    assert target == q * d + target % d;
    if tick <= q { MulMono(tick, q, d); }
    if tick >= q + 1 { MulMono(q + 1, tick, d); Distribute(q, 1, d); }
  }

  ghost predicate UpwardClosed(p: i64 -> bool, maximum: i64) {
    forall x: i64, y: i64 :: 0 <= x <= y <= maximum && p(x) ==> p(y)
  }

  /** The bracket-and-bisect search: a boundary of any predicate, hence the least
      solution of an upward closed one, and no result only when there is none. */
  method FirstSatisfyingNonnegative(maximum: i64, holds: i64 -> bool) returns (result: Option<i64>)
    ensures result.Some? ==> 0 <= result.value <= maximum && holds(result.value)
    ensures result.Some? && result.value > 0 ==> !holds(result.value - 1)
    ensures result.None? && maximum >= 0 ==> !holds(maximum)
    ensures UpwardClosed(holds, maximum) && result.Some? ==> forall x: i64 :: 0 <= x < result.value ==> !holds(x)
    ensures UpwardClosed(holds, maximum) && result.None? ==> forall x: i64 :: 0 <= x <= maximum ==> !holds(x)
  {
    if maximum < 0 {
      return None;
    }
    if holds(0) {
      return Some(0);
    }
    if maximum == 0 {
      return None;
    }
    var lower: i64 := 0;
    var upper: i64 := 1;
    while true
      invariant 0 <= lower < upper <= MAX64
      invariant lower < maximum
      invariant !holds(lower)
      decreases maximum - lower
    {
      upper := if upper < maximum then upper else maximum;
      if holds(upper) {
        break;
      }
      lower := upper;
      if upper == maximum {
        return None;
      }
      upper := if upper > maximum / 2 then maximum else upper * 2;
    }
    while upper - lower > 1
      invariant 0 <= lower < upper <= maximum
      invariant !holds(lower) && holds(upper)
    {
      var middle := lower + (upper - lower) / 2;
      if holds(middle) {
        upper := middle;
      } else {
        lower := middle;
      }
    }
    result := Some(upper);
  }

  // ---------------------------------------------------------------------
  // Millisecond durations as ticks

  /** Delay in ticks, rounded half up; none when negative, without a time base or out of range. */
  function DelayTicks(delay: int, tb: TimeBase): (ticks: Option<i64>)
    ensures ticks.Some? ==> ticks.value >= 0 && tb.Valid()
  {
    if delay < 0 || !tb.Valid() then None
    else
      Product64(delay, tb.den);
      var rounded := (2 * (delay * tb.den) + 1000) / 2000;
      if rounded > MAX64 then None else Some(rounded)
  }

  /** Strictly more ticks than the duration lasts, except that no duration is no ticks. */
  function DurationTicksCeil(duration: int, tb: TimeBase): (ticks: Option<i64>)
    ensures ticks.Some? ==> ticks.value >= 0
  {
    if duration < 0 || !tb.Valid() then None
    else if duration == 0 then Some(0)
    else
      Product64(duration, tb.den);
      var raised := duration * tb.den / 1000 + 1;
      if raised > MAX64 then None else Some(raised)
  }

  lemma Product64(a: nat, b: nat)
    ensures a * b >= 0
  {
  }

  lemma HalfUp(x: nat)
    ensures var t := (2 * x + 1000) / 2000; -500 < 1000 * t - x <= 500
    ensures (2 * x + 1000) / 2000 > MAX64 <==> x >= 1000 * MAX64 + 500
  {
  }

  /** The ticks are the exact product over 1000 rounded half up, and none exactly for a negative delay, a bad
      time base or a product whose rounding leaves the signed 64-bit range. */
  lemma DelayTicksRounds(delay: int, tb: TimeBase)
    ensures var ticks := DelayTicks(delay, tb);
            && (ticks.Some? ==> -500 < 1000 * ticks.value - delay * tb.den <= 500)
            && (ticks.None? <==> delay < 0 || !tb.Valid() || delay * tb.den >= 1000 * MAX64 + 500)
  {
    if delay >= 0 && tb.Valid() {
      Product64(delay, tb.den);
      HalfUp(delay * tb.den);
    }
  }

  lemma NextUp(x: nat)
    ensures var t := x / 1000 + 1; 1000 * (t - 1) <= x < 1000 * t
    ensures x / 1000 + 1 > MAX64 <==> x >= 1000 * MAX64
  {
  }

  /** The least tick count that lasts strictly longer than the duration; no duration is no ticks; none exactly
      for a negative duration, a bad time base or a count beyond the signed 64-bit range. */
  lemma DurationTicksExceeds(duration: int, tb: TimeBase)
    ensures var ticks := DurationTicksCeil(duration, tb);
            && (ticks.Some? && duration == 0 ==> ticks.value == 0)
            && (ticks.Some? && duration > 0 ==> 1000 * (ticks.value - 1) <= duration * tb.den < 1000 * ticks.value)
            && (ticks.None? <==> duration < 0 || !tb.Valid() || (duration > 0 && duration * tb.den >= 1000 * MAX64))
  {
    if duration >= 0 && tb.Valid() {
      Product64(duration, tb.den);
      NextUp(duration * tb.den);
    }
  }
}
