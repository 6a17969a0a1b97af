/**
 * Prices as shares of staked volume, in whole ten-thousandths, with the units lost to
 * flooring handed to the earliest outcomes (crates/domain/src/services/pricing.rs).
 */
module Pricing {
  import opened Base
  import opened Sums

  const SCALE: int := 10_000
  const MIN_TICK: int := 1

  datatype Outcome = Outcome(id: OutcomeId, market: MarketId, price: int, volume: int)

  function FromTenThousandths(value: i32): (r: Result<int, string>)
    ensures r.Ok? <==> 0 <= value as int <= SCALE
    ensures r.Ok? ==> r.value == value as int
  {
    if 0 <= value && value <= 10_000 then Ok(value as int)
    else Err("price must be between 0 and 10000 ten-thousandths")
  }

  function Volumes(outcomes: seq<Outcome>): (v: seq<int>)
    ensures |v| == |outcomes|
  {
    seq(|outcomes|, i requires 0 <= i < |outcomes| => outcomes[i].volume)
  }

  predicate NonNegative(v: seq<int>) {
    forall i :: 0 <= i < |v| ==> v[i] >= 0
  }

  // What 64-bit arithmetic demands: the running total and every scaled volume must fit.
  predicate Fits(v: seq<int>) {
    Sum(v) <= I64_MAX && forall i :: 0 <= i < |v| ==> v[i] * SCALE <= I64_MAX
  }

  // ----- the specification: shares, remainder, prices -----

  function Share(volume: int, total: int, n: nat): int
    requires n > 0
  {
    if total <= 0 then SCALE / n else volume * SCALE / total
  }

  function Shares(v: seq<int>): (s: seq<int>)
    ensures |s| == |v|
  {
    seq(|v|, i requires 0 <= i < |v| => Share(v[i], Sum(v), |v|))
  }

  function Remainder(v: seq<int>): int {
    SCALE - Sum(Shares(v))
  }

  function Prices(v: seq<int>): (p: seq<int>)
    ensures |p| == |v|
  {
    seq(|v|, i requires 0 <= i < |v| => Shares(v)[i] + (if i < Remainder(v) then 1 else 0))
  }

  function Repriced(outcomes: seq<Outcome>): (r: seq<Outcome>)
    ensures |r| == |outcomes|
  {
    seq(|outcomes|, i requires 0 <= i < |outcomes| => outcomes[i].(price := Prices(Volumes(outcomes))[i]))
  }

  // ----- integer division -----

  lemma TimesCancel(a: int, b: int, d: int)
    requires d > 0 && a * d < b * d
    ensures a < b
  {
  }

  lemma QuotientIff(x: int, d: int, q: int)
    requires d > 0
    ensures x / d == q <==> q * d <= x < q * d + d
  {
    var e := x / d;
    assert e * d <= x < e * d + d;
    if q * d <= x < q * d + d {
      TimesCancel(q, e + 1, d);
      TimesCancel(e, q + 1, d);
    }
  }

  lemma QuotientAtLeastIff(x: int, d: int, q: int)
    requires d > 0
    ensures q <= x / d <==> q * d <= x
  {
    var e := x / d;
    assert e * d <= x < e * d + d;
    if q * d <= x {
      TimesCancel(q, e + 1, d);
    }
    if q <= e {
      TimesMonotone(q, e, d);
    }
  }

  lemma QuotientAtLeast(x: int, d: int, q: int)
    requires d > 0 && q * d <= x
    ensures q <= x / d
  {
    QuotientAtLeastIff(x, d, q);
  }

  lemma Distributes(d: int, a: int, b: int)
    ensures d * (a + b) == d * a + d * b
  {
  }

  lemma TimesMonotone(a: int, b: int, d: int)
    requires a <= b && d >= 0
    ensures a * d <= b * d
  {
  }

  // ----- the remainder is in 0..n -----

  lemma FloorsTrailOneMore(total: int, floors: int, q: int, volume: int, last: int, k: int)
    requires q * total <= last * SCALE <= q * total + (total - 1)
    requires total * floors <= SCALE * volume <= total * floors + k * (total - 1)
    ensures total * (floors + q) <= SCALE * (volume + last) <= total * (floors + q) + (k + 1) * (total - 1)
  {
    Distributes(total, floors, q);
    Distributes(total - 1, k, 1);
  }

  // After k outcomes the floors assigned so far trail the exact shares by less than k units.
  lemma {:induction false} SharesTrailExact(v: seq<int>, k: nat)
    requires NonNegative(v) && Sum(v) > 0 && k <= |v|
    ensures Sum(v) * Sum(Shares(v)[..k]) <= SCALE * Sum(v[..k])
    ensures SCALE * Sum(v[..k]) <= Sum(v) * Sum(Shares(v)[..k]) + k * (Sum(v) - 1)
  {
    if k > 0 {
      var total, q := Sum(v), Shares(v)[k - 1];
      SharesTrailExact(v, k - 1);
      SumPrefix(v, k - 1, Itself());
      SumPrefix(Shares(v), k - 1, Itself());
      QuotientIff(v[k - 1] * SCALE, total, q);
      FloorsTrailOneMore(total, Sum(Shares(v)[..k - 1]), q, Sum(v[..k - 1]), v[k - 1], k - 1);
    }
  }

  lemma SumOfConstant(s: seq<int>, c: int)
    requires forall i :: 0 <= i < |s| ==> s[i] == c
    ensures Sum(s) == |s| * c
  {
    if |s| > 0 {
      SumOfConstant(s[..|s| - 1], c);
    }
  }

  lemma FloorsTrailWhole(total: int, floors: int, n: nat)
    requires total > 0 && n > 0
    requires total * floors <= SCALE * total <= total * floors + n * (total - 1)
    ensures 0 <= SCALE - floors < n
  {
    assert (SCALE - floors) * total == SCALE * total - total * floors;
    assert n * (total - 1) < n * total;
    TimesCancel(SCALE - floors, n, total);
    TimesCancel(-1, SCALE - floors, total);
  }

  lemma RemainderInRange(v: seq<int>)
    requires |v| > 0 && NonNegative(v)
    ensures 0 <= Remainder(v) < |v|
    ensures forall i :: 0 <= i < |v| ==> 0 <= Shares(v)[i] <= SCALE
  {
    var total, shares := Sum(v), Shares(v);
    SumNonNegative(v, Itself());
    if total == 0 {
      SumOfConstant(shares, SCALE / |v|);
      QuotientIff(SCALE, |v|, SCALE / |v|);
    } else {
      SharesTrailExact(v, |v|);
      assert v[..|v|] == v && shares[..|v|] == shares;
      FloorsTrailWhole(total, Sum(shares), |v|);
    }
    forall i | 0 <= i < |v| ensures 0 <= Shares(v)[i] <= SCALE {
      ShareInRange(v, i);
    }
  }

  lemma ShareInRange(v: seq<int>, i: nat)
    requires i < |v| && NonNegative(v)
    ensures v[i] <= Sum(v)
    ensures 0 <= Shares(v)[i] <= SCALE
  {
    SumNonNegative(v, Itself());
    if Sum(v) > 0 {
      QuotientIff(v[i] * SCALE, Sum(v), Shares(v)[i]);
      QuotientAtLeast(v[i] * SCALE, Sum(v), 0);
      TimesCancel(Shares(v)[i], SCALE + 1, Sum(v));
    } else {
      QuotientIff(SCALE, |v|, SCALE / |v|);
      QuotientAtLeast(SCALE, |v|, 0);
    }
  }

  // ----- what the prices mean -----

  // The bonus units are exactly the remainder, however many outcomes there are.
  lemma {:induction false} PricesPrefixSum(v: seq<int>, k: nat)
    requires k <= |v| && 0 <= Remainder(v)
    ensures Sum(Prices(v)[..k]) == Sum(Shares(v)[..k]) + Min(k, Remainder(v))
  {
    if k > 0 {
      PricesPrefixSum(v, k - 1);
      SumPrefix(Prices(v), k - 1, Itself());
      SumPrefix(Shares(v), k - 1, Itself());
    }
  }

  // Prices are always a split of exactly 1.0000.
  lemma PricesSumToScale(v: seq<int>)
    requires |v| > 0 && NonNegative(v)
    ensures Sum(Prices(v)) == SCALE
    ensures forall i :: 0 <= i < |v| ==> 0 <= Prices(v)[i] <= SCALE
  {
    RemainderInRange(v);
    PricesPrefixSum(v, |v|);
    assert Prices(v)[..|v|] == Prices(v) && Shares(v)[..|v|] == Shares(v);
    SumNonNegative(Prices(v), Itself());
  }

  // What outcome i of n starts from and, without volume, stays at: an even split of the whole.
  function EvenPrice(n: nat, i: nat): int
    requires n > 0
  {
    SCALE / n + (if i < SCALE % n then 1 else 0)
  }

  /** Without volume the whole is split evenly, and the units left over go to the earliest outcomes. */
  lemma NoVolumeSplitsEvenly(v: seq<int>)
    requires |v| > 0 && Sum(v) == 0
    ensures forall i :: 0 <= i < |v| ==> Prices(v)[i] == EvenPrice(|v|, i)
  {
    SumOfConstant(Shares(v), SCALE / |v|);
    DivisionLeaves(SCALE, |v|);
    assert Remainder(v) == SCALE % |v|;
  }

  lemma DivisionLeaves(x: int, d: int)
    requires d > 0
    ensures x - d * (x / d) == x % d
  {
  }

  // Whole units of the exact shares, and one more for each of the first r outcomes.
  predicate FlooredWithBonus(p: seq<int>, v: seq<int>, r: nat)
    requires |p| == |v| && Sum(v) > 0
  {
    forall i :: 0 <= i < |v| ==> p[i] == v[i] * SCALE / Sum(v) + (if i < r then 1 else 0)
  }

  /** With volume each price is its share rounded down, and what is missing goes to the earliest outcomes. */
  lemma VolumeIsPricedByShare(v: seq<int>)
    requires |v| > 0 && NonNegative(v) && Sum(v) > 0
    ensures exists r: nat :: r < |v| && FlooredWithBonus(Prices(v), v, r)
  {
    RemainderInRange(v);
    assert FlooredWithBonus(Prices(v), v, Remainder(v));
  }

  // Each price is within one tick of the exact share v[i] / total; equality only above it.
  lemma PriceWithinOneTick(v: seq<int>, i: nat)
    requires i < |v| && NonNegative(v) && Sum(v) > 0
    ensures v[i] * SCALE - Sum(v) < Prices(v)[i] * Sum(v) <= v[i] * SCALE + Sum(v)
  {
    var total, q := Sum(v), Shares(v)[i];
    QuotientIff(v[i] * SCALE, total, q);
    assert (q + 1) * total == q * total + total;
  }

  // When the shares divide evenly nothing is handed out and prices are exact.
  lemma EvenSharesArePricedExactly(v: seq<int>)
    requires |v| > 0 && NonNegative(v) && Sum(v) > 0
    requires forall i :: 0 <= i < |v| ==> v[i] * SCALE == Shares(v)[i] * Sum(v)
    ensures Prices(v) == Shares(v)
  {
    RemainderInRange(v);
    ExactPrefix(v, |v|);
    assert v[..|v|] == v && Shares(v)[..|v|] == Shares(v);
    assert Sum(v) * (SCALE - Sum(Shares(v))) == 0;
    assert Remainder(v) == 0;
  }

  lemma {:induction false} ExactPrefix(v: seq<int>, k: nat)
    requires k <= |v| && NonNegative(v) && Sum(v) > 0
    requires forall i :: 0 <= i < |v| ==> v[i] * SCALE == Shares(v)[i] * Sum(v)
    ensures SCALE * Sum(v[..k]) == Sum(v) * Sum(Shares(v)[..k])
  {
    if k > 0 {
      ExactPrefix(v, k - 1);
      SumPrefix(v, k - 1, Itself());
      SumPrefix(Shares(v), k - 1, Itself());
      Distributes(Sum(v), Sum(Shares(v)[..k - 1]), Shares(v)[k - 1]);
    }
  }

  // An earlier outcome with at least as much volume is never priced below a later one.
  lemma PricesFollowVolume(v: seq<int>, i: nat, j: nat)
    requires i < j < |v| && NonNegative(v) && v[i] >= v[j]
    ensures Prices(v)[i] >= Prices(v)[j]
  {
    SumNonNegative(v, Itself());
    if Sum(v) > 0 {
      QuotientIff(v[j] * SCALE, Sum(v), Shares(v)[j]);
      QuotientAtLeast(v[i] * SCALE, Sum(v), Shares(v)[j]);
    }
    assert Shares(v)[i] >= Shares(v)[j];
    assert Prices(v)[i] == Shares(v)[i] + (if i < Remainder(v) then 1 else 0);
    assert Prices(v)[j] == Shares(v)[j] + (if j < Remainder(v) then 1 else 0);
  }

  // ----- what a stake does to the board -----

  function Staked(v: seq<int>, chosen: nat, amount: int): (r: seq<int>)
    requires chosen < |v|
    ensures |r| == |v|
  {
    v[chosen := v[chosen] + amount]
  }

  lemma StakedFacts(v: seq<int>, chosen: nat, amount: int)
    requires chosen < |v| && NonNegative(v) && amount > 0
    ensures NonNegative(Staked(v, chosen, amount))
    ensures Sum(Staked(v, chosen, amount)) == Sum(v) + amount
    ensures 0 <= v[chosen] <= Sum(v)
  {
    SumUpdate(v, chosen, v[chosen] + amount, Itself());
    ShareInRange(v, chosen);
  }

  // With volume on the board, the chosen share cannot shrink and no other can grow.
  lemma SharesAfterStake(v: seq<int>, chosen: nat, amount: int, i: nat)
    requires chosen < |v| && i < |v| && NonNegative(v) && amount > 0 && Sum(v) > 0
    ensures i == chosen ==> Shares(Staked(v, chosen, amount))[i] >= Shares(v)[i]
    ensures i != chosen ==> Shares(Staked(v, chosen, amount))[i] <= Shares(v)[i]
  {
    StakedFacts(v, chosen, amount);
    var total, after := Sum(v), Staked(v, chosen, amount);
    var q, q' := Shares(v)[i], Shares(after)[i];
    ShareInRange(v, i);
    ShareInRange(after, i);
    QuotientIff(v[i] * SCALE, total, q);
    QuotientIff(after[i] * SCALE, total + amount, q');
    if i == chosen {
      assert q * (total + amount) == q * total + q * amount;
      assert q * amount <= SCALE * amount;
      QuotientAtLeast(after[i] * SCALE, total + amount, q);
    } else {
      assert q' * (total + amount) == q' * total + q' * amount;
      assert q' * amount >= 0;
      QuotientAtLeast(v[i] * SCALE, total, q');
    }
  }

  // On a board without volume the first stake takes the whole price.
  lemma FirstStake(v: seq<int>, chosen: nat, amount: int)
    requires chosen < |v| && NonNegative(v) && amount > 0 && Sum(v) == 0
    ensures Prices(Staked(v, chosen, amount))[chosen] == SCALE
    ensures forall i :: 0 <= i < |v| && i != chosen ==> Prices(Staked(v, chosen, amount))[i] == 0
  {
    StakedFacts(v, chosen, amount);
    var after := Staked(v, chosen, amount);
    forall i | 0 <= i < |v| ensures v[i] == 0 { ShareInRange(v, i); }
    forall i | 0 <= i < |v|
      ensures Shares(after)[i] == if i == chosen then SCALE else 0
    {
      QuotientIff(after[i] * SCALE, amount, if i == chosen then SCALE else 0);
    }
    EvenSharesArePricedExactly(after);
  }

  /** Staking never lowers the price of the outcome backed. */
  lemma StakeNeverLowersChosen(v: seq<int>, chosen: nat, amount: int)
    requires chosen < |v| && NonNegative(v) && amount > 0
    ensures Prices(Staked(v, chosen, amount))[chosen] >= Prices(v)[chosen]
  {
    var after := Staked(v, chosen, amount);
    StakedFacts(v, chosen, amount);
    SumNonNegative(v, Itself());
    if Sum(v) == 0 {
      FirstStake(v, chosen, amount);
      PricesSumToScale(v);
    } else {
      SharesAfterStake(v, chosen, amount, chosen);
      if Shares(after)[chosen] == Shares(v)[chosen] {
        RemainderGrowsWithSameFloor(v, chosen, amount);
      }
    }
  }

  // Every other floor shrank or stayed, so at least as many bonus units are left to hand out.
  lemma RemainderGrowsWithSameFloor(v: seq<int>, chosen: nat, amount: int)
    requires chosen < |v| && NonNegative(v) && amount > 0 && Sum(v) > 0
    requires Shares(Staked(v, chosen, amount))[chosen] == Shares(v)[chosen]
    ensures Remainder(Staked(v, chosen, amount)) >= Remainder(v)
  {
    var before, after := Shares(v), Shares(Staked(v, chosen, amount));
    forall i | 0 <= i < |v| ensures after[i] <= before[i] {
      SharesAfterStake(v, chosen, amount, i);
    }
    SumMonotone(after, Itself(), before, Itself());
  }

  /** Staking raises any other outcome's price by at most one tick. */
  lemma StakeRaisesOthersByAtMostOneTick(v: seq<int>, chosen: nat, amount: int, other: nat)
    requires chosen < |v| && other < |v| && other != chosen && NonNegative(v) && amount > 0
    ensures Prices(Staked(v, chosen, amount))[other] <= Prices(v)[other] + 1
  {
    SumNonNegative(v, Itself());
    if Sum(v) == 0 {
      FirstStake(v, chosen, amount);
      PricesSumToScale(v);
    } else {
      SharesAfterStake(v, chosen, amount, other);
    }
  }

  // The one-tick bound is reached: backing the third outcome moves the second one up.
  lemma OneTickRiseHappens()
    ensures Prices([4000, 6001, 9999])[1] == 3000
    ensures Prices(Staked([4000, 6001, 9999], 2, 1))[1] == 3001
  {
    var v := [4000, 6001, 9999];
    var w := [4000, 6001, 10000];
    assert Staked(v, 2, 1) == w;
    SumOfThree(4000, 6001, 9999);
    SumOfThree(4000, 6001, 10000);
    assert Shares(v) == [2000, 3000, 4999];
    assert Shares(w) == [1999, 3000, 4999];
    SumOfThree(2000, 3000, 4999);
    SumOfThree(1999, 3000, 4999);
    assert Remainder(v) == 1 && Remainder(w) == 2;
  }

  lemma SumOfThree(a: int, b: int, c: int)
    ensures Sum([a, b, c]) == a + b + c
  {
    var s := [a, b, c];
    SumSnoc([], a, Itself());
    SumSnoc([a], b, Itself());
    SumSnoc([a, b], c, Itself());
    assert [] + [a] == [a] && [a] + [b] == [a, b] && [a, b] + [c] == s;
  }

  /** Scaling every volume by the same factor leaves the board as it was. */
  lemma PricesIgnoreUnit(v: seq<int>, w: seq<int>, k: int)
    requires |v| == |w| && |v| > 0 && NonNegative(v) && k > 0
    requires forall i :: 0 <= i < |v| ==> w[i] == k * v[i]
    ensures Prices(w) == Prices(v)
  {
    ScaledSum(v, w, k);
    SumNonNegative(v, Itself());
    var total := Sum(v);
    forall i | 0 <= i < |v| ensures Shares(w)[i] == Shares(v)[i] {
      if total == 0 {
        assert k * total == 0;
      } else {
        ScaledQuotient(v[i] * SCALE, total, k);
        assert w[i] * SCALE == k * (v[i] * SCALE);
      }
    }
    assert Shares(w) == Shares(v);
    assert Remainder(w) == Remainder(v);
  }

  lemma ScaledQuotient(x: int, d: int, k: int)
    requires d > 0 && k > 0
    ensures k * d > 0 && (k * x) / (k * d) == x / d
  {
    var q := x / d;
    QuotientIff(x, d, q);
    assert k * (q * d) <= k * x;
    assert k * x < k * (q * d + d);
    assert k * (q * d + d) == q * (k * d) + k * d;
    QuotientIff(k * x, k * d, q);
  }

  lemma {:induction false} ScaledSum(v: seq<int>, w: seq<int>, k: int)
    requires |v| == |w|
    requires forall i :: 0 <= i < |v| ==> w[i] == k * v[i]
    ensures Sum(w) == k * Sum(v)
  {
    if |v| > 0 {
      var n := |v| - 1;
      ScaledSum(v[..n], w[..n], k);
      Distributes(k, Sum(v[..n]), v[n]);
    }
  }

  // ----- the in-place computation -----

  lemma FitsPrefix(v: seq<int>, k: nat)
    requires NonNegative(v) && k <= |v|
    ensures 0 <= Sum(v[..k]) <= Sum(v)
  {
    SumConcat(v[..k], v[k..], Itself());
    assert v[..k] + v[k..] == v;
    SumNonNegative(v[..k], Itself());
    SumNonNegative(v[k..], Itself());
  }

  /** Recomputes every price in place from the outcomes' own volumes, changing nothing else. */
  method RecalculatePrices(outcomes: array<Outcome>)
    requires NonNegative(Volumes(outcomes[..])) && Fits(Volumes(outcomes[..]))
    requires outcomes.Length <= I64_MAX
    modifies outcomes
    ensures outcomes[..] == Repriced(old(outcomes[..]))
  {
    var n := outcomes.Length;
    if n == 0 {
      return;
    }
    ghost var v := Volumes(outcomes[..]);
    var totalVolume := TotalVolume(outcomes);
    var shares := new i64[n];
    var scale: i64 := 10_000;
    var k := 0;
    while k < n
      invariant 0 <= k <= n
      invariant outcomes[..] == old(outcomes[..])
      invariant forall i :: 0 <= i < k ==> shares[i] as int == Shares(v)[i]
    {
      ShareInRange(v, k);
      assert v[k] == outcomes[k].volume;
      if totalVolume <= 0 {
        shares[k] := scale / n as i64;
      } else {
        shares[k] := outcomes[k].volume as i64 * scale / totalVolume;
      }
      k := k + 1;
    }
    RemainderInRange(v);
    DistributeRemainder(v, shares);
    k := 0;
    while k < n
      invariant 0 <= k <= n
      invariant forall i :: 0 <= i < k ==> outcomes[i] == old(outcomes[i]).(price := Prices(v)[i])
      invariant forall i :: k <= i < n ==> outcomes[i] == old(outcomes[i])
      invariant forall i :: 0 <= i < n ==> shares[i] as int == Prices(v)[i]
    {
      PricesSumToScale(v);
      var price := FromTenThousandths(shares[k] as i32);
      if price.Ok? {
        outcomes[k] := outcomes[k].(price := price.value);
      }
      k := k + 1;
    }
  }

  method TotalVolume(outcomes: array<Outcome>) returns (total: i64)
    requires NonNegative(Volumes(outcomes[..])) && Fits(Volumes(outcomes[..]))
    ensures total as int == Sum(Volumes(outcomes[..]))
  {
    ghost var v := Volumes(outcomes[..]);
    total := 0;
    for i := 0 to outcomes.Length
      invariant total as int == Sum(v[..i])
    {
      assert v[i] == outcomes[i].volume;
      ShareInRange(v, i);
      SumPrefix(v, i, Itself());
      FitsPrefix(v, i + 1);
      total := total + outcomes[i].volume as i64;
    }
    assert v[..|v|] == v;
  }

  // The remainder loop: one unit to each of the first `remainder` outcomes.
  method DistributeRemainder(ghost v: seq<int>, shares: array<i64>)
    requires |v| > 0 && NonNegative(v) && shares.Length == |v|
    requires forall i :: 0 <= i < |v| ==> shares[i] as int == Shares(v)[i]
    modifies shares
    ensures forall i :: 0 <= i < |v| ==> shares[i] as int == Prices(v)[i]
  {
    RemainderInRange(v);
    var floors: i64 := 0;
    for k := 0 to shares.Length
      invariant 0 <= floors as int == Sum(Shares(v)[..k])
      invariant forall i :: 0 <= i < |v| ==> shares[i] as int == Shares(v)[i]
    {
      SumPrefix(Shares(v), k, Itself());
      FitsPrefix(Shares(v), k + 1);
      assert Sum(Shares(v)) <= SCALE;
      assert floors as int + shares[k] as int == Sum(Shares(v)[..k + 1]);
      floors := floors + shares[k];
    }
    assert Shares(v)[..|v|] == Shares(v);
    var remainder := 10_000 - floors;
    var i := 0;
    while remainder > 0
      invariant 0 <= i <= |v| && remainder as int == Remainder(v) - i >= 0
      invariant forall j :: 0 <= j < |v| ==>
        shares[j] as int == Shares(v)[j] + (if j < i then 1 else 0)
      decreases remainder as int
    {
      shares[i] := shares[i] + 1;
      remainder := remainder - 1;
      i := i + 1;
    }
  }
}
