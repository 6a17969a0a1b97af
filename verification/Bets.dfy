/** A bet, its one-way lifecycle, and payout arithmetic (crates/domain/src/entities/bet.rs). */
module Bets {
  import opened Base
  import opened Sums
  import opened Pricing

  datatype BetStatus = Active | Won | Lost | Refunded

  datatype Bet = Bet(id: BetId, user: UserId, market: MarketId, outcome: OutcomeId,
                     amount: int, price: int, status: BetStatus, payout: Option<int>)
  {
    static function Place(id: BetId, user: UserId, market: MarketId, outcome: OutcomeId,
                          amount: int, price: int): (r: Result<Bet, string>)
    {
      if amount <= 0 then Err("bet amount must be positive")
      else if price == 0 then Err("bet price must be above zero")
      else Ok(Bet(id, user, market, outcome, amount, price, Active, None))
    }

    function SettleAsWinner(): Result<Bet, string>
      requires price > 0
    {
      if status != Active then Err("bet is already settled")
      else Ok(this.(status := Won, payout := Some(Payout(amount, price))))
    }

    function SettleAsLoser(): Result<Bet, string> {
      if status != Active then Err("bet is already settled")
      else Ok(this.(status := Lost, payout := None))
    }
  }

  // Saturating multiplication, then truncating division by a positive price.
  function Payout(amount: int, price: int): int
    requires price > 0
  {
    Min(amount * SCALE, I64_MAX) / price
  }

  function Settled(bet: Bet, winner: OutcomeId): Bet
    requires bet.price > 0
  {
    if bet.outcome == winner
    then bet.(status := Won, payout := Some(Payout(bet.amount, bet.price)))
    else bet.(status := Lost, payout := None)
  }

  /** A payout is always creditable, and returns at least the stake exactly when stake * price fits. */
  lemma PayoutReturnsStakeIff(amount: int, price: int)
    requires 0 < amount <= I64_MAX && 0 < price <= SCALE
    ensures Payout(amount, price) > 0
    ensures Payout(amount, price) >= amount <==> amount * price <= I64_MAX
  {
    TimesMonotone(price, SCALE, amount);
    QuotientAtLeastIff(Min(amount * SCALE, I64_MAX), price, 1);
    QuotientAtLeastIff(Min(amount * SCALE, I64_MAX), price, amount);
  }

  // Short of saturation the payout is the floor of stake / price.
  lemma PayoutIsFlooredQuotient(amount: int, price: int)
    requires amount > 0 && 0 < price <= SCALE && amount * SCALE <= I64_MAX
    ensures Payout(amount, price) * price <= amount * SCALE < (Payout(amount, price) + 1) * price
  {
    QuotientIff(amount * SCALE, price, Payout(amount, price));
  }

  // So a stake that fits is paid the floor of stake / price, and never less than itself.
  lemma FittingPayout(amount: int, price: int)
    requires amount > 0 && 0 < price <= SCALE && amount * SCALE <= I64_MAX
    ensures amount <= Payout(amount, price)
    ensures Payout(amount, price) * price <= amount * SCALE < (Payout(amount, price) + 1) * price
  {
    TimesMonotone(price, SCALE, amount);
    PayoutReturnsStakeIff(amount, price);
    PayoutIsFlooredQuotient(amount, price);
  }

  // Taken by itself, the entity pays the largest stake at the whole price a small part of it.
  lemma PayoutCanFallShort()
    ensures I64_MAX * SCALE > I64_MAX && Payout(I64_MAX, SCALE) * SCALE <= I64_MAX
    ensures 0 < Payout(I64_MAX, SCALE) < I64_MAX
  {
  }

  function PaidAt(price: int): int -> int
    requires price > 0
  {
    (amount: int) => Payout(amount, price)
  }

  /**
   * Splitting one stake over k bets at the same price never pays more than the single bet
   * would, and loses less than k units to flooring.
   */
  lemma {:induction false} SplitStakePaysAtMostWhole(amounts: seq<int>, price: int)
    requires |amounts| > 0 && 0 < price <= SCALE
    requires forall i :: 0 <= i < |amounts| ==> amounts[i] > 0
    requires Sum(amounts) * SCALE <= I64_MAX
    ensures SumBy(amounts, PaidAt(price)) <= Payout(Sum(amounts), price)
    ensures Payout(Sum(amounts), price) < SumBy(amounts, PaidAt(price)) + |amounts|
  {
    var n := |amounts| - 1;
    var front, last := amounts[..n], amounts[n];
    SumNonNegative(front, Itself());
    if n == 0 {
      assert front == [];
    } else {
      SplitStakePaysAtMostWhole(front, price);
      FloorOfSum(Sum(front) * SCALE, last * SCALE, price);
      assert (Sum(front) + last) * SCALE == Sum(front) * SCALE + last * SCALE;
    }
  }

  lemma FloorOfSum(x: int, y: int, d: int)
    requires d > 0
    ensures x / d + y / d <= (x + y) / d <= x / d + y / d + 1
  {
    var p, q, r := x / d, y / d, (x + y) / d;
    QuotientIff(x, d, p);
    QuotientIff(y, d, q);
    QuotientIff(x + y, d, r);
    assert (p + q) * d == p * d + q * d && (p + q + 2) * d == (p + q) * d + 2 * d;
    QuotientAtLeast(x + y, d, p + q);
    TimesCancel(r, p + q + 2, d);
  }

  // ----- open positions -----

  predicate Holds(bet: Bet, user: UserId, outcome: OutcomeId) {
    bet.user == user && bet.outcome == outcome && bet.status == Active
  }

  function OpenStake(user: UserId, outcome: OutcomeId): Bet -> int {
    (b: Bet) => if Holds(b, user, outcome) then b.amount else 0
  }

  function OpenWeight(user: UserId, outcome: OutcomeId): Bet -> int {
    (b: Bet) => if Holds(b, user, outcome) then b.amount * b.price else 0
  }

  function AveragePrice(bets: seq<Bet>, user: UserId, outcome: OutcomeId): Option<int> {
    var staked := SumBy(bets, OpenStake(user, outcome));
    if staked == 0 then None else Some(SumBy(bets, OpenWeight(user, outcome)) / staked)
  }

  /**
   * The average is the largest whole price whose cost over the open stake is no more than what was
   * paid: sums are over the user's active bets on the outcome, each weighted by its amount.
   */
  lemma AverageIsWeightedFloor(bets: seq<Bet>, user: UserId, outcome: OutcomeId)
    requires forall i :: 0 <= i < |bets| ==> bets[i].amount > 0
    ensures var mine := (b: Bet) => b.user == user && b.outcome == outcome && b.status == Active;
            var stake := SumBy(bets, (b: Bet) => if mine(b) then b.amount else 0);
            var paid := SumBy(bets, (b: Bet) => if mine(b) then b.amount * b.price else 0);
            var avg := AveragePrice(bets, user, outcome);
            (avg.Some? <==> exists i :: 0 <= i < |bets| && mine(bets[i])) &&
            (avg.Some? ==> avg.value * stake <= paid < (avg.value + 1) * stake)
  {
    var mine := (b: Bet) => b.user == user && b.outcome == outcome && b.status == Active;
    var amountOf := (b: Bet) => if mine(b) then b.amount else 0;
    var paidFor := (b: Bet) => if mine(b) then b.amount * b.price else 0;
    SumCongruent(bets, OpenStake(user, outcome), bets, amountOf);
    SumCongruent(bets, OpenWeight(user, outcome), bets, paidFor);
    OpenStakeZeroIff(bets, user, outcome);
    var staked, weight := SumBy(bets, OpenStake(user, outcome)), SumBy(bets, OpenWeight(user, outcome));
    if staked != 0 {
      QuotientIff(weight, staked, weight / staked);
      assert (weight / staked + 1) * staked == weight / staked * staked + staked;
    }
  }

  // The accumulating fold over the book.
  method ActivePosition(bets: seq<Bet>, user: UserId, outcome: OutcomeId) returns (avg: Option<int>)
    ensures avg == AveragePrice(bets, user, outcome)
  {
    var weighted, staked := 0, 0;
    for i := 0 to |bets|
      invariant weighted == SumBy(bets[..i], OpenWeight(user, outcome))
      invariant staked == SumBy(bets[..i], OpenStake(user, outcome))
    {
      SumPrefix(bets, i, OpenWeight(user, outcome));
      SumPrefix(bets, i, OpenStake(user, outcome));
      if Holds(bets[i], user, outcome) {
        weighted := weighted + bets[i].amount * bets[i].price;
        staked := staked + bets[i].amount;
      }
    }
    assert bets[..|bets|] == bets;
    if staked == 0 {
      return None;
    }
    return Some(weighted / staked);
  }

  lemma {:induction false} OpenStakeZeroIff(bets: seq<Bet>, user: UserId, outcome: OutcomeId)
    requires forall i :: 0 <= i < |bets| ==> bets[i].amount > 0
    ensures SumBy(bets, OpenStake(user, outcome)) >= 0
    ensures SumBy(bets, OpenStake(user, outcome)) == 0 <==>
            forall i :: 0 <= i < |bets| ==> !Holds(bets[i], user, outcome)
  {
    if |bets| > 0 {
      var n := |bets| - 1;
      var front := bets[..n];
      assert forall i :: 0 <= i < n ==> front[i] == bets[i];
      OpenStakeZeroIff(front, user, outcome);
    }
  }

  lemma {:induction false} WeightBetween(bets: seq<Bet>, user: UserId, outcome: OutcomeId, lo: int, hi: int)
    requires forall i :: 0 <= i < |bets| ==> bets[i].amount > 0
    requires forall i :: 0 <= i < |bets| && Holds(bets[i], user, outcome) ==> lo <= bets[i].price <= hi
    ensures lo * SumBy(bets, OpenStake(user, outcome)) <= SumBy(bets, OpenWeight(user, outcome))
    ensures SumBy(bets, OpenWeight(user, outcome)) <= SumBy(bets, OpenStake(user, outcome)) * hi
  {
    if |bets| > 0 {
      var n := |bets| - 1;
      var front, b := bets[..n], bets[n];
      assert forall i :: 0 <= i < n ==> front[i] == bets[i];
      WeightBetween(front, user, outcome, lo, hi);
      if Holds(b, user, outcome) {
        var s := SumBy(front, OpenStake(user, outcome));
        assert lo * (s + b.amount) == lo * s + lo * b.amount;
        assert (s + b.amount) * hi == s * hi + b.amount * hi;
        TimesMonotone(lo, b.price, b.amount);
        TimesMonotone(b.price, hi, b.amount);
      }
    }
  }

  /** A position exists exactly while some bet is open, and its average lies between the prices paid. */
  lemma AverageLiesBetweenPricesPaid(bets: seq<Bet>, user: UserId, outcome: OutcomeId, lo: int, hi: int)
    requires forall i :: 0 <= i < |bets| ==> bets[i].amount > 0
    requires forall i :: 0 <= i < |bets| && Holds(bets[i], user, outcome) ==> lo <= bets[i].price <= hi
    ensures AveragePrice(bets, user, outcome).Some? <==>
            exists i :: 0 <= i < |bets| && Holds(bets[i], user, outcome)
    ensures AveragePrice(bets, user, outcome).Some? ==> lo <= AveragePrice(bets, user, outcome).value <= hi
  {
    OpenStakeZeroIff(bets, user, outcome);
    WeightBetween(bets, user, outcome, lo, hi);
    var staked, weight := SumBy(bets, OpenStake(user, outcome)), SumBy(bets, OpenWeight(user, outcome));
    if staked != 0 {
      QuotientAtLeast(weight, staked, lo);
      QuotientIff(weight, staked, weight / staked);
      assert (hi + 1) * staked == staked * hi + staked;
      TimesCancel(weight / staked, hi + 1, staked);
    }
  }
}
