/**
 * What one uninterrupted call does, in the terms of the tables it reads and writes, and that it is
 * the steps of a run taken one after the other.
 */
module LedgerCalls {
  import opened Base
  import opened Sums
  import opened Pricing
  import opened Bets
  import opened Ledger
  import opened LedgerKeeps
  import opened LedgerRuns
  import opened LedgerSettlement

  // Outcome rows are stored under their own id.
  predicate Keyed(outcomes: map<OutcomeId, Outcome>) {
    forall o :: o in outcomes ==> outcomes[o].id == o
  }

  // Primary keys and checked columns.
  predicate Constrained(db: Db) {
    Keyed(db.outcomes) && DistinctIds(db.bets) && forall b :: b in db.bets ==> b.price > 0
  }

  lemma {:induction false} InsertKeepsKeys(outcomes: map<OutcomeId, Outcome>, board: seq<Outcome>)
    requires Keyed(outcomes)
    ensures Keyed(InsertBoard(outcomes, board))
  {
    if |board| > 0 {
      InsertKeepsKeys(outcomes, board[..|board| - 1]);
    }
  }

  lemma {:induction false} WriteKeepsKeys(outcomes: map<OutcomeId, Outcome>, board: seq<Outcome>, bet: Bet)
    requires Keyed(outcomes)
    ensures Keyed(WriteBoard(outcomes, board, bet))
  {
    if |board| > 0 {
      WriteKeepsKeys(outcomes, board[..|board| - 1], bet);
    }
  }

  lemma PlaceKeepsConstraints(db: Db, bet: Bet, board: seq<Outcome>, points: seq<PricePoint>)
    requires Constrained(db) && PlaceTx(db, bet, board, points).Ok?
    ensures Constrained(PlaceTx(db, bet, board, points).value)
  {
    WriteKeepsKeys(db.outcomes, board, bet);
  }

  lemma SettleKeepsConstraints(db: Db, m: MarketId, market: Market, settled: seq<Bet>)
    requires Constrained(db)
    ensures Constrained(SettleTx(db, m, market, settled))
  {
    var closed := CloseMarket(db, m, market);
    var after := SettleRows(closed, settled).bets;
    SettleRowsMarkets(closed, settled);
    SettlePaysEachUserTheirPayouts(closed, settled);
    forall b | b in after ensures b.price > 0 {
      var i :| 0 <= i < |after| && after[i] == b;
      assert db.bets[i] in db.bets;
    }
  }

  // ----- creating a market -----

  // The market is open and unbet on, its outcomes split the whole evenly, and each price is recorded.
  predicate OpenedAs(before: Db, after: Db, m: MarketId, ids: seq<OutcomeId>, closesAt: Option<Time>)
    requires |ids| > 0
  {
    after == before.(markets := after.markets, outcomes := after.outcomes, points := after.points) &&
    after.markets == before.markets[m := Market(Open, None, 0, 0, closesAt, ids)] &&
    (forall i :: 0 <= i < |ids| ==>
      ids[i] in after.outcomes && after.outcomes[ids[i]] == Outcome(ids[i], m, EvenPrice(|ids|, i), 0)) &&
    (forall o :: o in after.outcomes && o !in ids ==> o in before.outcomes && after.outcomes[o] == before.outcomes[o]) &&
    (forall o :: o in before.outcomes ==> o in after.outcomes) &&
    after.points == before.points + seq(|ids|, i requires 0 <= i < |ids| => PricePoint(ids[i], EvenPrice(|ids|, i)))
  }

  lemma NewBoardIsEven(m: MarketId, ids: seq<OutcomeId>)
    requires |ids| > 0
    ensures var board := Repriced(Unpriced(m, ids));
            forall i :: 0 <= i < |ids| ==> board[i] == Outcome(ids[i], m, EvenPrice(|ids|, i), 0)
  {
    var v := Volumes(Unpriced(m, ids));
    SumZero(v, Itself());
    NoVolumeSplitsEvenly(v);
  }

  /** A new market opens with the whole split evenly over its outcomes, and leaves every other row alone. */
  lemma OpenMarketOpens(db: Db, m: MarketId, ids: seq<OutcomeId>, closesAt: Option<Time>)
    requires |ids| > 0 && Distinct(ids)
    ensures OpenedAs(db, OpenMarket(db, m, ids, closesAt), m, ids, closesAt)
  {
    var board := Repriced(Unpriced(m, ids));
    NewBoardIsEven(m, ids);
    assert IdsOf(board) == ids;
    InsertBoardRows(db.outcomes, board);
    assert PointsOf(board) == seq(|ids|, i requires 0 <= i < |ids| => PricePoint(ids[i], EvenPrice(|ids|, i)));
  }

  // ----- placing a bet -----

  lemma BoardRow(db: Db, m: MarketId, outcome: OutcomeId)
    requires HasBoard(db, m) && Keyed(db.outcomes)
    ensures IdsOf(BoardOf(db, m)) == db.markets[m].board
    ensures var at := Position(IdsOf(BoardOf(db, m)), outcome);
            at.Some? ==> outcome in db.outcomes && BoardOf(db, m)[at.value] == db.outcomes[outcome]
  {
    var ids := db.markets[m].board;
    assert forall i :: 0 <= i < |ids| ==> ids[i] in db.outcomes;
  }

  /** A bet is priced at what is stored for its own outcome, and never at nothing. */
  lemma BetIsBookedAtItsOutcomesPrice(db: Db, id: BetId, user: UserId, m: MarketId, outcome: OutcomeId, amount: int)
    requires HasBoard(db, m) && Keyed(db.outcomes) && BuildPlacement(db, id, user, m, outcome, amount).Ok?
    ensures outcome in db.outcomes && amount > 0
    ensures BuildPlacement(db, id, user, m, outcome, amount).value.bet ==
            Bet(id, user, m, outcome, amount, Max(db.outcomes[outcome].price, 1), Active, None)
  {
    BoardRow(db, m, outcome);
  }

  // Why a bet is refused, the first reason first.
  function PlaceRefusal(db: Db, id: BetId, user: UserId, outcome: OutcomeId, amount: int, now: Time): (r: Option<Failure>)
    ensures r.None? ==> outcome in db.outcomes
  {
    if outcome !in db.outcomes || db.outcomes[outcome].market !in db.markets then Some(NotFound)
    else
      var market := db.markets[db.outcomes[outcome].market];
      if market.status != Open || (market.closesAt.Some? && market.closesAt.value <= now) then Some(RuleViolation)
      else if outcome !in market.board then Some(RuleViolation)
      else if user !in db.users then Some(NotFound)
      else if db.users[user] < amount then Some(RuleViolation)
      else if amount <= 0 then Some(Validation)
      else if (exists i :: 0 <= i < |db.bets| && db.bets[i].id == id) || db.outcomes[outcome].price > SCALE then Some(Storage)
      else None
  }

  /**
   * An uninterrupted placement is refused for the first reason that applies, with nothing changed, and
   * otherwise books the bet at its outcome's stored price.
   */
  lemma PlaceBetAnswers(db: Db, id: BetId, user: UserId, outcome: OutcomeId, amount: int, now: Time)
    requires Keyed(db.outcomes) && (Admit(db, outcome, now).Ok? ==> HasBoard(db, Admit(db, outcome, now).value))
    ensures var r, refusal := PlaceBet(db, id, user, outcome, amount, now), PlaceRefusal(db, id, user, outcome, amount, now);
            if refusal.Some? then r == Err(refusal.value)
            else r.Ok? && r.value.bets == db.bets +
                   [Bet(id, user, db.outcomes[outcome].market, outcome, amount, Max(db.outcomes[outcome].price, 1), Active, None)]
  {
    if Admit(db, outcome, now).Ok? {
      var m := Admit(db, outcome, now).value;
      BoardRow(db, m, outcome);
      if BuildPlacement(db, id, user, m, outcome, amount).Ok? {
        BetIsBookedAtItsOutcomesPrice(db, id, user, m, outcome, amount);
      }
    }
  }

  function AfterPlacing(w: World, request: RequestId, id: BetId, user: UserId, outcome: OutcomeId, amount: int,
                        now: Time): World
  {
    Apply(Apply(Apply(w, BeginPlace(request, user, outcome, amount, now)), PriceBet(request, id)), CommitPlace(request))
  }

  // The bet does not get as far as being priced, or its board fits in 64-bit arithmetic.
  predicate PricesIfReached(db: Db, id: BetId, user: UserId, outcome: OutcomeId, amount: int, now: Time)
    requires Admit(db, outcome, now).Ok? ==> HasBoard(db, Admit(db, outcome, now).value)
  {
    Admit(db, outcome, now).Ok? ==>
      var r := BuildPlacement(db, id, user, Admit(db, outcome, now).value, outcome, amount);
      r.Ok? ==> PricingFits(r.value)
  }

  lemma PricedThenCommitted(w: World, request: RequestId, id: BetId, user: UserId, m: MarketId, outcome: OutcomeId, amount: int)
    requires request in w.placing && w.placing[request] == Admitted(user, m, outcome, amount) && HasBoard(w.db, m)
    requires BuildPlacement(w.db, id, user, m, outcome, amount).Ok? ==>
               PricingFits(BuildPlacement(w.db, id, user, m, outcome, amount).value)
    ensures var after := Apply(Apply(w, PriceBet(request, id)), CommitPlace(request));
            var r := BuildPlacement(w.db, id, user, m, outcome, amount);
            after.placing == w.placing - {request} && after.resolving == w.resolving &&
            after.db == if r.Ok? && PlaceTx(w.db, r.value.bet, r.value.board, PointsOf(r.value.board)).Ok?
                        then PlaceTx(w.db, r.value.bet, r.value.board, PointsOf(r.value.board)).value else w.db
  {
    var r := BuildPlacement(w.db, id, user, m, outcome, amount);
    if r.Ok? {
      assert w.placing[request := Ready(r.value)] - {request} == w.placing - {request};
    }
  }

  /** An uninterrupted placement is its three steps of a run. */
  lemma PlaceBetIsItsSteps(w: World, request: RequestId, id: BetId, user: UserId, outcome: OutcomeId, amount: int, now: Time)
    requires request !in w.placing
    requires Admit(w.db, outcome, now).Ok? ==> HasBoard(w.db, Admit(w.db, outcome, now).value)
    requires PricesIfReached(w.db, id, user, outcome, amount, now)
    ensures var r := PlaceBet(w.db, id, user, outcome, amount, now);
            AfterPlacing(w, request, id, user, outcome, amount, now) == w.(db := if r.Ok? then r.value else w.db)
  {
    var admitted := Admit(w.db, outcome, now);
    if admitted.Ok? {
      var begun := Apply(w, BeginPlace(request, user, outcome, amount, now));
      PricedThenCommitted(begun, request, id, user, admitted.value, outcome, amount);
      assert begun.placing - {request} == w.placing;
    }
  }

  /** A request given up on leaves the tables and every other request as they were. */
  lemma GivenUpLeavesTables(w: World, request: RequestId)
    ensures var placed, resolved := Apply(w, AbortPlace(request)), Apply(w, AbortResolve(request));
            request !in placed.placing && request !in resolved.resolving && placed.db == w.db && resolved.db == w.db &&
            (forall q :: q in w.placing && q != request ==> q in placed.placing && placed.placing[q] == w.placing[q]) &&
            (forall q :: q in w.resolving && q != request ==> q in resolved.resolving && resolved.resolving[q] == w.resolving[q])
  {
  }

  // ----- resolving a market -----

  function Winnings(m: MarketId, winner: OutcomeId, u: UserId): Bet -> int {
    (b: Bet) => if b.user == u && b.market == m && b.status == Active && b.outcome == winner && b.price > 0
                then Payout(b.amount, b.price) else 0
  }

  predicate Wins(b: Bet, m: MarketId, winner: OutcomeId, u: UserId) {
    b.user == u && b.market == m && b.status == Active && b.outcome == winner
  }

  // Every bet open on m is decided by the winner, each balance rises by its owner's payouts, each
  // winner is told once, and nothing else changes.
  ghost predicate ResolvedAs(before: Db, after: Db, m: MarketId, winner: OutcomeId)
    requires forall b :: b in before.bets ==> b.price > 0
  {
    after == before.(markets := after.markets, bets := after.bets, users := after.users, notices := after.notices) &&
    m in before.markets &&
    after.markets == before.markets[m := before.markets[m].(status := Resolved, winner := Some(winner))] &&
    |after.bets| == |before.bets| &&
    (forall i :: 0 <= i < |before.bets| ==> after.bets[i] == DecidedBy(before.bets[i], m, winner)) &&
    after.users.Keys == before.users.Keys &&
    (forall u :: u in before.users ==> after.users[u] == before.users[u] + SumBy(before.bets, Winnings(m, winner, u))) &&
    forall u :: after.notices[u] ==
      before.notices[u] + (if exists i :: 0 <= i < |before.bets| && Wins(before.bets[i], m, winner, u) then 1 else 0)
  }

  function DecidedBy(b: Bet, m: MarketId, winner: OutcomeId): Bet
    requires b.price > 0
  {
    if b.market != m || b.status != Active then b
    else if b.outcome == winner then b.(status := Won, payout := Some(Payout(b.amount, b.price)))
    else b.(status := Lost, payout := None)
  }

  function ToSettle(bets: seq<Bet>, m: MarketId, winner: OutcomeId): seq<Bet>
    requires forall b :: b in bets ==> b.price > 0
  {
    SettleEach(ActiveIn(bets, m), winner)
  }

  lemma SettleEachSnoc(open: seq<Bet>, b: Bet, winner: OutcomeId)
    requires b.price > 0 && forall x :: x in open ==> x.price > 0
    ensures SettleEach(open + [b], winner) == SettleEach(open, winner) + [Settled(b, winner)]
  {
  }

  lemma ToSettleSnoc(bets: seq<Bet>, b: Bet, m: MarketId, winner: OutcomeId)
    requires b.price > 0 && forall x :: x in bets ==> x.price > 0
    ensures ToSettle(bets + [b], m, winner) ==
            ToSettle(bets, m, winner) + (if IsActiveIn(m)(b) then [Settled(b, winner)] else [])
  {
    FilterSnoc(bets, b, IsActiveIn(m));
    if IsActiveIn(m)(b) {
      SettleEachSnoc(ActiveIn(bets, m), b, winner);
    } else {
      assert ActiveIn(bets, m) + [] == ActiveIn(bets, m);
    }
  }

  lemma {:induction false} ListPaysWinnings(bets: seq<Bet>, m: MarketId, winner: OutcomeId, u: UserId)
    requires forall b :: b in bets ==> b.price > 0
    ensures SumBy(ToSettle(bets, m, winner), PaidTo(u)) == SumBy(bets, Winnings(m, winner, u))
  {
    if |bets| > 0 {
      var front, b := bets[..|bets| - 1], bets[|bets| - 1];
      ListPaysWinnings(front, m, winner, u);
      assert bets == front + [b];
      ToSettleSnoc(front, b, m, winner);
      SumSnoc(front, b, Winnings(m, winner, u));
      if IsActiveIn(m)(b) {
        SumSnoc(ToSettle(front, m, winner), Settled(b, winner), PaidTo(u));
      } else {
        assert ToSettle(front, m, winner) + [] == ToSettle(front, m, winner);
      }
    }
  }

  lemma TellsWinners(bets: seq<Bet>, m: MarketId, winner: OutcomeId, u: UserId)
    requires forall b :: b in bets ==> b.price > 0
    ensures u in PaidUsers(ToSettle(bets, m, winner)) <==> exists i :: 0 <= i < |bets| && Wins(bets[i], m, winner, u)
  {
    var open, settled := ActiveIn(bets, m), ToSettle(bets, m, winner);
    if u in PaidUsers(settled) {
      var s :| s in settled && s.payout.Some? && s.user == u;
      var j :| 0 <= j < |settled| && settled[j] == s;
      assert open[j] in open;
      var i :| 0 <= i < |bets| && bets[i] == open[j];
      assert Wins(bets[i], m, winner, u);
    }
    if i :| 0 <= i < |bets| && Wins(bets[i], m, winner, u) {
      assert bets[i] in open;
      var j :| 0 <= j < |open| && open[j] == bets[i];
      assert settled[j] in settled;
    }
  }

  lemma RowIsDecided(db: Db, m: MarketId, winner: OutcomeId, i: nat)
    requires DistinctIds(db.bets) && (forall b :: b in db.bets ==> b.price > 0) && i < |db.bets|
    ensures var after := SettleRows(db, ToSettle(db.bets, m, winner)).bets;
            |after| == |db.bets| && after[i] == DecidedBy(db.bets[i], m, winner)
  {
    var settled := ToSettle(db.bets, m, winner);
    OpenBetsLoad(db.bets, m, winner);
    LoadedBetsCover(db, m, winner);
    RowAfterSettle(db, settled, m, winner, i);
    assert db.bets[i] in db.bets;
  }

  /** An uninterrupted resolution is refused for the first reason that applies, or decides the market. */
  lemma ResolveMarketAnswers(db: Db, m: MarketId, winner: OutcomeId)
    requires DistinctIds(db.bets) && forall b :: b in db.bets ==> b.price > 0
    ensures var r := ResolveMarket(db, m, winner);
            if m !in db.markets then r == Err(NotFound)
            else if winner !in db.markets[m].board || db.markets[m].status == Resolved then r == Err(RuleViolation)
            else r.Ok? && ResolvedAs(db, r.value, m, winner)
  {
    if m in db.markets && winner in db.markets[m].board && db.markets[m].status != Resolved {
      SettlesAsResolved(db, m, db.markets[m].(status := Resolved, winner := Some(winner)), winner);
    }
  }

  lemma SettlesAsResolved(db: Db, m: MarketId, row: Market, winner: OutcomeId)
    requires DistinctIds(db.bets) && (forall b :: b in db.bets ==> b.price > 0) && m in db.markets
    requires row.status == Resolved && row.winner == Some(winner)
    ensures ResolvedAs(db, SettleTx(db, m, row, ToSettle(db.bets, m, winner)), m, winner)
  {
    var settled, closed := ToSettle(db.bets, m, winner), CloseMarket(db, m, row);
    SettleRowsMarkets(closed, settled);
    SettlePaysEachUserTheirPayouts(closed, settled);
    forall i: nat | i < |db.bets| ensures SettleRows(closed, settled).bets[i] == DecidedBy(db.bets[i], m, winner) {
      RowIsDecided(closed, m, winner, i);
    }
    forall u
      ensures SumBy(settled, PaidTo(u)) == SumBy(db.bets, Winnings(m, winner, u))
      ensures u in PaidUsers(settled) <==> exists i :: 0 <= i < |db.bets| && Wins(db.bets[i], m, winner, u)
    {
      ListPaysWinnings(db.bets, m, winner, u);
      TellsWinners(db.bets, m, winner, u);
    }
  }

  function AfterResolving(w: World, request: RequestId, m: MarketId, winner: OutcomeId): World {
    Apply(Apply(Apply(w, BeginResolve(request, m, winner)), LoadBets(request)), CommitSettle(request))
  }

  lemma SettleReadsOutcomeOnly(db: Db, m: MarketId, row: Market, other: Market, settled: seq<Bet>)
    requires row.status == other.status && row.winner == other.winner
    ensures SettleTx(db, m, row, settled) == SettleTx(db, m, other, settled)
  {
  }

  /** An uninterrupted resolution is its three steps of a run. */
  lemma ResolveMarketIsItsSteps(w: World, request: RequestId, m: MarketId, winner: OutcomeId)
    requires request !in w.resolving && forall b :: b in w.db.bets ==> b.price > 0
    ensures var r := ResolveMarket(w.db, m, winner);
            AfterResolving(w, request, m, winner) == w.(db := if r.Ok? then r.value else w.db)
  {
    if CheckResolve(w.db, m, winner).Ok? {
      var begun := Apply(w, BeginResolve(request, m, winner));
      LoadsThenSettles(begun, request, m, winner);
      assert begun.resolving - {request} == w.resolving;
      SettleReadsOutcomeOnly(w.db, m, ResolvedRow(winner), CheckResolve(w.db, m, winner).value, ToSettle(w.db.bets, m, winner));
    }
  }

  lemma LoadsThenSettles(w: World, request: RequestId, m: MarketId, winner: OutcomeId)
    requires request in w.resolving && w.resolving[request] == Checked(m, winner)
    requires forall b :: b in w.db.bets ==> b.price > 0
    ensures Apply(Apply(w, LoadBets(request)), CommitSettle(request)) ==
            w.(db := SettleTx(w.db, m, ResolvedRow(winner), ToSettle(w.db.bets, m, winner)), resolving := w.resolving - {request})
  {
    var list := Loaded(m, winner, ToSettle(w.db.bets, m, winner));
    assert forall i :: 0 <= i < |ActiveIn(w.db.bets, m)| ==> ActiveIn(w.db.bets, m)[i] in ActiveIn(w.db.bets, m);
    assert Apply(w, LoadBets(request)) == w.(resolving := w.resolving[request := list]);
    assert w.resolving[request := list] - {request} == w.resolving - {request};
  }
}
