/**
 * Money and outcomes over whole runs: exactly when the books balance, and what holds when
 * resolutions of one market do not overlap.
 */
module LedgerAccounts {
  import opened Base
  import opened Sums
  import opened Pricing
  import opened Bets
  import opened Ledger
  import opened LedgerKeeps
  import opened LedgerRuns
  import opened LedgerScenes
  import opened Throughout

  // ----- exactly when the books balance -----

  // A settlement that pays no bet the store already records as paid.
  predicate Unpaid(w: World, step: Step) {
    step.CommitSettle? && step.request in w.resolving && w.resolving[step.request].Loaded? ==>
      NonePaidBefore(w.db.bets, w.resolving[step.request].settled)
  }

  predicate NonePaidBefore(bets: seq<Bet>, settled: seq<Bet>) {
    forall i, j :: 0 <= i < |bets| && 0 <= j < |settled| && bets[i].id == settled[j].id ==> bets[i].payout == None
  }

  predicate Balanced(w: World) {
    BooksBalance(w.db.users, w.db.bets)
  }

  lemma SettleBalancesIff(db: Db, settled: seq<Bet>, m: MarketId, winner: OutcomeId)
    requires BetsOk(db.users, db.markets, db.bets) && BooksBalance(db.users, db.bets)
    requires SettlesRows(db.bets, settled, m, winner)
    ensures BooksBalance(SettleRows(db, settled).users, SettleRows(db, settled).bets) <==>
            NonePaidBefore(db.bets, settled)
  {
    var rows := RowsOfSettled(db.bets, settled, m, winner);
    PaidBetsAreWorthSomething(db.users, db.markets, db.bets);
    SettleKeepsBooksIff(db, settled, rows);
    forall i, j | 0 <= i < |db.bets| && 0 <= j < |settled| && db.bets[i].id == settled[j].id ensures i == rows[j] {
      assert db.bets[rows[j]].id == settled[j].id;
    }
  }

  lemma CommitSettleBalancesIff(w: World, request: RequestId)
    requires Inv(w) && Balanced(w)
    ensures Balanced(Apply(w, CommitSettle(request))) <==> Unpaid(w, CommitSettle(request))
  {
    if request in w.resolving && w.resolving[request].Loaded? {
      var r := w.resolving[request];
      assert ResolutionOk(w.db, r);
      var closed := CloseMarket(w.db, r.market, ResolvedRow(r.winner));
      CloseKeepsSound(w.db, r.market, ResolvedRow(r.winner));
      SettleBalancesIff(closed, r.settled, r.market, r.winner);
    }
  }

  predicate BalancedAfter(w: World, step: Step) {
    Balanced(Apply(w, step))
  }

  lemma CommitPlaceBalances(w: World, request: RequestId)
    requires PlacingOk(w.db, w.placing) && Balanced(w)
    ensures BalancedAfter(w, CommitPlace(request))
  {
    if request in w.placing && w.placing[request].Ready? {
      var p := w.placing[request].placement;
      assert InFlightOk(w.db, w.placing[request]);
      if PlaceTx(w.db, p.bet, p.board, PointsOf(p.board)).Ok? {
        PlaceKeepsBooksIff(w.db, p.bet, p.board, PointsOf(p.board));
      }
    }
  }

  lemma RegisterBalances(w: World, user: UserId)
    requires BetsOk(w.db.users, w.db.markets, w.db.bets) && Balanced(w)
    ensures BalancedAfter(w, Register(user))
  {
    if user !in w.db.users {
      NewcomerOwesNothing(w.db.users, w.db.markets, w.db.bets, user);
    }
  }

  lemma QuietStepsBalance(w: World, step: Step)
    requires Balanced(w) && !step.CommitSettle? && !step.Register? && !step.CommitPlace?
    ensures BalancedAfter(w, step)
  {
    assert Apply(w, step).db.users == w.db.users && Apply(w, step).db.bets == w.db.bets;
  }

  lemma OtherStepsBalance(w: World, step: Step)
    requires Inv(w) && Balanced(w) && !step.CommitSettle?
    ensures BalancedAfter(w, step)
  {
    match step
    case Register(user) => RegisterBalances(w, user);
    case CommitPlace(request) => CommitPlaceBalances(w, request);
    case _ => QuietStepsBalance(w, step);
  }

  lemma StepBalancesIff(w: World, step: Step)
    requires Inv(w) && Balanced(w)
    ensures Balanced(Apply(w, step)) <==> Unpaid(w, step)
  {
    if step.CommitSettle? {
      CommitSettleBalancesIff(w, step.request);
    } else {
      OtherStepsBalance(w, step);
    }
  }

  lemma RunStep(steps: seq<Step>, i: nat)
    requires i < |steps|
    ensures Run(steps[..i + 1]) == Apply(Run(steps[..i]), steps[i])
  {
    assert steps[..i + 1][..i] == steps[..i];
  }

  // After i steps the books balance; step i pays nothing already paid.
  predicate BalancedAt(steps: seq<Step>, i: nat) {
    i <= |steps| ==> Balanced(Run(steps[..i]))
  }

  predicate UnpaidAt(steps: seq<Step>, i: nat) {
    i < |steps| ==> Unpaid(Run(steps[..i]), steps[i])
  }

  lemma BalancedNextIff(steps: seq<Step>, i: nat)
    requires i < |steps| && BalancedAt(steps, i)
    ensures BalancedAt(steps, i + 1) <==> UnpaidAt(steps, i)
  {
    RunStep(steps, i);
    RunsKeepInv(steps[..i]);
    StepBalancesIff(Run(steps[..i]), steps[i]);
  }

  /**
   * Every balance equals the starting balance less all stakes plus all recorded payouts, in every
   * state of a run, if and only if no settlement of the run commits a bet already paid.
   */
  lemma BooksBalanceThroughoutIff(steps: seq<Step>)
    ensures (forall i: nat :: i <= |steps| ==> BalancedAt(steps, i)) <==>
            (forall i: nat :: i < |steps| ==> UnpaidAt(steps, i))
  {
    var p, q := (i: nat) => BalancedAt(steps, i), (i: nat) => UnpaidAt(steps, i);
    assert steps[..0] == [];
    forall i: nat | i < |steps| && p(i) ensures p(i + 1) <==> q(i) {
      BalancedNextIff(steps, i);
    }
    HoldsThroughoutIff(p, q, |steps|);
    assert forall i: nat :: p(i) == BalancedAt(steps, i) && q(i) == UnpaidAt(steps, i);
  }

  // ----- runs in which resolutions of one market do not overlap -----

  // A resolution is begun only while no other of its market is in flight.
  predicate Apart(w: World, step: Step) {
    step.BeginResolve? ==>
      forall q :: q in w.resolving && q != step.request ==> w.resolving[q].market != step.market
  }

  predicate AllApart(steps: seq<Step>) {
    forall i :: 0 <= i < |steps| ==> Apart(Run(steps[..i]), steps[i])
  }

  // The market is still to be resolved, and so are the bets loaded for it.
  predicate Untouched(db: Db, r: Resolution) {
    r.market in db.markets && db.markets[r.market].status != Resolved && (r.Loaded? ==> RowsOpen(db.bets, r.settled))
  }

  predicate AllUntouched(db: Db, resolving: map<RequestId, Resolution>) {
    forall q :: q in resolving ==> Untouched(db, resolving[q])
  }

  predicate OnePerMarket(resolving: map<RequestId, Resolution>) {
    forall q, r :: q in resolving && r in resolving && q != r ==> resolving[q].market != resolving[r].market
  }

  predicate ApartOk(w: World) {
    Accounted(w.db) && AllUntouched(w.db, w.resolving) && OnePerMarket(w.resolving)
  }

  lemma OpenMarketLeavesUntouched(db: Db, m: MarketId, ids: seq<OutcomeId>, closesAt: Option<Time>,
                                  resolving: map<RequestId, Resolution>)
    requires CanOpen(db, m, ids) && AllUntouched(db, resolving)
    ensures AllUntouched(OpenMarket(db, m, ids, closesAt), resolving)
  {
    forall q | q in resolving ensures Untouched(OpenMarket(db, m, ids, closesAt), resolving[q]) {
      assert Untouched(db, resolving[q]);
    }
  }

  lemma PlaceLeavesUntouched(db: Db, bet: Bet, board: seq<Outcome>, points: seq<PricePoint>,
                             resolving: map<RequestId, Resolution>)
    requires PlaceTx(db, bet, board, points).Ok? && bet.status == Active && AllUntouched(db, resolving)
    ensures AllUntouched(PlaceTx(db, bet, board, points).value, resolving)
  {
    forall q | q in resolving ensures Untouched(PlaceTx(db, bet, board, points).value, resolving[q]) {
      assert Untouched(db, resolving[q]);
    }
  }

  // Settling one market leaves the lists loaded for others open.
  lemma SettleLeavesListOpen(db: Db, m: MarketId, winner: OutcomeId, settled: seq<Bet>,
                             k: MarketId, other: OutcomeId, list: seq<Bet>)
    requires DistinctIds(db.bets) && SettlesRows(db.bets, settled, m, winner) && k != m
    requires SettlesRows(db.bets, list, k, other) && RowsOpen(db.bets, list)
    ensures RowsOpen(SettleRows(db, settled).bets, list)
  {
    var after := SettleRows(db, settled).bets;
    SettlePaysEachUserTheirPayouts(db, settled);
    forall i, j | 0 <= i < |after| && 0 <= j < |list| && after[i].id == list[j].id ensures after[i].status == Active {
      ListedDecidesRow(db.bets, list, k, other, i, j);
      RowAfterSettle(db, settled, m, winner, i);
    }
  }

  lemma SettleLeavesUntouched(db: Db, m: MarketId, winner: OutcomeId, settled: seq<Bet>, r: Resolution)
    requires DistinctIds(db.bets) && SettlesRows(db.bets, settled, m, winner)
    requires ResolutionOk(db, r) && Untouched(db, r) && r.market != m
    ensures Untouched(SettleTx(db, m, ResolvedRow(winner), settled), r)
  {
    var closed := CloseMarket(db, m, ResolvedRow(winner));
    SettleRowsMarkets(closed, settled);
    if r.Loaded? {
      SettleLeavesListOpen(closed, m, winner, settled, r.market, r.winner, r.settled);
    }
  }

  lemma CommitSettleKeepsApart(w: World, request: RequestId)
    requires Inv(w) && ApartOk(w)
    ensures ApartOk(Apply(w, CommitSettle(request)))
  {
    if request in w.resolving && w.resolving[request].Loaded? {
      var r, rest := w.resolving[request], w.resolving - {request};
      assert ResolutionOk(w.db, r) && Untouched(w.db, r);
      SettleKeepsAccounted(w.db, r.market, ResolvedRow(r.winner), r.winner, r.settled);
      forall q | q in rest ensures Untouched(SettleTx(w.db, r.market, ResolvedRow(r.winner), r.settled), rest[q]) {
        assert ResolutionOk(w.db, w.resolving[q]) && Untouched(w.db, w.resolving[q]);
        SettleLeavesUntouched(w.db, r.market, r.winner, r.settled, rest[q]);
      }
    }
  }

  lemma LoadBetsKeepsApart(w: World, request: RequestId)
    requires BetsOk(w.db.users, w.db.markets, w.db.bets) && ApartOk(w)
    ensures ApartOk(Apply(w, LoadBets(request)))
  {
    if request in w.resolving && w.resolving[request].Checked? {
      var r := w.resolving[request];
      assert Untouched(w.db, r);
      LoadedBetsAreOpen(w.db, r.market, r.winner);
    }
  }

  lemma CommitPlaceKeepsApart(w: World, request: RequestId)
    requires PlacingOk(w.db, w.placing) && ApartOk(w)
    ensures ApartOk(Apply(w, CommitPlace(request)))
  {
    if request in w.placing && w.placing[request].Ready? {
      var p := w.placing[request].placement;
      assert InFlightOk(w.db, w.placing[request]);
      if PlaceTx(w.db, p.bet, p.board, PointsOf(p.board)).Ok? {
        PlaceKeepsAccounted(w.db, p);
        PlaceLeavesUntouched(w.db, p.bet, p.board, PointsOf(p.board), w.resolving);
      }
    }
  }

  predicate StaysApart(w: World, step: Step) {
    ApartOk(Apply(w, step))
  }

  lemma RegisterKeepsApart(w: World, user: UserId)
    requires BetsOk(w.db.users, w.db.markets, w.db.bets) && ApartOk(w)
    ensures StaysApart(w, Register(user))
  {
    if user !in w.db.users {
      RegisterKeepsAccounted(w.db, user);
      assert forall q :: q in w.resolving ==> Untouched(w.db, w.resolving[q]);
    }
  }

  lemma CreateMarketKeepsApart(w: World, m: MarketId, ids: seq<OutcomeId>, closesAt: Option<Time>)
    requires ApartOk(w)
    ensures StaysApart(w, CreateMarket(m, ids, closesAt))
  {
    if CanOpen(w.db, m, ids) {
      OpenMarketKeepsAccounted(w.db, m, ids, closesAt);
      OpenMarketLeavesUntouched(w.db, m, ids, closesAt, w.resolving);
    }
  }

  lemma ReadsKeepApart(w: World, step: Step)
    requires ApartOk(w) && Apart(w, step)
    requires step.BeginPlace? || step.PriceBet? || step.AbortPlace? || step.BeginResolve? || step.AbortResolve?
    ensures StaysApart(w, step)
  {
  }

  lemma StepKeepsApart(w: World, step: Step)
    requires Inv(w) && ApartOk(w) && Apart(w, step)
    ensures StaysApart(w, step)
  {
    match step
    case Register(user) => RegisterKeepsApart(w, user);
    case CreateMarket(m, ids, closesAt) => CreateMarketKeepsApart(w, m, ids, closesAt);
    case CommitPlace(request) => CommitPlaceKeepsApart(w, request);
    case LoadBets(request) => LoadBetsKeepsApart(w, request);
    case CommitSettle(request) => CommitSettleKeepsApart(w, request);
    case _ => ReadsKeepApart(w, step);
  }

  lemma ApartPrefix(steps: seq<Step>, n: nat)
    requires AllApart(steps) && n <= |steps|
    ensures AllApart(steps[..n])
  {
    assert forall i :: 0 <= i < n ==> steps[..n][..i] == steps[..i];
  }

  lemma {:induction false} ApartRunsStayApart(steps: seq<Step>)
    requires AllApart(steps)
    ensures ApartOk(Run(steps))
  {
    if |steps| > 0 {
      var n := |steps| - 1;
      ApartPrefix(steps, n);
      ApartRunsStayApart(steps[..n]);
      RunsKeepInv(steps[..n]);
      StepKeepsApart(Run(steps[..n]), steps[n]);
    }
  }

  /**
   * Balances never go negative in any run; when resolutions of one market do not overlap they are
   * the starting balance, less all stakes, plus all recorded payouts.
   */
  lemma BalancesInEveryRun(steps: seq<Step>, u: UserId)
    requires u in Run(steps).db.users
    ensures Run(steps).db.users[u] >= 0
    ensures AllApart(steps) ==>
              Run(steps).db.users[u] ==
              STARTING_BALANCE - SumBy(Run(steps).db.bets, StakeBy(u)) + SumBy(Run(steps).db.bets, PaidTo(u))
  {
    RunsKeepInv(steps);
    if AllApart(steps) {
      ApartRunsStayApart(steps);
    }
  }

  /**
   * In any run a payout is recorded exactly on won bets and no bet is refunded; when resolutions of
   * one market do not overlap, a decided bet is won exactly when it is on the resolved outcome.
   */
  lemma LifecycleInEveryRun(steps: seq<Step>, i: nat)
    requires i < |Run(steps).db.bets|
    ensures var db := Run(steps).db; var b := db.bets[i];
            b.market in db.markets && 0 < b.price <= SCALE && b.status != Refunded &&
            b.payout == (if b.status == Won then Some(Payout(b.amount, b.price)) else None) &&
            (AllApart(steps) && b.status != Active ==>
              db.markets[b.market].status == Resolved && db.markets[b.market].winner.Some? &&
              (b.status == Won <==> db.markets[b.market].winner == Some(b.outcome)))
  {
    RunsKeepInv(steps);
    var db := Run(steps).db;
    assert BetOk(db.users, db.markets, db.bets[i]);
    if AllApart(steps) {
      ApartRunsStayApart(steps);
      assert WinnerOk(db.markets, db.bets[i]);
    }
  }

  // ----- nothing settled ever changes again -----

  predicate Final(before: Db, after: Db) {
    TermsKept(before, after) &&
    (forall i :: 0 <= i < |before.bets| && before.bets[i].status != Active ==> after.bets[i] == before.bets[i]) &&
    (forall m :: m in before.markets && before.markets[m].status == Resolved ==>
      m in after.markets && after.markets[m].status == Resolved && after.markets[m].winner == before.markets[m].winner)
  }

  lemma SettleIsFinal(db: Db, m: MarketId, row: Market, settled: seq<Bet>, winner: OutcomeId)
    requires DistinctIds(db.bets) && SettlesOpenBets(db.bets, settled, m, winner)
    requires m in db.markets && db.markets[m].status != Resolved
    ensures Final(db, SettleTx(db, m, row, settled))
  {
    var closed := CloseMarket(db, m, row);
    SettlePaysEachUserTheirPayouts(closed, settled);
    SettleRowsMarkets(closed, settled);
    forall i: nat | i < |db.bets| && db.bets[i].status != Active
      ensures SettleTx(db, m, row, settled).bets[i] == db.bets[i]
    {
      RowAfterSettle(closed, settled, m, winner, i);
    }
  }

  lemma PlacedIsFinal(db: Db, bet: Bet, board: seq<Outcome>, points: seq<PricePoint>)
    requires PlaceTx(db, bet, board, points).Ok?
    ensures Final(db, PlaceTx(db, bet, board, points).value)
  {
  }

  lemma OtherStepsAreFinal(w: World, step: Step)
    requires !step.CommitSettle?
    ensures Final(w.db, Apply(w, step).db)
  {
    if step.CommitPlace? && step.request in w.placing && w.placing[step.request].Ready? {
      var p := w.placing[step.request].placement;
      if PlaceTx(w.db, p.bet, p.board, PointsOf(p.board)).Ok? {
        PlacedIsFinal(w.db, p.bet, p.board, PointsOf(p.board));
      }
    }
  }

  lemma StepIsFinal(w: World, step: Step)
    requires Inv(w) && ApartOk(w)
    ensures Final(w.db, Apply(w, step).db)
  {
    if step.CommitSettle? {
      if step.request in w.resolving && w.resolving[step.request].Loaded? {
        var r := w.resolving[step.request];
        assert ResolutionOk(w.db, r) && Untouched(w.db, r);
        SettleIsFinal(w.db, r.market, ResolvedRow(r.winner), r.settled, r.winner);
      }
    } else {
      OtherStepsAreFinal(w, step);
    }
  }

  lemma FinalThroughout(a: Db, b: Db, c: Db)
    requires Final(a, b) && Final(b, c)
    ensures Final(a, c)
  {
  }

  lemma RunOneMore(steps: seq<Step>, more: seq<Step>)
    requires |more| > 0
    ensures Run(steps + more) == Apply(Run(steps + more[..|more| - 1]), more[|more| - 1])
  {
    assert (steps + more)[..|steps + more| - 1] == steps + more[..|more| - 1];
  }

  /**
   * When resolutions of one market do not overlap, settled bets, winners, and the terms of every
   * bet stay as they are for the rest of any run.
   */
  lemma {:induction false} SettledStaysSettled(steps: seq<Step>, more: seq<Step>)
    requires AllApart(steps + more)
    ensures Final(Run(steps).db, Run(steps + more).db)
  {
    if |more| == 0 {
      assert steps + more == steps;
    } else {
      var n := |more| - 1;
      var front := steps + more[..n];
      assert (steps + more)[..|front|] == front;
      ApartPrefix(steps + more, |front|);
      RunOneMore(steps, more);
      SettledStaysSettled(steps, more[..n]);
      RunsKeepInv(front);
      ApartRunsStayApart(front);
      StepIsFinal(Run(front), more[n]);
      FinalThroughout(Run(steps).db, Run(front).db, Run(steps + more).db);
    }
  }

  // ----- two resolutions of one market, overlapping -----

  function OneBet(): seq<Step> {
    Opening() + [BeginPlace(0, 0, 0, 100, 0)] + [PriceBet(0, 0)] + [CommitPlace(0)]
  }

  // One bet, then two resolutions that both check and load before either commits.
  function PaidTwice(): seq<Step> {
    OneBet() + [BeginResolve(1, 0, 0)] + [LoadBets(1)] + [BeginResolve(2, 0, 0)] + [LoadBets(2)] +
    [CommitSettle(1)] + [CommitSettle(2)]
  }

  // The state after one bet of 100 by user 0 on outcome 0.
  ghost predicate OneOpenBet(w: World, b: Bet) {
    Inv(w) && w.db.bets == [b] && b == Bet(0, 0, 0, 0, 100, b.price, Active, None) && 0 < b.price <= SCALE &&
    0 in w.db.users && w.db.users[0] == STARTING_BALANCE - 100 && w.resolving == map[] &&
    0 in w.db.markets && w.db.markets[0].status == Open && w.db.markets[0].board == [0, 1]
  }

  lemma CommitLeavesOneBet(w: World, p: Placement, after: World)
    requires w.db.bets == [] && 0 in w.db.users && w.db.users[0] == STARTING_BALANCE && w.resolving == map[]
    requires 0 in w.db.markets && w.db.markets[0] == Market(Open, None, 0, 0, None, [0, 1])
    requires p.bet == Bet(0, 0, 0, 0, 100, p.bet.price, Active, None) && 0 < p.bet.price <= SCALE && Inv(after)
    requires after.db == Placed(w.db, p.bet, p.board, PointsOf(p.board)) && after.resolving == w.resolving
    ensures OneOpenBet(after, p.bet)
  {
  }

  lemma OneBetCommits(w: World, p: Placement)
    requires NothingBet(w) && PlacementOk(w.db, p) && p.bet == Bet(0, 0, 0, 0, 100, p.bet.price, Active, None)
    ensures var after := Apply(w.(placing := w.placing[0 := Ready(p)]), CommitPlace(0));
            after.db == Placed(w.db, p.bet, p.board, PointsOf(p.board)) && after.resolving == w.resolving
  {
    BetCommits(w.(placing := w.placing[0 := Ready(p)]), 0, p);
  }

  lemma OneBetAfter(first: seq<Step>) returns (p: Placement)
    requires NothingBet(Run(first)) && 0 !in Run(first).placing
    ensures PlacementOk(Run(first).db, p) && p.bet == Bet(0, 0, 0, 0, 100, p.bet.price, Active, None)
    ensures var after := Run(first + [BeginPlace(0, 0, 0, 100, 0)] + [PriceBet(0, 0)] + [CommitPlace(0)]);
            after.db == Placed(Run(first).db, p.bet, p.board, PointsOf(p.board)) && after.resolving == Run(first).resolving
  {
    var begin, price := BeginPlace(0, 0, 0, 100, 0), PriceBet(0, 0);
    RunThenTwo(first, begin, price);
    RunThen(first + [begin] + [price], CommitPlace(0));
    p := BetIsPriced(Run(first), 0, 0, 0, 100);
    OneBetCommits(Run(first), p);
  }

  lemma OneBetIsOpen() returns (b: Bet)
    ensures OneOpenBet(Run(OneBet()), b)
  {
    OpeningIsEmpty();
    var p := OneBetAfter(Opening());
    RunsKeepInv(OneBet());
    CommitLeavesOneBet(Run(Opening()), p, Run(OneBet()));
    b := p.bet;
  }

  lemma OneOpenBetListed(b: Bet)
    requires b.market == 0 && b.status == Active && b.price > 0
    ensures ActiveIn([b], 0) == [b] && SettleEach([b], 0) == [Settled(b, 0)]
  {
    assert [b][..0] == [];
  }

  lemma LoadsOneBet(w: World, request: RequestId, b: Bet)
    requires BetsOk(w.db.users, w.db.markets, w.db.bets) && request !in w.resolving
    requires w.db.bets == [b] && b.market == 0 && b.status == Active && b.price > 0
    requires 0 in w.db.markets && w.db.markets[0].status == Open && w.db.markets[0].board == [0, 1]
    ensures Apply(Apply(w, BeginResolve(request, 0, 0)), LoadBets(request)) ==
            w.(resolving := w.resolving[request := Loaded(0, 0, [Settled(b, 0)])])
  {
    OneOpenBetListed(b);
    ResolutionLoads(w, request, 0, 0);
  }

  lemma OneListSettles(b: Bet)
    requires b.market == 0 && b.price > 0
    ensures SettlesRows([b], [Settled(b, 0)], 0, 0)
  {
    assert Settles([b], 0, Settled(b, 0), 0, 0);
  }

  lemma SecondListKeepsInv(w: World, request: RequestId, b: Bet)
    requires Inv(w) && w.db.bets == [b] && b.market == 0 && b.price > 0
    requires 0 in w.db.markets && w.db.markets[0].board == [0, 1]
    ensures Inv(w.(resolving := w.resolving[request := Loaded(0, 0, [Settled(b, 0)])]))
  {
    OneListSettles(b);
    WithResolutionKeepsInv(w, request, Loaded(0, 0, [Settled(b, 0)]));
  }

  lemma BothLoad(w: World, b: Bet)
    requires OneOpenBet(w, b)
    ensures var once := Apply(Apply(w, BeginResolve(1, 0, 0)), LoadBets(1));
            var list := Loaded(0, 0, [Settled(b, 0)]);
            Apply(Apply(once, BeginResolve(2, 0, 0)), LoadBets(2)) == w.(resolving := map[][1 := list][2 := list])
  {
    LoadsOneBet(w, 1, b);
    SecondListKeepsInv(w, 1, b);
    LoadsOneBet(w.(resolving := w.resolving[1 := Loaded(0, 0, [Settled(b, 0)])]), 2, b);
  }

  lemma BothCommit(w: World, list: Resolution)
    requires w.resolving == map[][1 := list][2 := list] && list.Loaded?
    ensures Apply(Apply(w, CommitSettle(1)), CommitSettle(2)).db ==
            SettleTx(SettleTx(w.db, list.market, ResolvedRow(list.winner), list.settled),
                     list.market, ResolvedRow(list.winner), list.settled)
  {
  }

  lemma PaysAgain(db: Db, b: Bet, row: Market)
    requires db.bets == [b] && b.user in db.users && b.outcome == 0 && b.price > 0
    ensures var once := SettleTx(db, 0, row, [Settled(b, 0)]);
            var twice := SettleTx(once, 0, row, [Settled(b, 0)]);
            twice.bets == [Settled(b, 0)] && b.user in twice.users &&
            twice.users[b.user] == db.users[b.user] + 2 * Payout(b.amount, b.price)
  {
    var list := [Settled(b, 0)];
    assert list[..0] == [];
    var closed := CloseMarket(db, 0, row);
    assert SettleRows(closed, list) == SettleOne(closed, list[0]);
    var again := CloseMarket(SettleTx(db, 0, row, list), 0, row);
    assert SettleRows(again, list) == SettleOne(again, list[0]);
  }

  lemma OwedAfterOneWin(s: Bet)
    requires s.user == 0 && s.payout.Some?
    ensures Owed([s], 0) == STARTING_BALANCE - s.amount + s.payout.value
  {
    SumOne(s, StakeBy(0));
    SumOne(s, PaidTo(0));
  }

  lemma PaidTwiceEnds() returns (b: Bet)
    ensures OneOpenBet(Run(OneBet()), b)
    ensures var db := Run(OneBet()).db;
            var once := SettleTx(db, 0, ResolvedRow(0), [Settled(b, 0)]);
            Run(PaidTwice()).db == SettleTx(once, 0, ResolvedRow(0), [Settled(b, 0)])
  {
    b := OneBetIsOpen();
    var loaded := OneBet() + [BeginResolve(1, 0, 0)] + [LoadBets(1)];
    RunThenTwo(OneBet(), BeginResolve(1, 0, 0), LoadBets(1));
    RunThenTwo(loaded, BeginResolve(2, 0, 0), LoadBets(2));
    RunThenTwo(loaded + [BeginResolve(2, 0, 0)] + [LoadBets(2)], CommitSettle(1), CommitSettle(2));
    BothLoad(Run(OneBet()), b);
    BothCommit(Run(loaded + [BeginResolve(2, 0, 0)] + [LoadBets(2)]), Loaded(0, 0, [Settled(b, 0)]));
  }

  /**
   * Nothing stops two resolutions of one market from overlapping, and then a winning bet is paid
   * twice: the bettor ends with one payout more than the books record.
   */
  lemma OverlappingResolutionsPayTwice()
    ensures var db := Run(PaidTwice()).db;
            0 in db.users && |db.bets| == 1 && db.bets[0].status == Won && db.bets[0].payout.Some? &&
            db.users[0] == Owed(db.bets, 0) + db.bets[0].payout.value && db.bets[0].payout.value > 0
  {
    var b := PaidTwiceEnds();
    PaysAgain(Run(OneBet()).db, b, ResolvedRow(0));
    OwedAfterOneWin(Settled(b, 0));
    PayoutNotNegative(b.amount, b.price);
  }
}
