/** Totals, prices, payouts and events over whole runs, and exactly when stored prices are right. */
module LedgerTheorems {
  import opened Base
  import opened Sums
  import opened Pricing
  import opened Bets
  import opened Ledger
  import opened LedgerKeeps
  import opened LedgerRuns
  import opened LedgerScenes
  import opened LedgerCalls

  // ----- every run, however its requests overlap -----

  /** Volumes, totals and participant counts are exactly what the book of bets says. */
  lemma TotalsInEveryRun(steps: seq<Step>)
    ensures var db := Run(steps).db;
            (forall o :: o in db.outcomes ==> db.outcomes[o].volume == SumBy(db.bets, StakeOn(o))) &&
            (forall m :: m in db.markets ==>
              db.markets[m].totalVolume == SumBy(db.bets, StakeIn(m)) &&
              HasBoard(db, m) && db.markets[m].totalVolume == Sum(Volumes(BoardOf(db, m))) &&
              db.markets[m].participants == |Bettors(db.bets, m)|)
  {
    RunsKeepInv(steps);
    var db := Run(steps).db;
    forall m | m in db.markets
      ensures HasBoard(db, m) && db.markets[m].totalVolume == Sum(Volumes(BoardOf(db, m)))
    {
      TotalVolumeIsSumOfVolumes(db, m);
    }
  }

  /** Stored prices of every market sum to 1.0000, and end the price history of their outcome. */
  lemma PricesInEveryRun(steps: seq<Step>)
    ensures var db := Run(steps).db;
            (forall m :: m in db.markets ==> HasBoard(db, m) && Sum(PricesOn(BoardOf(db, m))) == SCALE) &&
            (forall o :: o in db.outcomes ==> LastPoint(db.points, o) == Some(db.outcomes[o].price))
  {
    RunsKeepInv(steps);
  }

  // ----- what won bets are paid -----

  predicate StakeFits(b: Bet) {
    b.amount * SCALE <= I64_MAX
  }

  // A bet is only ever placed at a stake that pricing could hold.
  predicate StakesFit(w: World) {
    (forall i :: 0 <= i < |w.db.bets| ==> StakeFits(w.db.bets[i])) &&
    forall q :: q in w.placing && w.placing[q].Ready? ==> StakeFits(w.placing[q].placement.bet)
  }

  lemma PricedStakeFits(db: Db, id: BetId, user: UserId, m: MarketId, outcome: OutcomeId, amount: int)
    requires Sound(db) && HasBoard(db, m) && BuildPlacement(db, id, user, m, outcome, amount).Ok?
    requires PricingFits(BuildPlacement(db, id, user, m, outcome, amount).value)
    ensures StakeFits(BuildPlacement(db, id, user, m, outcome, amount).value.bet)
  {
    BuiltPlacement(db, id, user, m, outcome, amount);
    VolumesNotNegative(db, m);
    var board := BoardOf(db, m);
    var chosen := Position(IdsOf(board), outcome).value;
    var p := BuildPlacement(db, id, user, m, outcome, amount).value;
    assert Volumes(board)[chosen] >= 0 && Fits(Volumes(p.board));
    assert Volumes(p.board)[chosen] == Min(board[chosen].volume + amount, I64_MAX);
  }

  predicate FitsAfter(w: World, step: Step) {
    StakesFit(Apply(w, step))
  }

  lemma PriceBetKeepsFit(w: World, request: RequestId, bet: BetId)
    requires Sound(w.db) && StakesFit(w)
    ensures FitsAfter(w, PriceBet(request, bet))
  {
    if request in w.placing && w.placing[request].Admitted? {
      var a := w.placing[request];
      if HasBoard(w.db, a.market) {
        var r := BuildPlacement(w.db, bet, a.user, a.market, a.outcome, a.amount);
        if r.Ok? && PricingFits(r.value) {
          PricedStakeFits(w.db, bet, a.user, a.market, a.outcome, a.amount);
        }
      }
    }
  }

  lemma CommitSettleKeepsFit(w: World, request: RequestId)
    requires StakesFit(w)
    ensures FitsAfter(w, CommitSettle(request))
  {
    if request in w.resolving && w.resolving[request].Loaded? {
      var r := w.resolving[request];
      var closed := CloseMarket(w.db, r.market, ResolvedRow(r.winner));
      SettlePaysEachUserTheirPayouts(closed, r.settled);
    }
  }

  lemma OtherStepsKeepFit(w: World, step: Step)
    requires StakesFit(w) && !step.PriceBet? && !step.CommitSettle?
    ensures FitsAfter(w, step)
  {
  }

  lemma {:induction false} StakesFitInEveryRun(steps: seq<Step>)
    ensures StakesFit(Run(steps))
  {
    if |steps| > 0 {
      var w, step := Run(steps[..|steps| - 1]), steps[|steps| - 1];
      StakesFitInEveryRun(steps[..|steps| - 1]);
      RunsKeepInv(steps[..|steps| - 1]);
      match step
      case PriceBet(request, bet) => PriceBetKeepsFit(w, request, bet);
      case CommitSettle(request) => CommitSettleKeepsFit(w, request);
      case _ => OtherStepsKeepFit(w, step);
    }
  }

  // The largest whole number not above stake / price was paid, and no less than the stake.
  predicate PaidItsFloor(b: Bet) {
    b.payout.Some? && b.payout.value >= b.amount &&
    b.payout.value * b.price <= b.amount * SCALE < (b.payout.value + 1) * b.price
  }

  lemma WonBetIsPaidItsFloor(users: map<UserId, int>, markets: map<MarketId, Market>, b: Bet)
    requires BetOk(users, markets, b) && StakeFits(b) && b.status == Won
    ensures PaidItsFloor(b)
  {
    FittingPayout(b.amount, b.price);
  }

  lemma WonBetsOf(w: World, i: nat)
    requires BetsOk(w.db.users, w.db.markets, w.db.bets) && StakesFit(w)
    requires i < |w.db.bets| && w.db.bets[i].status == Won
    ensures PaidItsFloor(w.db.bets[i])
  {
    assert BetOk(w.db.users, w.db.markets, w.db.bets[i]);
    WonBetIsPaidItsFloor(w.db.users, w.db.markets, w.db.bets[i]);
  }

  lemma BetsAreOkInEveryRun(steps: seq<Step>)
    ensures BetsOk(Run(steps).db.users, Run(steps).db.markets, Run(steps).db.bets)
  {
    RunsKeepInv(steps);
  }

  /**
   * In every run a won bet is paid stake / price rounded down, which is at least its stake:
   * saturation is never reached, because no stake that large can be priced.
   */
  lemma WonBetsPayTheirFloor(steps: seq<Step>, i: nat)
    requires i < |Run(steps).db.bets| && Run(steps).db.bets[i].status == Won
    ensures PaidItsFloor(Run(steps).db.bets[i])
  {
    BetsAreOkInEveryRun(steps);
    StakesFitInEveryRun(steps);
    WonBetsOf(Run(steps), i);
  }

  // ----- the event log agrees with the book -----

  function EventsOf(bets: seq<Bet>): seq<Event> {
    if |bets| == 0 then []
    else EventsOf(bets[..|bets| - 1]) +
         [BetPlaced(bets[|bets| - 1].id), MarketPricesUpdated(bets[|bets| - 1].market)]
  }

  lemma {:induction false} EventsOfSameTerms(bets: seq<Bet>, others: seq<Bet>)
    requires |bets| == |others|
    requires forall i :: 0 <= i < |bets| ==> others[i].id == bets[i].id && others[i].market == bets[i].market
    ensures EventsOf(others) == EventsOf(bets)
  {
    if |bets| > 0 {
      EventsOfSameTerms(bets[..|bets| - 1], others[..|others| - 1]);
    }
  }

  predicate LogFollowsBook(db: Db) {
    db.events == EventsOf(db.bets)
  }

  lemma PlacementIsLogged(db: Db, bet: Bet, board: seq<Outcome>, points: seq<PricePoint>)
    requires bet.user in db.users && bet.market in db.markets && LogFollowsBook(db)
    ensures LogFollowsBook(Placed(db, bet, board, points))
  {
    assert (db.bets + [bet])[..|db.bets|] == db.bets;
  }

  lemma SettlingLogsNothing(db: Db, m: MarketId, row: Market, settled: seq<Bet>)
    requires LogFollowsBook(db)
    ensures LogFollowsBook(SettleTx(db, m, row, settled))
  {
    var closed := CloseMarket(db, m, row);
    SettleRowsMarkets(closed, settled);
    SettlePaysEachUserTheirPayouts(closed, settled);
    EventsOfSameTerms(closed.bets, SettleRows(closed, settled).bets);
  }

  lemma StepIsLogged(w: World, step: Step)
    requires LogFollowsBook(w.db)
    ensures LogFollowsBook(Apply(w, step).db)
  {
    match step
    case CommitPlace(request) =>
      if request in w.placing && w.placing[request].Ready? {
        var p := w.placing[request].placement;
        if PlaceTx(w.db, p.bet, p.board, PointsOf(p.board)).Ok? {
          PlacementIsLogged(w.db, p.bet, p.board, PointsOf(p.board));
        }
      }
    case CommitSettle(request) =>
      if request in w.resolving && w.resolving[request].Loaded? {
        var r := w.resolving[request];
        SettlingLogsNothing(w.db, r.market, ResolvedRow(r.winner), r.settled);
      }
    case _ =>
  }

  /** The bet and price events are one of each per committed bet, in commit order, and no others. */
  lemma {:induction false} EventsMirrorBook(steps: seq<Step>)
    ensures Run(steps).db.events == EventsOf(Run(steps).db.bets)
  {
    if |steps| > 0 {
      EventsMirrorBook(steps[..|steps| - 1]);
      StepIsLogged(Run(steps[..|steps| - 1]), steps[|steps| - 1]);
    }
  }

  // ----- the price history -----

  // One point per outcome of m, in creation order, with the price stored afterwards.
  predicate Records(before: Db, after: Db, m: MarketId) {
    HasBoard(after, m) &&
    var ids := after.markets[m].board;
    after.points == before.points + seq(|ids|, i requires 0 <= i < |ids| => PricePoint(ids[i], after.outcomes[ids[i]].price))
  }

  predicate PointsFollow(before: Db, after: Db, step: Step) {
    if |after.bets| > |before.bets| then Records(before, after, after.bets[|after.bets| - 1].market)
    else if step.CreateMarket? && step.market !in before.markets && step.market in after.markets
    then Records(before, after, step.market)
    else after.points == before.points
  }

  lemma PlacementIsRecorded(db: Db, p: Placement)
    requires BoardsOk(db.markets, db.outcomes) && PlacementOk(db, p) && p.bet.user in db.users
    ensures Records(db, Placed(db, p.bet, p.board, PointsOf(p.board)), p.bet.market)
  {
    var m, ids := p.bet.market, db.markets[p.bet.market].board;
    var after := Placed(db, p.bet, p.board, PointsOf(p.board));
    assert BoardOk(db.outcomes, m, ids);
    BoardIds(db.outcomes, m, ids);
    WriteBoardWrote(db.outcomes, m, ids, p.board, p.bet);
    WrittenPrices(db.outcomes, after.outcomes, ids, p.board, p.bet);
    forall i | 0 <= i < |ids| ensures PointsOf(p.board)[i] == PricePoint(ids[i], after.outcomes[ids[i]].price) {
      assert IdsOf(p.board)[i] == ids[i] && PricesOn(p.board)[i] == PricesOn(Board(ids, after.outcomes))[i];
    }
  }

  predicate IsRecorded(w: World, step: Step) {
    PointsFollow(w.db, Apply(w, step).db, step)
  }

  lemma CommitPlaceIsRecorded(w: World, request: RequestId)
    requires BoardsOk(w.db.markets, w.db.outcomes) && PlacingOk(w.db, w.placing)
    ensures IsRecorded(w, CommitPlace(request))
  {
    if request in w.placing && w.placing[request].Ready? {
      var p := w.placing[request].placement;
      assert InFlightOk(w.db, w.placing[request]);
      if PlaceTx(w.db, p.bet, p.board, PointsOf(p.board)).Ok? {
        PlacementIsRecorded(w.db, p);
      }
    }
  }

  lemma CreateMarketIsRecorded(w: World, m: MarketId, ids: seq<OutcomeId>, closesAt: Option<Time>)
    ensures IsRecorded(w, CreateMarket(m, ids, closesAt))
  {
    if CanOpen(w.db, m, ids) {
      OpenMarketOpens(w.db, m, ids, closesAt);
    }
  }

  lemma CommitSettleIsRecorded(w: World, request: RequestId)
    ensures IsRecorded(w, CommitSettle(request))
  {
    if request in w.resolving && w.resolving[request].Loaded? {
      var r := w.resolving[request];
      var closed := CloseMarket(w.db, r.market, ResolvedRow(r.winner));
      SettleRowsMarkets(closed, r.settled);
      SettlePaysEachUserTheirPayouts(closed, r.settled);
    }
  }

  lemma OtherStepsRecordNothing(w: World, step: Step)
    requires !step.CommitPlace? && !step.CreateMarket? && !step.CommitSettle?
    ensures IsRecorded(w, step)
  {
  }

  /**
   * In any run a committed bet or a new market adds one price point per outcome of its market, with
   * the price stored, and no other step adds any.
   */
  lemma EveryPriceIsRecorded(steps: seq<Step>, step: Step)
    ensures PointsFollow(Run(steps).db, Run(steps + [step]).db, step)
  {
    RunThen(steps, step);
    RunsKeepInv(steps);
    match step
    case CommitPlace(request) => CommitPlaceIsRecorded(Run(steps), request);
    case CreateMarket(m, ids, closesAt) => CreateMarketIsRecorded(Run(steps), m, ids, closesAt);
    case CommitSettle(request) => CommitSettleIsRecorded(Run(steps), request);
    case _ => OtherStepsRecordNothing(Run(steps), step);
  }

  // ----- who hears of a changed balance -----

  // u was told of a change exactly once if there was one, and not otherwise.
  predicate ToldOnce(before: Db, after: Db, u: UserId)
    requires u in before.users
  {
    u in after.users && after.notices[u] == before.notices[u] + (if after.users[u] != before.users[u] then 1 else 0)
  }

  lemma SettleTellsOnce(db: Db, m: MarketId, winner: OutcomeId, settled: seq<Bet>, u: UserId)
    requires BetsOk(db.users, db.markets, db.bets) && SettlesRows(db.bets, settled, m, winner) && u in db.users
    ensures ToldOnce(db, SettleTx(db, m, ResolvedRow(winner), settled), u)
  {
    var closed := CloseMarket(db, m, ResolvedRow(winner));
    SettlePaysEachUserTheirPayouts(closed, settled);
    assert u in closed.users.Keys;
    forall i | 0 <= i < |settled| && settled[i].payout.Some? ensures settled[i].payout.value > 0 {
      assert SettlesSome(db.bets, settled[i], m, winner);
      var k: nat :| Settles(db.bets, k, settled[i], m, winner);
      assert BetOk(db.users, db.markets, db.bets[k]);
      PayoutNotNegative(settled[i].amount, settled[i].price);
    }
    PaidSomethingIff(settled, u);
  }

  lemma PaidSomethingIff(settled: seq<Bet>, u: UserId)
    requires forall i :: 0 <= i < |settled| && settled[i].payout.Some? ==> settled[i].payout.value > 0
    ensures SumBy(settled, PaidTo(u)) >= 0
    ensures SumBy(settled, PaidTo(u)) != 0 <==> u in PaidUsers(settled)
  {
    NothingPaidIff(settled, u);
    SumNonNegative(settled, PaidTo(u));
  }

  lemma PlaceTellsOnce(db: Db, bet: Bet, board: seq<Outcome>, points: seq<PricePoint>, u: UserId)
    requires PlaceTx(db, bet, board, points).Ok? && bet.amount > 0 && u in db.users
    ensures ToldOnce(db, PlaceTx(db, bet, board, points).value, u)
  {
  }

  lemma CommitPlaceTellsOnce(w: World, request: RequestId, u: UserId)
    requires PlacingOk(w.db, w.placing) && u in w.db.users
    ensures ToldOnce(w.db, Apply(w, CommitPlace(request)).db, u)
  {
    if request in w.placing && w.placing[request].Ready? {
      var p := w.placing[request].placement;
      assert InFlightOk(w.db, w.placing[request]);
      if PlaceTx(w.db, p.bet, p.board, PointsOf(p.board)).Ok? {
        PlaceTellsOnce(w.db, p.bet, p.board, PointsOf(p.board), u);
      }
    }
  }

  lemma CommitSettleTellsOnce(w: World, request: RequestId, u: UserId)
    requires BetsOk(w.db.users, w.db.markets, w.db.bets) && ResolvingOk(w.db, w.resolving) && u in w.db.users
    ensures ToldOnce(w.db, Apply(w, CommitSettle(request)).db, u)
  {
    if request in w.resolving && w.resolving[request].Loaded? {
      var r := w.resolving[request];
      assert ResolutionOk(w.db, r);
      SettleTellsOnce(w.db, r.market, r.winner, r.settled, u);
    }
  }

  lemma OtherStepsTellNothing(w: World, step: Step, u: UserId)
    requires !step.CommitPlace? && !step.CommitSettle? && u in w.db.users
    ensures ToldOnce(w.db, Apply(w, step).db, u)
  {
  }

  /** In any run a step that changes a user's balance tells of it once, and no other step tells of it. */
  lemma BalanceChangesAreToldOnce(steps: seq<Step>, step: Step, u: UserId)
    requires u in Run(steps).db.users
    ensures ToldOnce(Run(steps).db, Run(steps + [step]).db, u)
  {
    RunThen(steps, step);
    RunsKeepInv(steps);
    match step
    case CommitPlace(request) => CommitPlaceTellsOnce(Run(steps), request, u);
    case CommitSettle(request) => CommitSettleTellsOnce(Run(steps), request, u);
    case _ => OtherStepsTellNothing(Run(steps), step, u);
  }
}
