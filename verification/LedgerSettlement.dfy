/** Exactly when no bet is left open on a resolved market, and runs in which none ever is. */
module LedgerSettlement {
  import opened Base
  import opened Pricing
  import opened Bets
  import opened Ledger
  import opened LedgerKeeps
  import opened LedgerRuns
  import opened LedgerScenes
  import opened LedgerAccounts
  import opened Throughout

  // Every bet open on m now is in the list loaded earlier.
  predicate Covers(bets: seq<Bet>, settled: seq<Bet>, m: MarketId) {
    forall i :: 0 <= i < |bets| && bets[i].market == m && bets[i].status == Active ==> Named(settled, bets[i].id)
  }

  predicate NoneOpen(bets: seq<Bet>, m: MarketId) {
    forall i :: 0 <= i < |bets| && bets[i].market == m ==> bets[i].status != Active
  }

  /**
   * After `settle` no bet on the market is open if and only if every bet open at that moment was
   * already there when the open bets were loaded.
   */
  lemma SettleDecidesMarketIff(db: Db, m: MarketId, row: Market, settled: seq<Bet>, winner: OutcomeId)
    requires DistinctIds(db.bets) && SettlesRows(db.bets, settled, m, winner)
    ensures |SettleTx(db, m, row, settled).bets| == |db.bets|
    ensures NoneOpen(SettleTx(db, m, row, settled).bets, m) <==> Covers(db.bets, settled, m)
  {
    var closed := CloseMarket(db, m, row);
    var after := SettleRows(closed, settled).bets;
    SettlePaysEachUserTheirPayouts(closed, settled);
    forall i: nat | i < |db.bets|
      ensures after[i].market == db.bets[i].market
      ensures after[i].status == Active <==> db.bets[i].status == Active && !Named(settled, db.bets[i].id)
    {
      RowAfterSettle(closed, settled, m, winner, i);
    }
  }

  // ----- exactly which steps leave every bet of a resolved market decided -----

  predicate Decided(db: Db, b: Bet) {
    b.market in db.markets && db.markets[b.market].status == Resolved ==> b.status != Active
  }

  predicate AllDecided(db: Db) {
    forall i :: 0 <= i < |db.bets| ==> Decided(db, db.bets[i])
  }

  /** A commit leaves an open bet on a resolved market exactly when the market was resolved by then. */
  lemma PlaceKeepsDecidedIff(db: Db, bet: Bet, board: seq<Outcome>, points: seq<PricePoint>)
    requires AllDecided(db) && bet.status == Active && PlaceTx(db, bet, board, points).Ok?
    ensures AllDecided(PlaceTx(db, bet, board, points).value) <==> db.markets[bet.market].status != Resolved
  {
    var db' := PlaceTx(db, bet, board, points).value;
    assert db'.bets[|db.bets|] == bet;
    forall i | 0 <= i < |db.bets| ensures Decided(db', db'.bets[i]) {
      assert Decided(db, db.bets[i]);
    }
  }

  lemma SettleKeepsDecidedIff(db: Db, m: MarketId, winner: OutcomeId, settled: seq<Bet>)
    requires AllDecided(db) && DistinctIds(db.bets) && SettlesRows(db.bets, settled, m, winner) && m in db.markets
    ensures AllDecided(SettleTx(db, m, ResolvedRow(winner), settled)) <==> Covers(db.bets, settled, m)
  {
    var db', closed := SettleTx(db, m, ResolvedRow(winner), settled), CloseMarket(db, m, ResolvedRow(winner));
    SettleDecidesMarketIff(db, m, ResolvedRow(winner), settled, winner);
    SettleRowsMarkets(closed, settled);
    forall i: nat | i < |db'.bets|
      ensures Decided(db', db'.bets[i]) || db'.bets[i].market == m
      ensures db'.bets[i].market == m ==> (Decided(db', db'.bets[i]) <==> db'.bets[i].status != Active)
    {
      RowAfterSettle(closed, settled, m, winner, i);
      assert Decided(db, db.bets[i]);
    }
    assert AllDecided(db') <==> NoneOpen(db'.bets, m);
  }

  // A bet commits while its market is unresolved; a resolution commits what is then open.
  predicate Timely(w: World, step: Step) {
    match step
    case CommitPlace(request) =>
      request in w.placing && w.placing[request].Ready? ==>
        var p := w.placing[request].placement;
        PlaceTx(w.db, p.bet, p.board, PointsOf(p.board)).Ok? ==> w.db.markets[p.bet.market].status != Resolved
    case CommitSettle(request) =>
      request in w.resolving && w.resolving[request].Loaded? ==>
        Covers(w.db.bets, w.resolving[request].settled, w.resolving[request].market)
    case _ => true
  }

  predicate DecidedAfter(w: World, step: Step) {
    AllDecided(Apply(w, step).db)
  }

  lemma CommitPlaceDecidesIff(w: World, request: RequestId)
    requires PlacingOk(w.db, w.placing) && AllDecided(w.db)
    ensures DecidedAfter(w, CommitPlace(request)) <==> Timely(w, CommitPlace(request))
  {
    if request in w.placing && w.placing[request].Ready? {
      var p := w.placing[request].placement;
      assert InFlightOk(w.db, w.placing[request]);
      if PlaceTx(w.db, p.bet, p.board, PointsOf(p.board)).Ok? {
        PlaceKeepsDecidedIff(w.db, p.bet, p.board, PointsOf(p.board));
      }
    }
  }

  lemma CommitSettleDecidesIff(w: World, request: RequestId)
    requires DistinctIds(w.db.bets) && ResolvingOk(w.db, w.resolving) && AllDecided(w.db)
    ensures DecidedAfter(w, CommitSettle(request)) <==> Timely(w, CommitSettle(request))
  {
    if request in w.resolving && w.resolving[request].Loaded? {
      var r := w.resolving[request];
      assert ResolutionOk(w.db, r);
      SettleKeepsDecidedIff(w.db, r.market, r.winner, r.settled);
    }
  }

  lemma OtherStepsKeepDecided(w: World, step: Step)
    requires AllDecided(w.db) && !step.CommitPlace? && !step.CommitSettle?
    ensures DecidedAfter(w, step)
  {
    var after := Apply(w, step).db;
    assert after.bets == w.db.bets;
    forall i | 0 <= i < |after.bets| ensures Decided(after, after.bets[i]) {
      assert Decided(w.db, w.db.bets[i]);
    }
  }

  lemma StepDecidesIff(w: World, step: Step)
    requires Inv(w) && AllDecided(w.db)
    ensures DecidedAfter(w, step) <==> Timely(w, step)
  {
    match step
    case CommitPlace(request) => CommitPlaceDecidesIff(w, request);
    case CommitSettle(request) => CommitSettleDecidesIff(w, request);
    case _ => OtherStepsKeepDecided(w, step);
  }

  // After i steps no bet on a resolved market is open; step i is timely.
  predicate DecidedAt(steps: seq<Step>, i: nat) {
    i <= |steps| ==> AllDecided(Run(steps[..i]).db)
  }

  predicate TimelyAt(steps: seq<Step>, i: nat) {
    i < |steps| ==> Timely(Run(steps[..i]), steps[i])
  }

  lemma DecidedNextIff(steps: seq<Step>, i: nat)
    requires i < |steps| && DecidedAt(steps, i)
    ensures DecidedAt(steps, i + 1) <==> TimelyAt(steps, i)
  {
    RunStep(steps, i);
    RunsKeepInv(steps[..i]);
    StepDecidesIff(Run(steps[..i]), steps[i]);
  }

  /**
   * No bet on a resolved market is open in any state of a run if and only if no bet of the run
   * commits on a resolved market and every resolution commits all that is open by then.
   */
  lemma DecidedThroughoutIff(steps: seq<Step>)
    ensures (forall i: nat :: i <= |steps| ==> DecidedAt(steps, i)) <==>
            (forall i: nat :: i < |steps| ==> TimelyAt(steps, i))
  {
    var p, q := (i: nat) => DecidedAt(steps, i), (i: nat) => TimelyAt(steps, i);
    assert steps[..0] == [];
    forall i: nat | i < |steps| && p(i) ensures p(i + 1) <==> q(i) {
      DecidedNextIff(steps, i);
    }
    HoldsThroughoutIff(p, q, |steps|);
    assert forall i: nat :: p(i) == DecidedAt(steps, i) && q(i) == TimelyAt(steps, i);
  }

  // ----- runs in which placements and resolutions of one market take turns -----

  function MarketOf(f: InFlight): MarketId {
    match f
    case Admitted(_, market, _, _) => market
    case Ready(p) => p.bet.market
  }

  predicate BeingResolved(w: World, m: MarketId) {
    exists q :: q in w.resolving && w.resolving[q].market == m
  }

  predicate TakesTurns(w: World, step: Step) {
    match step
    case BeginPlace(_, _, outcome, _, _) =>
      outcome in w.db.outcomes ==> !BeingResolved(w, w.db.outcomes[outcome].market)
    case BeginResolve(_, market, _) => forall q :: q in w.placing ==> MarketOf(w.placing[q]) != market
    case _ => true
  }

  predicate AllTakeTurns(steps: seq<Step>) {
    forall i :: 0 <= i < |steps| ==> TakesTurns(Run(steps[..i]), steps[i])
  }

  predicate Waiting(w: World, f: InFlight) {
    MarketOf(f) in w.db.markets && w.db.markets[MarketOf(f)].status != Resolved && !BeingResolved(w, MarketOf(f))
  }

  predicate Complete(db: Db, r: Resolution) {
    r.Loaded? ==> Covers(db.bets, r.settled, r.market)
  }

  predicate Turns(w: World) {
    (forall q :: q in w.placing ==> Waiting(w, w.placing[q])) &&
    (forall q :: q in w.resolving ==> Complete(w.db, w.resolving[q]))
  }

  lemma TurnsAreTimely(w: World, step: Step)
    requires Turns(w)
    ensures Timely(w, step)
  {
    match step
    case CommitPlace(request) =>
      assert request in w.placing ==> Waiting(w, w.placing[request]);
    case CommitSettle(request) =>
      assert request in w.resolving ==> Complete(w.db, w.resolving[request]);
    case _ =>
  }

  lemma LoadedBetsCover(db: Db, m: MarketId, winner: OutcomeId)
    requires forall b :: b in ActiveIn(db.bets, m) ==> b.price > 0
    ensures Covers(db.bets, SettleEach(ActiveIn(db.bets, m), winner), m)
  {
    var open := ActiveIn(db.bets, m);
    var settled := SettleEach(open, winner);
    forall i | 0 <= i < |db.bets| && db.bets[i].market == m && db.bets[i].status == Active
      ensures Named(settled, db.bets[i].id)
    {
      assert db.bets[i] in db.bets && IsActiveIn(m)(db.bets[i]);
      assert db.bets[i] in open;
      var j :| 0 <= j < |open| && open[j] == db.bets[i];
      assert settled[j].id == db.bets[i].id;
    }
  }

  predicate TurnsAfter(w: World, step: Step) {
    Turns(Apply(w, step))
  }

  // A resolution in flight on the bet's market would break Waiting, so every list still covers.
  lemma PlacedKeepsTurns(w: World, request: RequestId, bet: Bet, board: seq<Outcome>, points: seq<PricePoint>)
    requires Turns(w) && PlaceTx(w.db, bet, board, points).Ok? && !BeingResolved(w, bet.market)
    ensures Turns(w.(db := PlaceTx(w.db, bet, board, points).value, placing := w.placing - {request}))
  {
    var w' := w.(db := PlaceTx(w.db, bet, board, points).value, placing := w.placing - {request});
    forall q | q in w'.placing ensures Waiting(w', w'.placing[q]) {
      assert Waiting(w, w.placing[q]);
    }
    forall q | q in w'.resolving ensures Complete(w'.db, w'.resolving[q]) {
      assert Complete(w.db, w.resolving[q]);
    }
  }

  lemma CommitPlaceKeepsTurns(w: World, request: RequestId)
    requires Turns(w)
    ensures TurnsAfter(w, CommitPlace(request))
  {
    if request in w.placing && w.placing[request].Ready? {
      var p := w.placing[request].placement;
      assert Waiting(w, w.placing[request]);
      if PlaceTx(w.db, p.bet, p.board, PointsOf(p.board)).Ok? {
        PlacedKeepsTurns(w, request, p.bet, p.board, PointsOf(p.board));
      }
    }
  }

  lemma SettleKeepsCovers(db: Db, m: MarketId, winner: OutcomeId, settled: seq<Bet>, k: MarketId, list: seq<Bet>)
    requires DistinctIds(db.bets) && SettlesRows(db.bets, settled, m, winner) && Covers(db.bets, list, k)
    ensures Covers(SettleTx(db, m, ResolvedRow(winner), settled).bets, list, k)
  {
    var closed := CloseMarket(db, m, ResolvedRow(winner));
    SettlePaysEachUserTheirPayouts(closed, settled);
    forall i: nat | i < |db.bets|
      ensures var after := SettleRows(closed, settled).bets[i];
              after.status == Active ==> after == db.bets[i]
    {
      RowAfterSettle(closed, settled, m, winner, i);
    }
  }

  lemma CommitSettleKeepsTurns(w: World, request: RequestId)
    requires Turns(w) && DistinctIds(w.db.bets) && ResolvingOk(w.db, w.resolving)
    ensures TurnsAfter(w, CommitSettle(request))
  {
    if request in w.resolving && w.resolving[request].Loaded? {
      var r, w' := w.resolving[request], Apply(w, CommitSettle(request));
      assert ResolutionOk(w.db, r);
      SettleRowsMarkets(CloseMarket(w.db, r.market, ResolvedRow(r.winner)), r.settled);
      forall q | q in w'.placing ensures Waiting(w', w'.placing[q]) {
        assert Waiting(w, w.placing[q]);
      }
      forall q | q in w'.resolving ensures Complete(w'.db, w'.resolving[q]) {
        assert Complete(w.db, w.resolving[q]);
        if w.resolving[q].Loaded? {
          SettleKeepsCovers(w.db, r.market, r.winner, r.settled, w.resolving[q].market, w.resolving[q].settled);
        }
      }
    }
  }

  lemma LoadBetsKeepsTurns(w: World, request: RequestId)
    requires BetsOk(w.db.users, w.db.markets, w.db.bets) && Turns(w)
    ensures TurnsAfter(w, LoadBets(request))
  {
    if request in w.resolving && w.resolving[request].Checked? {
      var r, w' := w.resolving[request], Apply(w, LoadBets(request));
      LoadedBetsAreOpen(w.db, r.market, r.winner);
      LoadedBetsCover(w.db, r.market, r.winner);
      forall q | q in w'.placing ensures Waiting(w', w'.placing[q]) {
        assert Waiting(w, w.placing[q]);
        assert forall x :: x in w'.resolving ==> x in w.resolving && w'.resolving[x].market == w.resolving[x].market;
      }
    }
  }

  lemma PriceBetKeepsTurns(w: World, request: RequestId, bet: BetId)
    requires Turns(w)
    ensures TurnsAfter(w, PriceBet(request, bet))
  {
    var w' := Apply(w, PriceBet(request, bet));
    forall q | q in w'.placing ensures Waiting(w', w'.placing[q]) {
      assert Waiting(w, w.placing[q]);
    }
  }

  lemma ReadsKeepTurns(w: World, step: Step)
    requires Turns(w) && TakesTurns(w, step)
    requires step.BeginPlace? || step.AbortPlace? || step.BeginResolve? || step.AbortResolve?
    ensures TurnsAfter(w, step)
  {
    var w' := Apply(w, step);
    forall q | q in w'.placing ensures Waiting(w', w'.placing[q]) {
      if q in w.placing {
        assert Waiting(w, w.placing[q]);
      }
    }
  }

  lemma CreatesKeepTurns(w: World, step: Step)
    requires Turns(w) && (step.Register? || step.CreateMarket?)
    ensures TurnsAfter(w, step)
  {
    var w' := Apply(w, step);
    assert w'.db.bets == w.db.bets && w'.resolving == w.resolving;
    forall q | q in w'.placing ensures Waiting(w', w'.placing[q]) {
      assert Waiting(w, w.placing[q]);
    }
    forall q | q in w'.resolving ensures Complete(w'.db, w'.resolving[q]) {
      assert Complete(w.db, w.resolving[q]);
    }
  }

  lemma StepKeepsTurns(w: World, step: Step)
    requires Inv(w) && Turns(w) && TakesTurns(w, step)
    ensures TurnsAfter(w, step)
  {
    match step
    case Register(_) => CreatesKeepTurns(w, step);
    case CreateMarket(_, _, _) => CreatesKeepTurns(w, step);
    case PriceBet(request, bet) => PriceBetKeepsTurns(w, request, bet);
    case CommitPlace(request) => CommitPlaceKeepsTurns(w, request);
    case LoadBets(request) => LoadBetsKeepsTurns(w, request);
    case CommitSettle(request) => CommitSettleKeepsTurns(w, request);
    case _ => ReadsKeepTurns(w, step);
  }

  lemma TurnsPrefix(steps: seq<Step>, n: nat)
    requires AllTakeTurns(steps) && n <= |steps|
    ensures AllTakeTurns(steps[..n])
  {
    assert forall i :: 0 <= i < n ==> steps[..n][..i] == steps[..i];
  }

  lemma {:induction false} RunsKeepTurns(steps: seq<Step>)
    requires AllTakeTurns(steps)
    ensures Turns(Run(steps))
  {
    if |steps| > 0 {
      var n := |steps| - 1;
      TurnsPrefix(steps, n);
      RunsKeepTurns(steps[..n]);
      RunsKeepInv(steps[..n]);
      StepKeepsTurns(Run(steps[..n]), steps[n]);
    }
  }

  lemma TurnsKeepDecided(steps: seq<Step>)
    requires AllTakeTurns(steps)
    ensures AllDecided(Run(steps).db)
  {
    forall i: nat | i < |steps| ensures TimelyAt(steps, i) {
      TurnsPrefix(steps, i);
      RunsKeepTurns(steps[..i]);
      TurnsAreTimely(Run(steps[..i]), steps[i]);
    }
    DecidedThroughoutIff(steps);
    assert DecidedAt(steps, |steps|) && steps[..|steps|] == steps;
  }

  /**
   * If neither placements nor other resolutions overlap a resolution of their market, every bet on a
   * resolved market is won or lost, by its outcome.
   */
  lemma ResolvedMarketsAreFullySettled(steps: seq<Step>, i: nat)
    requires AllTakeTurns(steps) && AllApart(steps) && i < |Run(steps).db.bets|
    ensures var db := Run(steps).db; var b := db.bets[i];
            b.market in db.markets &&
            (db.markets[b.market].status == Resolved ==>
              b.status == (if db.markets[b.market].winner == Some(b.outcome) then Won else Lost))
  {
    TurnsKeepDecided(steps);
    LifecycleInEveryRun(steps, i);
    assert Decided(Run(steps).db, Run(steps).db.bets[i]);
  }

  // ----- a bet that straddles a resolution -----

  // The bet is priced, its market is resolved, and then the bet commits.
  function Straddling(): seq<Step> {
    Opening() + [BeginPlace(0, 0, 0, 100, 0)] + [PriceBet(0, 0)] + [BeginResolve(1, 0, 0)] + [LoadBets(1)] +
    [CommitSettle(1)] + [CommitPlace(0)]
  }

  lemma NothingToSettle(w: World)
    requires NothingBet(w) && w.resolving == map[]
    ensures Apply(Apply(Apply(w, BeginResolve(1, 0, 0)), LoadBets(1)), CommitSettle(1)) ==
            w.(db := SettleTx(w.db, 0, ResolvedRow(0), []))
  {
    assert ActiveIn(w.db.bets, 0) == [];
    assert SettleEach([], 0) == [];
    ResolutionLoads(w, 1, 0, 0);
    SettlesNothing(w, Loaded(0, 0, []));
  }

  lemma SettlesNothing(w: World, list: Resolution)
    requires w.resolving == map[] && list == Loaded(0, 0, [])
    ensures Apply(w.(resolving := w.resolving[1 := list]), CommitSettle(1)) ==
            w.(db := SettleTx(w.db, 0, ResolvedRow(0), []))
  {
    assert w.resolving[1 := list] - {1} == map[];
  }

  lemma CommitsAfterwards(w: World, p: Placement)
    requires Inv(w) && w.db.bets == [] && 0 in w.db.users && w.db.users[0] == STARTING_BALANCE
    requires 0 in w.placing && w.placing[0] == Ready(p) && p.bet == Bet(0, 0, 0, 0, 100, p.bet.price, Active, None)
    ensures 0 in w.db.markets && Apply(w, CommitPlace(0)).db == Placed(w.db, p.bet, p.board, PointsOf(p.board))
  {
    assert InFlightOk(w.db, w.placing[0]);
    BetCommits(w, 0, p);
  }

  lemma ClosedOnNothing(db: Db)
    requires 0 in db.markets
    ensures var after := SettleTx(db, 0, ResolvedRow(0), []);
            after.bets == db.bets && after.users == db.users && 0 in after.markets && after.markets[0].status == Resolved
  {
  }

  /** A bet priced before and committed after a resolution of its market stays open on a resolved market. */
  lemma StraddlingBetStaysOpen()
    ensures var db := Run(Straddling()).db;
            |db.bets| == 1 && db.bets[0].status == Active && db.bets[0].market == 0 &&
            0 in db.markets && db.markets[0].status == Resolved
  {
    var priced := Opening() + [BeginPlace(0, 0, 0, 100, 0)] + [PriceBet(0, 0)];
    var resolved := priced + [BeginResolve(1, 0, 0)] + [LoadBets(1)] + [CommitSettle(1)];
    OpeningIsEmpty();
    RunThenTwo(Opening(), BeginPlace(0, 0, 0, 100, 0), PriceBet(0, 0));
    var p := BetIsPriced(Run(Opening()), 0, 0, 0, 100);
    RunsKeepInv(priced);
    NothingToSettle(Run(priced));
    RunThenTwo(priced, BeginResolve(1, 0, 0), LoadBets(1));
    RunThen(priced + [BeginResolve(1, 0, 0)] + [LoadBets(1)], CommitSettle(1));
    ClosedOnNothing(Run(priced).db);
    RunsKeepInv(resolved);
    CommitsAfterwards(Run(resolved), p);
    RunThen(resolved, CommitPlace(0));
    assert Run(Straddling()).db.bets == [] + [p.bet];
  }
}
