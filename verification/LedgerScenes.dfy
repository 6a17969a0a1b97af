/** A small market with one user, and what single requests do to it: the stage for concrete runs. */
module LedgerScenes {
  import opened Base
  import opened Sums
  import opened Pricing
  import opened Bets
  import opened Ledger
  import opened LedgerRuns

  // User 0 with the starting balance, and market 0 with outcomes 0 and 1 and no deadline.
  function Opening(): seq<Step> {
    [] + [Register(0)] + [CreateMarket(0, [0, 1], None)]
  }

  lemma RunThen(steps: seq<Step>, step: Step)
    ensures Run(steps + [step]) == Apply(Run(steps), step)
  {
    assert (steps + [step])[..|steps|] == steps;
  }

  lemma RunThenTwo(steps: seq<Step>, first: Step, second: Step)
    ensures Run(steps + [first] + [second]) == Apply(Apply(Run(steps), first), second)
  {
    RunThen(steps, first);
    RunThen(steps + [first], second);
  }

  // Nothing has been bet on market 0, and user 0 has spent nothing.
  ghost predicate NothingBet(w: World) {
    Inv(w) && w.db.bets == [] && 0 in w.db.users && w.db.users[0] == STARTING_BALANCE &&
    0 in w.db.markets && w.db.markets[0] == Market(Open, None, 0, 0, None, [0, 1])
  }

  lemma OpeningIsEmpty()
    ensures NothingBet(Run(Opening()))
    ensures Run(Opening()).placing == map[] && Run(Opening()).resolving == map[]
  {
    var register: seq<Step> := [] + [Register(0)];
    RunThen([], Register(0));
    RunThen(register, CreateMarket(0, [0, 1], None));
    assert Run(register) == START.(db := EMPTY.(users := map[0 := STARTING_BALANCE]));
    assert CanOpen(Run(register).db, 0, [0, 1]);
    RunsKeepInv(Opening());
  }

  lemma EmptyBoard(db: Db)
    requires Sound(db) && db.bets == [] && 0 in db.markets && db.markets[0].board == [0, 1]
    ensures HasBoard(db, 0) && IdsOf(BoardOf(db, 0)) == [0, 1]
    ensures 0 in db.outcomes && 1 in db.outcomes && db.outcomes[0].market == 0 && db.outcomes[1].market == 0
    ensures Volumes(BoardOf(db, 0)) == [0, 0] && Sum([0, 0]) == 0
  {
    var ids := db.markets[0].board;
    assert BoardOk(db.outcomes, 0, ids);
    BoardIds(db.outcomes, 0, ids);
    assert Lists(db.outcomes, 0, ids[0]) && Lists(db.outcomes, 0, ids[1]);
    assert db.outcomes[0].volume == SumBy(db.bets, StakeOn(0)) && db.outcomes[1].volume == SumBy(db.bets, StakeOn(1));
    SumZero([0, 0], Itself());
  }

  lemma StakedEmptyBoardFits(board: seq<Outcome>, chosen: nat, amount: int)
    requires chosen < |board| == 2 && Volumes(board) == [0, 0] && 0 < amount <= STARTING_BALANCE
    ensures Fits(Volumes(Repriced(WithStake(board, chosen, amount))))
  {
    assert Volumes(board)[chosen] == board[chosen].volume;
    assert Volumes(Repriced(WithStake(board, chosen, amount))) == Staked([0, 0], chosen, amount);
    StakedFacts([0, 0], chosen, amount);
    SumZero([0, 0], Itself());
  }

  lemma EmptyBoardIsPriced(db: Db, bet: BetId, outcome: OutcomeId, amount: int) returns (p: Placement)
    requires Sound(db) && db.bets == [] && 0 in db.markets && db.markets[0].board == [0, 1]
    requires 0 in db.users && 0 < amount <= db.users[0] && amount <= STARTING_BALANCE && outcome in [0, 1]
    ensures HasBoard(db, 0)
    ensures BuildPlacement(db, bet, 0, 0, outcome, amount) == Ok(p) && PlacementOk(db, p) && PricingFits(p)
    ensures p.bet == Bet(bet, 0, 0, outcome, amount, p.bet.price, Active, None)
  {
    EmptyBoard(db);
    assert outcome in IdsOf(BoardOf(db, 0));
    assert Position(IdsOf(BoardOf(db, 0)), outcome).Some?;
    p := BuildPlacement(db, bet, 0, 0, outcome, amount).value;
    PlacementFits(db, bet, 0, 0, outcome, amount);
    BuiltPlacement(db, bet, 0, 0, outcome, amount);
    StakedEmptyBoardFits(BoardOf(db, 0), Position(IdsOf(BoardOf(db, 0)), outcome).value, amount);
  }

  lemma BeginThenPrice(w: World, request: RequestId, bet: BetId, user: UserId, outcome: OutcomeId, amount: int, m: MarketId)
    requires request !in w.placing && Admit(w.db, outcome, 0) == Ok(m)
    requires HasBoard(w.db, m) && BuildPlacement(w.db, bet, user, m, outcome, amount).Ok?
    requires PricingFits(BuildPlacement(w.db, bet, user, m, outcome, amount).value)
    ensures Apply(Apply(w, BeginPlace(request, user, outcome, amount, 0)), PriceBet(request, bet)) ==
            w.(placing := w.placing[request := Ready(BuildPlacement(w.db, bet, user, m, outcome, amount).value)])
  {
    var begun := w.(placing := w.placing[request := Admitted(user, m, outcome, amount)]);
    assert Apply(w, BeginPlace(request, user, outcome, amount, 0)) == begun;
    var ready := Ready(BuildPlacement(w.db, bet, user, m, outcome, amount).value);
    assert w.placing[request := Admitted(user, m, outcome, amount)][request := ready] == w.placing[request := ready];
  }

  // A bet by user 0 on this empty board is admitted and priced.
  lemma BetIsPriced(w: World, request: RequestId, bet: BetId, outcome: OutcomeId, amount: int) returns (p: Placement)
    requires NothingBet(w) && request !in w.placing && outcome in [0, 1] && 0 < amount <= STARTING_BALANCE
    ensures Apply(Apply(w, BeginPlace(request, 0, outcome, amount, 0)), PriceBet(request, bet)) ==
            w.(placing := w.placing[request := Ready(p)])
    ensures BuildPlacement(w.db, bet, 0, 0, outcome, amount) == Ok(p) && PlacementOk(w.db, p)
    ensures p.bet == Bet(bet, 0, 0, outcome, amount, p.bet.price, Active, None)
  {
    EmptyBoard(w.db);
    p := EmptyBoardIsPriced(w.db, bet, outcome, amount);
    BeginThenPrice(w, request, bet, 0, outcome, amount, 0);
  }

  lemma FitsTheTables(db: Db, p: Placement)
    requires BoardsOk(db.markets, db.outcomes) && PlacementOk(db, p)
    requires p.bet.user in db.users && db.users[p.bet.user] >= p.bet.amount
    requires forall i :: 0 <= i < |db.bets| ==> db.bets[i].id != p.bet.id
    ensures PlaceTx(db, p.bet, p.board, PointsOf(p.board)) == Ok(Placed(db, p.bet, p.board, PointsOf(p.board)))
  {
    var ids := db.markets[p.bet.market].board;
    assert BoardOk(db.outcomes, p.bet.market, ids);
    var k :| 0 <= k < |ids| && ids[k] == p.bet.outcome;
    assert Lists(db.outcomes, p.bet.market, ids[k]);
  }

  // A priced bet that the user can still afford, under a fresh id, commits.
  lemma BetCommits(w: World, request: RequestId, p: Placement)
    requires request in w.placing && w.placing[request] == Ready(p)
    requires BoardsOk(w.db.markets, w.db.outcomes) && PlacementOk(w.db, p)
    requires p.bet.user in w.db.users && w.db.users[p.bet.user] >= p.bet.amount
    requires forall i :: 0 <= i < |w.db.bets| ==> w.db.bets[i].id != p.bet.id
    ensures Apply(w, CommitPlace(request)) ==
            w.(db := Placed(w.db, p.bet, p.board, PointsOf(p.board)), placing := w.placing - {request})
  {
    FitsTheTables(w.db, p);
  }

  // A resolution of an open market is checked, and loads its open bets.
  lemma ResolutionLoads(w: World, request: RequestId, m: MarketId, winner: OutcomeId)
    requires BetsOk(w.db.users, w.db.markets, w.db.bets) && request !in w.resolving && m in w.db.markets
    requires w.db.markets[m].status != Resolved && winner in w.db.markets[m].board
    ensures forall b :: b in ActiveIn(w.db.bets, m) ==> b.price > 0
    ensures Apply(Apply(w, BeginResolve(request, m, winner)), LoadBets(request)) ==
            w.(resolving := w.resolving[request := Loaded(m, winner, SettleEach(ActiveIn(w.db.bets, m), winner))])
  {
    LoadedBetsAreOpen(w.db, m, winner);
    var loaded := Loaded(m, winner, SettleEach(ActiveIn(w.db.bets, m), winner));
    assert Apply(w, BeginResolve(request, m, winner)) == w.(resolving := w.resolving[request := Checked(m, winner)]);
    assert w.resolving[request := Checked(m, winner)][request := loaded] == w.resolving[request := loaded];
  }
}
