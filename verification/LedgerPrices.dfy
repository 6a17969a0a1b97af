/** When stored prices are the pricing of stored volumes: exactly which commits keep or make them so. */
module LedgerPrices {
  import opened Base
  import opened Sums
  import opened Pricing
  import opened Bets
  import opened Ledger
  import opened LedgerKeeps
  import opened LedgerRuns
  import opened LedgerScenes
  import opened Throughout

  // ----- prices correct themselves -----

  // The snapshot behind p saw every stake committed so far, and p was priced from it.
  predicate Fresh(db: Db, p: Placement) {
    HasBoard(db, p.bet.market) && |p.board| == |BoardOf(db, p.bet.market)| &&
    PricesOn(p.board) == Prices(Volumes(p.board)) &&
    forall i :: 0 <= i < |p.board| ==>
      p.board[i].volume == BoardOf(db, p.bet.market)[i].volume + StakeFor(p.board[i].id, p.bet)
  }

  predicate PricedRight(db: Db, m: MarketId) {
    HasBoard(db, m) && PricesOn(BoardOf(db, m)) == Prices(Volumes(BoardOf(db, m)))
  }

  /** However wrong a board's prices had become, one placement with a fresh snapshot puts them right. */
  lemma FreshPlacementCorrectsPrices(db: Db, p: Placement)
    requires BoardsOk(db.markets, db.outcomes) && PlacementOk(db, p) && Fresh(db, p) && p.bet.user in db.users
    ensures PricedRight(Placed(db, p.bet, p.board, PointsOf(p.board)), p.bet.market)
  {
    var m, ids := p.bet.market, db.markets[p.bet.market].board;
    var db' := Placed(db, p.bet, p.board, PointsOf(p.board));
    WriteBoardWrote(db.outcomes, m, ids, p.board, p.bet);
    WrittenPrices(db.outcomes, db'.outcomes, ids, p.board, p.bet);
    assert forall i :: 0 <= i < |ids| ==> p.board[i].id == IdsOf(p.board)[i] == ids[i];
    assert Volumes(BoardOf(db', m)) == Volumes(p.board);
  }

  // Two bets priced off the same empty board: the second commit overwrites the first one's move.
  lemma BoardsAfterBoth(db: Db, p: Placement, q: Placement, m: MarketId, a: int, b: int)
    requires Sound(db) && m in db.markets && |db.markets[m].board| == 2
    requires Sum(Volumes(BoardOf(db, m))) == 0 && 0 < a <= I64_MAX && 0 < b <= I64_MAX
    requires BuildPlacement(db, p.bet.id, p.bet.user, m, db.markets[m].board[0], a) == Ok(p)
    requires BuildPlacement(db, q.bet.id, q.bet.user, m, db.markets[m].board[1], b) == Ok(q)
    ensures var ids := db.markets[m].board;
            var both := WriteBoard(WriteBoard(db.outcomes, p.board, p.bet), q.board, q.bet);
            Stored(ids, both) && Volumes(Board(ids, both)) == [a, b] &&
            PricesOn(Board(ids, both)) == [0, SCALE] && Prices([a, b])[0] > 0
  {
    var ids := db.markets[m].board;
    VolumesNotNegative(db, m);
    EmptyBoardPlacement(db, p, m, 0, a);
    EmptyBoardPlacement(db, q, m, 1, b);
    SecondWriteWins(db.outcomes, m, ids, p, q, a, b);
    FirstOutcomeIsPriced(a, b);
  }

  lemma SecondWriteWins(rows: map<OutcomeId, Outcome>, m: MarketId, ids: seq<OutcomeId>,
                        p: Placement, q: Placement, a: int, b: int)
    requires BoardOk(rows, m, ids) && |ids| == 2 && IdsOf(p.board) == ids && IdsOf(q.board) == ids
    requires Stored(ids, rows) && rows[ids[0]].volume == 0 && rows[ids[1]].volume == 0
    requires p.bet.outcome == ids[0] && p.bet.amount == a && q.bet.outcome == ids[1] && q.bet.amount == b
    requires PricesOn(q.board) == [0, SCALE]
    ensures var both := WriteBoard(WriteBoard(rows, p.board, p.bet), q.board, q.bet);
            Stored(ids, both) && Volumes(Board(ids, both)) == [a, b] && PricesOn(Board(ids, both)) == [0, SCALE]
  {
    var first := WriteBoard(rows, p.board, p.bet);
    var both := WriteBoard(first, q.board, q.bet);
    assert Lists(rows, m, ids[0]) && Lists(rows, m, ids[1]) && ids[0] != ids[1];
    WriteBoardWrote(rows, m, ids, p.board, p.bet);
    assert ids[0] in rows.Keys && ids[1] in rows.Keys;
    assert Lists(first, m, ids[0]) && Lists(first, m, ids[1]);
    WriteBoardWrote(first, m, ids, q.board, q.bet);
    WrittenPrices(first, both, ids, q.board, q.bet);
    assert both[ids[0]].volume == a && both[ids[1]].volume == b;
  }

  lemma EmptyBoardPlacement(db: Db, p: Placement, m: MarketId, chosen: nat, amount: int)
    requires BoardsOk(db.markets, db.outcomes)
    requires m in db.markets && |db.markets[m].board| == 2 && chosen < 2
    requires HasBoard(db, m) && NonNegative(Volumes(BoardOf(db, m))) && Sum(Volumes(BoardOf(db, m))) == 0
    requires 0 < amount <= I64_MAX
    requires BuildPlacement(db, p.bet.id, p.bet.user, m, db.markets[m].board[chosen], amount) == Ok(p)
    ensures IdsOf(p.board) == db.markets[m].board
    ensures p.bet.outcome == db.markets[m].board[chosen] && p.bet.amount == amount
    ensures PricesOn(p.board) == if chosen == 0 then [SCALE, 0] else [0, SCALE]
    ensures BoardOf(db, m)[0].volume == 0 && BoardOf(db, m)[1].volume == 0
  {
    var board, ids := BoardOf(db, m), db.markets[m].board;
    var v := Volumes(board);
    assert BoardOk(db.outcomes, m, ids);
    BoardIds(db.outcomes, m, ids);
    ShareInRange(v, 0);
    ShareInRange(v, 1);
    assert v[0] == board[0].volume && v[1] == board[1].volume;
    assert ids[0] != ids[1];
    assert Position(ids, ids[chosen]) == Some(chosen);
    RepricedBoardIsPriced(board, chosen, amount);
    assert p.board == Repriced(WithStake(board, chosen, amount));
    assert Volumes(WithStake(board, chosen, amount)) == Staked(v, chosen, amount);
    FirstStake(v, chosen, amount);
    assert PricesOn(p.board) == Prices(Staked(v, chosen, amount));
  }

  lemma FirstOutcomeIsPriced(a: int, b: int)
    requires a > 0 && b > 0
    ensures Prices([a, b])[0] > 0
  {
    var v := [a, b];
    SumSnoc([], a, Itself());
    SumSnoc([a], b, Itself());
    assert [] + [a] == [a] && [a] + [b] == v;
    RemainderInRange(v);
    if Shares(v)[0] == 0 {
      assert Shares(v) == [0, Shares(v)[1]];
      SumSnoc([], 0, Itself());
      SumSnoc([0], Shares(v)[1], Itself());
      assert [] + [0] == [0] && [0] + [Shares(v)[1]] == Shares(v);
      QuotientIff(b * SCALE, a + b, Shares(v)[1]);
      TimesCancel(Shares(v)[1], SCALE, a + b);
    }
  }

  // ----- runs in which no placement commits between another's pricing and its commit -----

  // Pricing waits while another placement on the same market is priced but not committed.
  predicate Unhurried(w: World, step: Step) {
    step.PriceBet? && step.request in w.placing && w.placing[step.request].Admitted? ==>
      forall q :: q in w.placing && w.placing[q].Ready? ==>
        w.placing[q].placement.bet.market != w.placing[step.request].market
  }

  predicate AllUnhurried(steps: seq<Step>) {
    forall i :: 0 <= i < |steps| ==> Unhurried(Run(steps[..i]), steps[i])
  }

  predicate BoardsRight(db: Db) {
    forall m :: m in db.markets ==> PricedRight(db, m)
  }

  predicate AllFresh(db: Db, placing: map<RequestId, InFlight>) {
    forall q :: q in placing && placing[q].Ready? ==> Fresh(db, placing[q].placement)
  }

  predicate OneReadyEach(placing: map<RequestId, InFlight>) {
    forall q, r :: q in placing && r in placing && q != r && placing[q].Ready? && placing[r].Ready? ==>
      placing[q].placement.bet.market != placing[r].placement.bet.market
  }

  predicate InStep(w: World) {
    BoardsRight(w.db) && AllFresh(w.db, w.placing) && OneReadyEach(w.placing)
  }

  lemma BuiltPlacementIsFresh(db: Db, id: BetId, user: UserId, m: MarketId, outcome: OutcomeId, amount: int)
    requires Sound(db) && HasBoard(db, m) && BuildPlacement(db, id, user, m, outcome, amount).Ok?
    requires PricingFits(BuildPlacement(db, id, user, m, outcome, amount).value)
    ensures Fresh(db, BuildPlacement(db, id, user, m, outcome, amount).value)
    ensures BuildPlacement(db, id, user, m, outcome, amount).value.bet.market == m
  {
    var board, ids := BoardOf(db, m), db.markets[m].board;
    assert BoardOk(db.outcomes, m, ids);
    BoardIds(db.outcomes, m, ids);
    BuiltPlacement(db, id, user, m, outcome, amount);
    var chosen := Position(ids, outcome).value;
    var p := BuildPlacement(db, id, user, m, outcome, amount).value;
    var staked := WithStake(board, chosen, amount);
    assert Volumes(p.board) == Volumes(staked);
    assert PricesOn(p.board) == Prices(Volumes(staked));
    assert Volumes(p.board)[chosen] == staked[chosen].volume && Fits(Volumes(p.board));
    forall i | 0 <= i < |ids|
      ensures p.board[i].volume == board[i].volume + StakeFor(p.board[i].id, p.bet)
    {
      assert IdsOf(board)[i] == ids[i] && p.board[i].id == ids[i];
    }
  }

  // A commit on one market leaves the boards of the others as they were.
  lemma OtherBoardsKept(db: Db, p: Placement, k: MarketId)
    requires Sound(db) && PlacementOk(db, p) && k in db.markets && k != p.bet.market && p.bet.user in db.users
    ensures var db' := Placed(db, p.bet, p.board, PointsOf(p.board));
            HasBoard(db, k) && HasBoard(db', k) && BoardOf(db', k) == BoardOf(db, k)
  {
    var ids := db.markets[p.bet.market].board;
    assert BoardOk(db.outcomes, p.bet.market, ids);
    WriteBoardWrote(db.outcomes, p.bet.market, ids, p.board, p.bet);
    BoardsDisjoint(db.markets, db.outcomes, p.bet.market, k);
    OtherBoardsUntouched(db.outcomes, WriteBoard(db.outcomes, p.board, p.bet), ids, p.board, p.bet, db.markets[k].board);
  }

  lemma CommitLeavesPricesRight(db: Db, p: Placement, k: MarketId)
    requires Sound(db) && PlacementOk(db, p) && Fresh(db, p) && p.bet.user in db.users
    requires k in db.markets && PricedRight(db, k)
    ensures PricedRight(Placed(db, p.bet, p.board, PointsOf(p.board)), k)
  {
    if k == p.bet.market {
      FreshPlacementCorrectsPrices(db, p);
    } else {
      OtherBoardsKept(db, p, k);
    }
  }

  lemma CommitLeavesOthersFresh(db: Db, p: Placement, r: Placement)
    requires Sound(db) && PlacementOk(db, p) && p.bet.user in db.users
    requires PlacementOk(db, r) && Fresh(db, r) && r.bet.market != p.bet.market
    ensures Fresh(Placed(db, p.bet, p.board, PointsOf(p.board)), r)
  {
    OtherBoardsKept(db, p, r.bet.market);
  }

  lemma CommitLeavesAllPricesRight(db: Db, p: Placement)
    requires Sound(db) && PlacementOk(db, p) && Fresh(db, p) && p.bet.user in db.users && BoardsRight(db)
    ensures BoardsRight(Placed(db, p.bet, p.board, PointsOf(p.board)))
  {
    var after := Placed(db, p.bet, p.board, PointsOf(p.board));
    forall k | k in after.markets ensures PricedRight(after, k) {
      CommitLeavesPricesRight(db, p, k);
    }
  }

  lemma CommitLeavesAllFresh(db: Db, p: Placement, placing: map<RequestId, InFlight>)
    requires Sound(db) && PlacementOk(db, p) && p.bet.user in db.users && AllFresh(db, placing)
    requires forall q :: q in placing && placing[q].Ready? ==>
               PlacementOk(db, placing[q].placement) && placing[q].placement.bet.market != p.bet.market
    ensures AllFresh(Placed(db, p.bet, p.board, PointsOf(p.board)), placing)
  {
    forall q | q in placing && placing[q].Ready?
      ensures Fresh(Placed(db, p.bet, p.board, PointsOf(p.board)), placing[q].placement)
    {
      CommitLeavesOthersFresh(db, p, placing[q].placement);
    }
  }

  lemma OthersStayApart(w: World, request: RequestId)
    requires PlacingOk(w.db, w.placing) && OneReadyEach(w.placing) && request in w.placing && w.placing[request].Ready?
    ensures var rest := w.placing - {request};
            OneReadyEach(rest) && forall q :: q in rest && rest[q].Ready? ==>
              PlacementOk(w.db, rest[q].placement) &&
              rest[q].placement.bet.market != w.placing[request].placement.bet.market
  {
    forall q | q in w.placing && w.placing[q].Ready? ensures PlacementOk(w.db, w.placing[q].placement) {
      assert InFlightOk(w.db, w.placing[q]);
    }
  }

  predicate StaysInStep(w: World, step: Step) {
    InStep(Apply(w, step))
  }

  // What a commit attempt makes of the world.
  lemma CommitPlaceOutcome(w: World, request: RequestId, p: Placement)
    requires request in w.placing && w.placing[request] == Ready(p)
    ensures var tx := PlaceTx(w.db, p.bet, p.board, PointsOf(p.board));
            Apply(w, CommitPlace(request)) ==
            World(if tx.Ok? then Placed(w.db, p.bet, p.board, PointsOf(p.board)) else w.db,
                  w.placing - {request}, w.resolving)
  {
  }

  lemma CommittedInStep(w: World, request: RequestId, p: Placement)
    requires Sound(w.db) && PlacingOk(w.db, w.placing) && InStep(w)
    requires request in w.placing && w.placing[request] == Ready(p) && p.bet.user in w.db.users && PlacementOk(w.db, p)
    ensures InStep(World(Placed(w.db, p.bet, p.board, PointsOf(p.board)), w.placing - {request}, w.resolving))
  {
    OthersStayApart(w, request);
    CommitLeavesAllPricesRight(w.db, p);
    CommitLeavesAllFresh(w.db, p, w.placing - {request});
  }

  lemma CommitKeepsInStep(w: World, request: RequestId)
    requires Sound(w.db) && PlacingOk(w.db, w.placing) && InStep(w) && request in w.placing && w.placing[request].Ready?
    ensures StaysInStep(w, CommitPlace(request))
  {
    var p := w.placing[request].placement;
    assert InFlightOk(w.db, w.placing[request]);
    CommitPlaceOutcome(w, request, p);
    if PlaceTx(w.db, p.bet, p.board, PointsOf(p.board)).Ok? {
      CommittedInStep(w, request, p);
    } else {
      OthersStayApart(w, request);
    }
  }

  lemma ReadyKeepsInStep(w: World, request: RequestId, p: Placement)
    requires InStep(w) && Fresh(w.db, p)
    requires forall q :: q in w.placing && w.placing[q].Ready? ==> w.placing[q].placement.bet.market != p.bet.market
    ensures InStep(w.(placing := w.placing[request := Ready(p)]))
  {
  }

  lemma PriceKeepsInStep(w: World, request: RequestId, bet: BetId)
    requires Sound(w.db) && InStep(w) && Unhurried(w, PriceBet(request, bet))
    requires request in w.placing && w.placing[request].Admitted?
    ensures InStep(ApplyPriceBet(w, request, bet))
  {
    var a := w.placing[request];
    if HasBoard(w.db, a.market) {
      var r := BuildPlacement(w.db, bet, a.user, a.market, a.outcome, a.amount);
      if r.Ok? && PricingFits(r.value) {
        BuiltPlacementIsFresh(w.db, bet, a.user, a.market, a.outcome, a.amount);
        ReadyKeepsInStep(w, request, r.value);
      }
    }
  }

  lemma SameBoardsKeepInStep(w: World, after: Db)
    requires InStep(w)
    requires forall m :: m in after.markets ==> HasBoard(after, m)
    requires forall m :: m in w.db.markets ==> m in after.markets && HasBoard(w.db, m) && BoardOf(after, m) == BoardOf(w.db, m)
    requires forall m :: m in after.markets && m !in w.db.markets ==> PricedRight(after, m)
    requires forall q :: q in w.placing ==> InFlightOk(w.db, w.placing[q])
    ensures InStep(w.(db := after))
  {
    forall m | m in after.markets ensures PricedRight(after, m) {
      if m in w.db.markets {
        assert PricedRight(w.db, m);
      }
    }
    forall q | q in w.placing && w.placing[q].Ready? ensures Fresh(after, w.placing[q].placement) {
      assert Fresh(w.db, w.placing[q].placement) && InFlightOk(w.db, w.placing[q]);
    }
  }

  lemma NewBoardIsStored(db: Db, m: MarketId, ids: seq<OutcomeId>, closesAt: Option<Time>)
    requires CanOpen(db, m, ids)
    ensures PricedRight(OpenMarket(db, m, ids, closesAt), m)
  {
    var board := Repriced(Unpriced(m, ids));
    NewBoardPriced(m, ids);
    InsertBoardRows(db.outcomes, board);
    assert IdsOf(board) == ids;
    assert BoardOf(OpenMarket(db, m, ids, closesAt), m) == board;
    assert Volumes(board) == Volumes(Unpriced(m, ids));
    assert PricesOn(board) == Prices(Volumes(board));
  }

  lemma NewMarketLeavesBoard(db: Db, m: MarketId, ids: seq<OutcomeId>, closesAt: Option<Time>, k: MarketId)
    requires CanOpen(db, m, ids) && HasBoard(db, k)
    ensures HasBoard(OpenMarket(db, m, ids, closesAt), k)
    ensures BoardOf(OpenMarket(db, m, ids, closesAt), k) == BoardOf(db, k)
  {
    var board, others := Repriced(Unpriced(m, ids)), db.markets[k].board;
    InsertBoardRows(db.outcomes, board);
    assert IdsOf(board) == ids;
    assert forall i :: 0 <= i < |others| ==> others[i] !in ids;
  }

  lemma NewMarketIsPricedRight(db: Db, m: MarketId, ids: seq<OutcomeId>, closesAt: Option<Time>)
    requires PricesOk(db.markets, db.outcomes) && CanOpen(db, m, ids)
    ensures PricedRight(OpenMarket(db, m, ids, closesAt), m)
    ensures forall k :: k in db.markets ==>
      HasBoard(db, k) && HasBoard(OpenMarket(db, m, ids, closesAt), k) &&
      BoardOf(OpenMarket(db, m, ids, closesAt), k) == BoardOf(db, k)
  {
    NewBoardIsStored(db, m, ids, closesAt);
    forall k | k in db.markets
      ensures HasBoard(db, k) && HasBoard(OpenMarket(db, m, ids, closesAt), k) &&
              BoardOf(OpenMarket(db, m, ids, closesAt), k) == BoardOf(db, k)
    {
      NewMarketLeavesBoard(db, m, ids, closesAt, k);
    }
  }

  // Registering and settling touch no outcome row and no board.
  lemma RowsUntouchedKeepInStep(w: World, after: Db)
    requires PlacingOk(w.db, w.placing) && InStep(w) && after.outcomes == w.db.outcomes && after.markets.Keys == w.db.markets.Keys
    requires forall m :: m in w.db.markets ==> after.markets[m].board == w.db.markets[m].board
    ensures InStep(w.(db := after))
  {
    forall m | m in w.db.markets
      ensures m in after.markets && HasBoard(w.db, m) && HasBoard(after, m) && BoardOf(after, m) == BoardOf(w.db, m)
    {
      assert m in after.markets.Keys && PricedRight(w.db, m);
    }
    forall m | m in after.markets ensures m in w.db.markets {
      assert m in w.db.markets.Keys;
    }
    SameBoardsKeepInStep(w, after);
  }

  lemma CreateMarketKeepsInStep(w: World, m: MarketId, ids: seq<OutcomeId>, closesAt: Option<Time>)
    requires Sound(w.db) && PlacingOk(w.db, w.placing) && InStep(w) && CanOpen(w.db, m, ids)
    ensures InStep(w.(db := OpenMarket(w.db, m, ids, closesAt)))
  {
    NewMarketIsPricedRight(w.db, m, ids, closesAt);
    SameBoardsKeepInStep(w, OpenMarket(w.db, m, ids, closesAt));
  }

  lemma SettleKeepsInStep(w: World, request: RequestId)
    requires PlacingOk(w.db, w.placing) && InStep(w) && request in w.resolving && w.resolving[request].Loaded?
    ensures InStep(ApplyCommitSettle(w, request))
  {
    var r := w.resolving[request];
    SettleTouchesNoBoard(w.db, r.market, ResolvedRow(r.winner), r.settled);
    RowsUntouchedKeepInStep(w, SettleTx(w.db, r.market, ResolvedRow(r.winner), r.settled));
  }

  lemma SettleTouchesNoBoard(db: Db, m: MarketId, row: Market, settled: seq<Bet>)
    ensures var after := SettleTx(db, m, row, settled);
            after.outcomes == db.outcomes && after.markets.Keys == db.markets.Keys &&
            forall k :: k in db.markets ==> after.markets[k].board == db.markets[k].board
  {
    var closed := CloseMarket(db, m, row);
    SettleRowsMarkets(closed, settled);
    assert closed.markets.Keys == db.markets.Keys;
  }

  lemma ReadsKeepInStep(w: World, step: Step)
    requires InStep(w)
    requires step.BeginPlace? || step.AbortPlace? || step.BeginResolve? || step.LoadBets? || step.AbortResolve?
    ensures InStep(Apply(w, step))
  {
  }

  lemma StepKeepsInStep(w: World, step: Step)
    requires Sound(w.db) && PlacingOk(w.db, w.placing) && InStep(w) && Unhurried(w, step)
    ensures StaysInStep(w, step)
  {
    match step
    case PriceBet(request, bet) =>
      if request in w.placing && w.placing[request].Admitted? {
        PriceKeepsInStep(w, request, bet);
      }
    case CommitPlace(request) =>
      if request in w.placing && w.placing[request].Ready? {
        CommitKeepsInStep(w, request);
      }
    case Register(_) => RowsUntouchedKeepInStep(w, Apply(w, step).db);
    case CreateMarket(market, board, closesAt) =>
      if CanOpen(w.db, market, board) {
        CreateMarketKeepsInStep(w, market, board, closesAt);
      }
    case CommitSettle(request) =>
      if request in w.resolving && w.resolving[request].Loaded? {
        SettleKeepsInStep(w, request);
      }
    case _ => ReadsKeepInStep(w, step);
  }

  lemma {:induction false} UnhurriedRunsStayInStep(steps: seq<Step>)
    requires AllUnhurried(steps)
    ensures InStep(Run(steps))
  {
    if |steps| > 0 {
      var n := |steps| - 1;
      assert forall i :: 0 <= i < n ==> steps[..n][..i] == steps[..i];
      UnhurriedRunsStayInStep(steps[..n]);
      RunsKeepInv(steps[..n]);
      StepKeepsInStep(Run(steps[..n]), steps[n]);
    }
  }

  /** If no two priced placements on a market overlap, stored prices are always the pricing of stored volumes. */
  lemma PricesAreRightInUnhurriedRuns(steps: seq<Step>, m: MarketId)
    requires AllUnhurried(steps) && m in Run(steps).db.markets
    ensures PricedRight(Run(steps).db, m)
  {
    UnhurriedRunsStayInStep(steps);
  }

  // ----- exactly which commits leave prices right -----

  // Stored volumes with the stake of `bet` added.
  function VolumesWith(db: Db, bet: Bet): (v: seq<int>)
    requires HasBoard(db, bet.market)
    ensures |v| == |db.markets[bet.market].board|
  {
    var ids, board := db.markets[bet.market].board, BoardOf(db, bet.market);
    seq(|ids|, i requires 0 <= i < |ids| => board[i].volume + StakeFor(ids[i], bet))
  }

  // The snapshot may be stale, as long as it prices like the stored volumes with the stake.
  predicate PricesLikeStored(db: Db, p: Placement) {
    HasBoard(db, p.bet.market) && Prices(Volumes(p.board)) == Prices(VolumesWith(db, p.bet))
  }

  // The placement was priced from its own volumes.
  predicate SelfPriced(p: Placement) {
    PricesOn(p.board) == Prices(Volumes(p.board))
  }

  /** A commit leaves its market priced right if and only if its snapshot prices like the stored volumes do. */
  lemma CommitPricesRightIff(db: Db, p: Placement)
    requires BoardsOk(db.markets, db.outcomes) && PlacementOk(db, p) && SelfPriced(p) && p.bet.user in db.users
    ensures PricedRight(Placed(db, p.bet, p.board, PointsOf(p.board)), p.bet.market) <==> PricesLikeStored(db, p)
  {
    var m, ids := p.bet.market, db.markets[p.bet.market].board;
    var db' := Placed(db, p.bet, p.board, PointsOf(p.board));
    assert BoardOk(db.outcomes, m, ids);
    BoardIds(db.outcomes, m, ids);
    WriteBoardWrote(db.outcomes, m, ids, p.board, p.bet);
    WrittenPrices(db.outcomes, db'.outcomes, ids, p.board, p.bet);
    WrittenVolumes(db, p, db');
  }

  lemma WrittenVolumes(db: Db, p: Placement, db': Db)
    requires HasBoard(db, p.bet.market) && HasBoard(db', p.bet.market)
    requires db'.markets[p.bet.market].board == db.markets[p.bet.market].board
    requires Wrote(db.outcomes, db'.outcomes, db.markets[p.bet.market].board, p.board, p.bet)
    ensures Volumes(BoardOf(db', p.bet.market)) == VolumesWith(db, p.bet)
  {
  }

  predicate AllSelfPriced(placing: map<RequestId, InFlight>) {
    forall q :: q in placing && placing[q].Ready? ==> SelfPriced(placing[q].placement)
  }

  lemma BuiltIsSelfPriced(db: Db, id: BetId, user: UserId, m: MarketId, outcome: OutcomeId, amount: int)
    requires HasBoard(db, m) && BuildPlacement(db, id, user, m, outcome, amount).Ok?
    ensures SelfPriced(BuildPlacement(db, id, user, m, outcome, amount).value)
  {
    BuiltPlacement(db, id, user, m, outcome, amount);
    var board := BuildPlacement(db, id, user, m, outcome, amount).value.board;
    var staked := WithStake(BoardOf(db, m), Position(IdsOf(BoardOf(db, m)), outcome).value, amount);
    assert Volumes(board) == Volumes(staked) && PricesOn(board) == Prices(Volumes(staked));
  }

  predicate SelfPricedAfter(w: World, step: Step) {
    AllSelfPriced(Apply(w, step).placing)
  }

  lemma StepKeepsSelfPriced(w: World, step: Step)
    requires AllSelfPriced(w.placing)
    ensures SelfPricedAfter(w, step)
  {
    if step.PriceBet? && step.request in w.placing && w.placing[step.request].Admitted? {
      var a := w.placing[step.request];
      if HasBoard(w.db, a.market) {
        if BuildPlacement(w.db, step.bet, a.user, a.market, a.outcome, a.amount).Ok? {
          BuiltIsSelfPriced(w.db, step.bet, a.user, a.market, a.outcome, a.amount);
        }
      }
    }
  }

  lemma {:induction false} SelfPricedInEveryRun(steps: seq<Step>)
    ensures AllSelfPriced(Run(steps).placing)
  {
    if |steps| > 0 {
      SelfPricedInEveryRun(steps[..|steps| - 1]);
      StepKeepsSelfPriced(Run(steps[..|steps| - 1]), steps[|steps| - 1]);
    }
  }

  // A commit, if it is accepted, prices like the stored volumes.
  predicate Apt(w: World, step: Step) {
    step.CommitPlace? && step.request in w.placing && w.placing[step.request].Ready? ==>
      var p := w.placing[step.request].placement;
      PlaceTx(w.db, p.bet, p.board, PointsOf(p.board)).Ok? ==> PricesLikeStored(w.db, p)
  }

  // Boards as before, and any new market priced right.
  predicate BoardsCarryOver(before: Db, after: Db) {
    forall m :: m in after.markets ==>
      if m in before.markets then HasBoard(before, m) && HasBoard(after, m) && BoardOf(after, m) == BoardOf(before, m)
      else PricedRight(after, m)
  }

  lemma CarryOverKeepsRight(before: Db, after: Db)
    requires BoardsRight(before) && BoardsCarryOver(before, after)
    ensures BoardsRight(after)
  {
    forall m | m in after.markets ensures PricedRight(after, m) {
      assert m in before.markets ==> PricedRight(before, m);
    }
  }

  lemma PlacedRightIff(db: Db, p: Placement)
    requires Sound(db) && PlacementOk(db, p) && SelfPriced(p) && p.bet.user in db.users && BoardsRight(db)
    ensures BoardsRight(Placed(db, p.bet, p.board, PointsOf(p.board))) <==> PricesLikeStored(db, p)
  {
    var after := Placed(db, p.bet, p.board, PointsOf(p.board));
    CommitPricesRightIff(db, p);
    forall k | k in db.markets && k != p.bet.market ensures PricedRight(after, k) {
      OtherBoardsKept(db, p, k);
    }
    if PricedRight(after, p.bet.market) {
      forall k | k in after.markets ensures PricedRight(after, k) {
        assert k in db.markets || k == p.bet.market;
      }
    }
  }

  predicate RightAfter(w: World, step: Step) {
    BoardsRight(Apply(w, step).db)
  }

  lemma CommitPlaceRightIff(w: World, request: RequestId)
    requires Inv(w) && AllSelfPriced(w.placing) && BoardsRight(w.db)
    ensures RightAfter(w, CommitPlace(request)) <==> Apt(w, CommitPlace(request))
  {
    if request in w.placing && w.placing[request].Ready? {
      var p := w.placing[request].placement;
      assert InFlightOk(w.db, w.placing[request]);
      CommitPlaceOutcome(w, request, p);
      if PlaceTx(w.db, p.bet, p.board, PointsOf(p.board)).Ok? {
        PlacedRightIff(w.db, p);
      }
    }
  }

  lemma OtherStepsCarryOver(w: World, step: Step)
    requires BoardsRight(w.db) && !step.CommitPlace? && !step.CreateMarket? && !step.CommitSettle?
    ensures BoardsCarryOver(w.db, Apply(w, step).db)
  {
    assert forall m :: m in w.db.markets ==> PricedRight(w.db, m);
  }

  lemma SettleCarriesOver(db: Db, m: MarketId, row: Market, settled: seq<Bet>)
    requires BoardsRight(db)
    ensures BoardsCarryOver(db, SettleTx(db, m, row, settled))
  {
    SettleTouchesNoBoard(db, m, row, settled);
    var after := SettleTx(db, m, row, settled);
    forall k | k in after.markets
      ensures k in db.markets && HasBoard(db, k) && HasBoard(after, k) && BoardOf(after, k) == BoardOf(db, k)
    {
      assert k in db.markets.Keys && PricedRight(db, k);
    }
  }

  lemma StepRightIff(w: World, step: Step)
    requires Inv(w) && AllSelfPriced(w.placing) && BoardsRight(w.db)
    ensures RightAfter(w, step) <==> Apt(w, step)
  {
    match step
    case CommitPlace(request) => CommitPlaceRightIff(w, request);
    case CreateMarket(m, ids, closesAt) =>
      if CanOpen(w.db, m, ids) {
        NewMarketIsPricedRight(w.db, m, ids, closesAt);
        CarryOverKeepsRight(w.db, OpenMarket(w.db, m, ids, closesAt));
      }
    case CommitSettle(request) =>
      if request in w.resolving && w.resolving[request].Loaded? {
        var r := w.resolving[request];
        SettleCarriesOver(w.db, r.market, ResolvedRow(r.winner), r.settled);
        CarryOverKeepsRight(w.db, SettleTx(w.db, r.market, ResolvedRow(r.winner), r.settled));
      }
    case _ =>
      OtherStepsCarryOver(w, step);
      CarryOverKeepsRight(w.db, Apply(w, step).db);
  }

  // After i steps every stored board is the pricing of its volumes; step i commits like stored.
  predicate RightAt(steps: seq<Step>, i: nat) {
    i <= |steps| ==> BoardsRight(Run(steps[..i]).db)
  }

  predicate AptAt(steps: seq<Step>, i: nat) {
    i < |steps| ==> Apt(Run(steps[..i]), steps[i])
  }

  lemma RightNextIff(steps: seq<Step>, i: nat)
    requires i < |steps| && RightAt(steps, i)
    ensures RightAt(steps, i + 1) <==> AptAt(steps, i)
  {
    assert steps[..i + 1][..i] == steps[..i];
    RunsKeepInv(steps[..i]);
    SelfPricedInEveryRun(steps[..i]);
    StepRightIff(Run(steps[..i]), steps[i]);
  }

  /**
   * Stored prices are the pricing of stored volumes in every state of a run if and only if every
   * accepted commit of the run prices like the volumes stored at that moment with its stake.
   */
  lemma PricesRightThroughoutIff(steps: seq<Step>)
    ensures (forall i: nat :: i <= |steps| ==> RightAt(steps, i)) <==> (forall i: nat :: i < |steps| ==> AptAt(steps, i))
  {
    var p, q := (i: nat) => RightAt(steps, i), (i: nat) => AptAt(steps, i);
    assert steps[..0] == [];
    forall i: nat | i < |steps| && p(i) ensures p(i + 1) <==> q(i) {
      RightNextIff(steps, i);
    }
    HoldsThroughoutIff(p, q, |steps|);
    assert forall i: nat :: p(i) == RightAt(steps, i) && q(i) == AptAt(steps, i);
  }

  // ----- a run that ends with wrong prices -----

  // Two first bets on different outcomes, both priced off the empty board, then both committed.
  function BothFirst(a: int, b: int): seq<Step> {
    Opening() + [BeginPlace(0, 0, 0, a, 0)] + [PriceBet(0, 0)] + [BeginPlace(1, 0, 1, b, 0)] + [PriceBet(1, 1)] +
    [CommitPlace(0)] + [CommitPlace(1)]
  }

  lemma SecondIsPriced(first: seq<Step>, b: int) returns (q: Placement)
    requires NothingBet(Run(first)) && 1 !in Run(first).placing && 0 < b <= STARTING_BALANCE
    ensures var w := Run(first);
            Run(first + [BeginPlace(1, 0, 1, b, 0)] + [PriceBet(1, 1)]) == w.(placing := w.placing[1 := Ready(q)]) &&
            BuildPlacement(w.db, 1, 0, 0, 1, b) == Ok(q) && PlacementOk(w.db, q) &&
            q.bet == Bet(1, 0, 0, 1, b, q.bet.price, Active, None)
  {
    RunThenTwo(first, BeginPlace(1, 0, 1, b, 0), PriceBet(1, 1));
    q := BetIsPriced(Run(first), 1, 1, 1, b);
  }

  lemma BothArePriced(a: int, b: int) returns (p: Placement, q: Placement)
    requires a > 0 && b > 0 && a + b <= STARTING_BALANCE
    ensures var w := Run(Opening());
            NothingBet(w) && BuildPlacement(w.db, 0, 0, 0, 0, a) == Ok(p) && BuildPlacement(w.db, 1, 0, 0, 1, b) == Ok(q) &&
            p.bet == Bet(0, 0, 0, 0, a, p.bet.price, Active, None) && q.bet == Bet(1, 0, 0, 1, b, q.bet.price, Active, None) &&
            PlacementOk(w.db, p) && PlacementOk(w.db, q) &&
            Run(Opening() + [BeginPlace(0, 0, 0, a, 0)] + [PriceBet(0, 0)] + [BeginPlace(1, 0, 1, b, 0)] + [PriceBet(1, 1)]) ==
            w.(placing := w.placing[0 := Ready(p)][1 := Ready(q)])
  {
    var first := Opening() + [BeginPlace(0, 0, 0, a, 0)] + [PriceBet(0, 0)];
    var w := Run(Opening());
    OpeningIsEmpty();
    RunThenTwo(Opening(), BeginPlace(0, 0, 0, a, 0), PriceBet(0, 0));
    p := BetIsPriced(w, 0, 0, 0, a);
    RunsKeepInv(first);
    StillNothingBet(w, Run(first));
    q := SecondIsPriced(first, b);
  }

  // The first of the two bets is stored, and the second request is still priced.
  predicate FirstIsIn(w: World, before: Db, p: Placement, q: Placement, a: int) {
    p.bet.user in before.users && p.bet.market in before.markets &&
    w.db == Placed(before, p.bet, p.board, PointsOf(p.board)) && 1 in w.placing && w.placing[1] == Ready(q) &&
    0 in w.db.users && w.db.users[0] == STARTING_BALANCE - a && |w.db.bets| == 1 && w.db.bets[0].id == 0
  }

  lemma FirstCommits(w: World, p: Placement, q: Placement, a: int)
    requires NothingBet(w) && 0 < a <= STARTING_BALANCE && p.bet == Bet(0, 0, 0, 0, a, p.bet.price, Active, None)
    requires 0 in w.placing && w.placing[0] == Ready(p) && 1 in w.placing && w.placing[1] == Ready(q)
    ensures FirstIsIn(Apply(w, CommitPlace(0)), w.db, p, q, a)
  {
    assert InFlightOk(w.db, w.placing[0]);
    BetCommits(w, 0, p);
  }

  lemma SecondCommits(w: World, before: Db, p: Placement, q: Placement, a: int, b: int)
    requires Inv(w) && FirstIsIn(w, before, p, q, a) && a + b <= STARTING_BALANCE
    requires q.bet == Bet(1, 0, 0, 1, b, q.bet.price, Active, None)
    ensures Apply(w, CommitPlace(1)).db == Placed(w.db, q.bet, q.board, PointsOf(q.board))
  {
    assert InFlightOk(w.db, w.placing[1]);
    BetCommits(w, 1, q);
  }

  predicate Lags(db: Db, a: int, b: int) {
    |db.bets| == 2 && HasBoard(db, 0) && Volumes(BoardOf(db, 0)) == [a, b] &&
    PricesOn(BoardOf(db, 0)) == [0, SCALE] && Prices([a, b])[0] > 0 && !PricedRight(db, 0)
  }

  lemma SecondBoardStands(db: Db, p: Placement, q: Placement, a: int, b: int)
    requires Sound(db) && db.bets == [] && 0 in db.markets && db.markets[0].board == [0, 1] && 0 in db.users
    requires a > 0 && b > 0 && a + b <= STARTING_BALANCE
    requires BuildPlacement(db, 0, 0, 0, 0, a) == Ok(p) && BuildPlacement(db, 1, 0, 0, 1, b) == Ok(q)
    requires HasBoard(db, 0) && p.bet.id == 0 && p.bet.user == 0 && p.bet.market == 0
    requires q.bet.id == 1 && q.bet.user == 0 && q.bet.market == 0
    ensures Lags(Placed(Placed(db, p.bet, p.board, PointsOf(p.board)), q.bet, q.board, PointsOf(q.board)), a, b)
  {
    EmptyBoard(db);
    BoardsAfterBoth(db, p, q, 0, a, b);
  }

  lemma SecondPricedThenCommitted(priced: seq<Step>, before: Db, p: Placement, q: Placement, a: int, b: int)
    requires NothingBet(Run(priced)) && Run(priced).db == before && 0 < a && a + b <= STARTING_BALANCE && 0 < b
    requires p.bet == Bet(0, 0, 0, 0, a, p.bet.price, Active, None) && q.bet == Bet(1, 0, 0, 1, b, q.bet.price, Active, None)
    requires var w := Run(priced); 0 in w.placing && w.placing[0] == Ready(p) && 1 in w.placing && w.placing[1] == Ready(q)
    ensures p.bet.user in before.users && p.bet.market in before.markets
    ensures Run(priced + [CommitPlace(0)] + [CommitPlace(1)]).db ==
            Placed(Placed(before, p.bet, p.board, PointsOf(p.board)), q.bet, q.board, PointsOf(q.board))
  {
    var once := priced + [CommitPlace(0)];
    RunThen(priced, CommitPlace(0));
    RunThen(once, CommitPlace(1));
    FirstCommits(Run(priced), p, q, a);
    RunsKeepInv(once);
    SecondCommits(Run(once), before, p, q, a, b);
  }

  lemma StillNothingBet(w: World, priced: World)
    requires NothingBet(w) && priced.db == w.db && Inv(priced)
    ensures NothingBet(priced)
  {
  }

  /**
   * Two overlapping first bets of any size end with the second one's board: both are stored and
   * counted, and the first outcome keeps price 0 although its volume is worth more.
   */
  lemma OverlappingFirstBetsLag(a: int, b: int)
    requires a > 0 && b > 0 && a + b <= STARTING_BALANCE
    ensures Lags(Run(BothFirst(a, b)).db, a, b)
  {
    var priced := Opening() + [BeginPlace(0, 0, 0, a, 0)] + [PriceBet(0, 0)] + [BeginPlace(1, 0, 1, b, 0)] + [PriceBet(1, 1)];
    var p, q := BothArePriced(a, b);
    RunsKeepInv(priced);
    StillNothingBet(Run(Opening()), Run(priced));
    SecondPricedThenCommitted(priced, Run(Opening()).db, p, q, a, b);
    EmptyBoard(Run(Opening()).db);
    SecondBoardStands(Run(Opening()).db, p, q, a, b);
  }
}
