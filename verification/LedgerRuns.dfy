/**
 * Whole runs of the betting ledger. Placements read in two steps and commit in a third, each in
 * its own transaction, so any number of them overlap with each other and with resolutions.
 */
module LedgerRuns {
  import opened Base
  import opened Sums
  import opened Pricing
  import opened Bets
  import opened Ledger
  import opened LedgerKeeps

  type RequestId = nat

  // A PlaceBet call between two of its reads, or between its last read and its commit.
  datatype InFlight =
    | Admitted(user: UserId, market: MarketId, outcome: OutcomeId, amount: int)
    | Ready(placement: Placement)

  // A ResolveMarket call before and after it loads the open bets.
  datatype Resolution =
    | Checked(market: MarketId, winner: OutcomeId)
    | Loaded(market: MarketId, winner: OutcomeId, settled: seq<Bet>)

  datatype World = World(db: Db, placing: map<RequestId, InFlight>, resolving: map<RequestId, Resolution>)

  const START: World := World(EMPTY, map[], map[])

  datatype Step =
    | Register(user: UserId)
    | CreateMarket(market: MarketId, board: seq<OutcomeId>, closesAt: Option<Time>)
    | BeginPlace(request: RequestId, user: UserId, outcome: OutcomeId, amount: int, now: Time)
    | PriceBet(request: RequestId, bet: BetId)
    | CommitPlace(request: RequestId)
    | AbortPlace(request: RequestId)
    | BeginResolve(request: RequestId, market: MarketId, winner: OutcomeId)
    | LoadBets(request: RequestId)
    | CommitSettle(request: RequestId)
    | AbortResolve(request: RequestId)

  // A step the source would reject, or that is not enabled, leaves the world as it is.
  function Apply(w: World, step: Step): World {
    match step
    case Register(user) =>
      if user in w.db.users then w
      else w.(db := w.db.(users := w.db.users[user := STARTING_BALANCE]))
    case CreateMarket(market, board, closesAt) =>
      if CanOpen(w.db, market, board) then w.(db := OpenMarket(w.db, market, board, closesAt)) else w
    case BeginPlace(request, user, outcome, amount, now) =>
      if request in w.placing then w
      else ApplyBeginPlace(w, request, user, outcome, amount, now)
    case PriceBet(request, bet) =>
      if request !in w.placing || !w.placing[request].Admitted? then w
      else ApplyPriceBet(w, request, bet)
    case CommitPlace(request) =>
      if request !in w.placing || !w.placing[request].Ready? then w
      else ApplyCommitPlace(w, request)
    case AbortPlace(request) => w.(placing := w.placing - {request})
    case BeginResolve(request, market, winner) =>
      if request in w.resolving || CheckResolve(w.db, market, winner).Err? then w
      else w.(resolving := w.resolving[request := Checked(market, winner)])
    case LoadBets(request) =>
      if request !in w.resolving || !w.resolving[request].Checked? then w
      else ApplyLoadBets(w, request)
    case CommitSettle(request) =>
      if request !in w.resolving || !w.resolving[request].Loaded? then w
      else ApplyCommitSettle(w, request)
    case AbortResolve(request) => w.(resolving := w.resolving - {request})
  }

  function ApplyBeginPlace(w: World, request: RequestId, user: UserId, outcome: OutcomeId,
                           amount: int, now: Time): World {
    match Admit(w.db, outcome, now)
    case Err(_) => w
    case Ok(market) => w.(placing := w.placing[request := Admitted(user, market, outcome, amount)])
  }

  function ApplyPriceBet(w: World, request: RequestId, bet: BetId): World
    requires request in w.placing && w.placing[request].Admitted?
  {
    var a := w.placing[request];
    if !HasBoard(w.db, a.market) then w
    else
      var r := BuildPlacement(w.db, bet, a.user, a.market, a.outcome, a.amount);
      if r.Ok? && PricingFits(r.value) then w.(placing := w.placing[request := Ready(r.value)])
      else w.(placing := w.placing - {request})
  }

  function ApplyCommitPlace(w: World, request: RequestId): World
    requires request in w.placing && w.placing[request].Ready?
  {
    var p := w.placing[request].placement;
    var done := w.placing - {request};
    match PlaceTx(w.db, p.bet, p.board, PointsOf(p.board))
    case Err(_) => w.(placing := done)
    case Ok(db) => w.(db := db, placing := done)
  }

  function ApplyLoadBets(w: World, request: RequestId): World
    requires request in w.resolving && w.resolving[request].Checked?
  {
    var r := w.resolving[request];
    var open := ActiveIn(w.db.bets, r.market);
    if exists i :: 0 <= i < |open| && open[i].price <= 0 then w
    else w.(resolving := w.resolving[request := Loaded(r.market, r.winner, SettleEach(open, r.winner))])
  }

  function ResolvedRow(winner: OutcomeId): Market {
    Market(Resolved, Some(winner), 0, 0, None, [])
  }

  function ApplyCommitSettle(w: World, request: RequestId): World
    requires request in w.resolving && w.resolving[request].Loaded?
  {
    var r := w.resolving[request];
    w.(db := SettleTx(w.db, r.market, ResolvedRow(r.winner), r.settled), resolving := w.resolving - {request})
  }

  function Run(steps: seq<Step>): World {
    if |steps| == 0 then START else Apply(Run(steps[..|steps| - 1]), steps[|steps| - 1])
  }

  // ----- what is true of requests in flight -----

  predicate InFlightOk(db: Db, f: InFlight) {
    match f
    case Admitted(_, market, outcome, _) => BelongsTo(db.markets, market, outcome)
    case Ready(p) => PlacementOk(db, p)
  }

  ghost predicate ResolutionOk(db: Db, r: Resolution) {
    r.market in db.markets && r.winner in db.markets[r.market].board &&
    (r.Loaded? ==> SettlesRows(db.bets, r.settled, r.market, r.winner))
  }

  predicate PlacingOk(db: Db, placing: map<RequestId, InFlight>) {
    forall q :: q in placing ==> InFlightOk(db, placing[q])
  }

  ghost predicate ResolvingOk(db: Db, resolving: map<RequestId, Resolution>) {
    forall q :: q in resolving ==> ResolutionOk(db, resolving[q])
  }

  ghost predicate Inv(w: World) {
    Sound(w.db) && PlacingOk(w.db, w.placing) && ResolvingOk(w.db, w.resolving)
  }

  // What no transaction disturbs: boards, and the terms of stored bets.
  predicate BoardsKept(before: Db, after: Db) {
    forall m :: m in before.markets ==>
      m in after.markets && after.markets[m].board == before.markets[m].board
  }

  predicate TermsKept(before: Db, after: Db) {
    |before.bets| <= |after.bets| &&
    forall i :: 0 <= i < |before.bets| ==>
      after.bets[i] == before.bets[i].(status := after.bets[i].status, payout := after.bets[i].payout)
  }

  lemma InFlightSurvives(before: Db, after: Db, f: InFlight)
    requires InFlightOk(before, f) && BoardsKept(before, after)
    ensures InFlightOk(after, f)
  {
  }

  lemma ListedRowsSurvive(before: Db, after: Db, settled: seq<Bet>, m: MarketId, winner: OutcomeId)
    requires SettlesRows(before.bets, settled, m, winner) && TermsKept(before, after)
    ensures SettlesRows(after.bets, settled, m, winner)
  {
    forall i | 0 <= i < |settled| ensures SettlesSome(after.bets, settled[i], m, winner) {
      assert SettlesSome(before.bets, settled[i], m, winner);
      var k: nat :| Settles(before.bets, k, settled[i], m, winner);
      assert Settles(after.bets, k, settled[i], m, winner);
    }
  }

  lemma AllSurvive(w: World, after: Db)
    requires PlacingOk(w.db, w.placing) && ResolvingOk(w.db, w.resolving)
    requires BoardsKept(w.db, after) && TermsKept(w.db, after)
    ensures PlacingOk(after, w.placing) && ResolvingOk(after, w.resolving)
  {
    forall q | q in w.placing ensures InFlightOk(after, w.placing[q]) {
      InFlightSurvives(w.db, after, w.placing[q]);
    }
    forall q | q in w.resolving ensures ResolutionOk(after, w.resolving[q]) {
      var r := w.resolving[q];
      assert ResolutionOk(w.db, r);
      if r.Loaded? {
        ListedRowsSurvive(w.db, after, r.settled, r.market, r.winner);
      }
    }
  }

  // ----- each step keeps the invariant -----

  lemma BoardIds(outcomes: map<OutcomeId, Outcome>, m: MarketId, ids: seq<OutcomeId>)
    requires BoardOk(outcomes, m, ids)
    ensures Stored(ids, outcomes) && IdsOf(Board(ids, outcomes)) == ids
  {
    assert forall i :: 0 <= i < |ids| ==> Lists(outcomes, m, ids[i]);
  }

  function WithStake(board: seq<Outcome>, chosen: nat, amount: int): (r: seq<Outcome>)
    requires chosen < |board|
    ensures |r| == |board|
  {
    board[chosen := AddVolume(board[chosen], amount)]
  }

  lemma RepricedBoardIsPriced(board: seq<Outcome>, chosen: nat, amount: int)
    requires chosen < |board| && amount > 0 && NonNegative(Volumes(board))
    ensures BoardPriced(PricesOn(Repriced(WithStake(board, chosen, amount))))
    ensures IdsOf(Repriced(WithStake(board, chosen, amount))) == IdsOf(board)
    ensures NonNegative(Volumes(WithStake(board, chosen, amount)))
  {
    var staked := WithStake(board, chosen, amount);
    assert forall i :: 0 <= i < |board| ==> Volumes(board)[i] == board[i].volume;
    PricesSumToScale(Volumes(staked));
    assert PricesOn(Repriced(staked)) == Prices(Volumes(staked));
  }

  lemma BuiltPlacement(db: Db, id: BetId, user: UserId, m: MarketId, outcome: OutcomeId, amount: int)
    requires HasBoard(db, m) && BuildPlacement(db, id, user, m, outcome, amount).Ok?
    ensures var p, board := BuildPlacement(db, id, user, m, outcome, amount).value, BoardOf(db, m);
            var chosen := Position(IdsOf(board), outcome);
            chosen.Some? && p.board == Repriced(WithStake(board, chosen.value, amount)) &&
            p.bet.market == m && p.bet.outcome == outcome && p.bet.amount == amount
  {
  }

  lemma PlacementFits(db: Db, id: BetId, user: UserId, m: MarketId, outcome: OutcomeId, amount: int)
    requires BoardsOk(db.markets, db.outcomes) && PricesOk(db.markets, db.outcomes)
    requires HasBoard(db, m) && NonNegative(Volumes(BoardOf(db, m)))
    requires BuildPlacement(db, id, user, m, outcome, amount).Ok?
    ensures PlacementOk(db, BuildPlacement(db, id, user, m, outcome, amount).value)
  {
    var board, ids := BoardOf(db, m), db.markets[m].board;
    BoardIds(db.outcomes, m, ids);
    var chosen := Position(ids, outcome).value;
    RepricedBoardIsPriced(board, chosen, amount);
    assert BoardPriced(PricesOn(board));
    assert PricesOn(board)[chosen] == board[chosen].price;
    assert BuildPlacement(db, id, user, m, outcome, amount).value.board ==
           Repriced(WithStake(board, chosen, amount));
  }

  lemma LoadedBetsAreOpen(db: Db, m: MarketId, winner: OutcomeId)
    requires BetsOk(db.users, db.markets, db.bets)
    ensures forall b :: b in ActiveIn(db.bets, m) ==> b.price > 0
    ensures SettlesOpenBets(db.bets, SettleEach(ActiveIn(db.bets, m), winner), m, winner)
  {
    forall b | b in db.bets ensures b.price > 0 {
      var k :| 0 <= k < |db.bets| && db.bets[k] == b;
      assert BetOk(db.users, db.markets, db.bets[k]);
    }
    OpenBetsLoad(db.bets, m, winner);
  }

  lemma OpenBetsLoad(bets: seq<Bet>, m: MarketId, winner: OutcomeId)
    requires DistinctIds(bets) && forall b :: b in bets ==> b.price > 0
    ensures SettlesOpenBets(bets, SettleEach(ActiveIn(bets, m), winner), m, winner)
  {
    var open := ActiveIn(bets, m);
    FilterKeepsDistinctIds(bets, IsActiveIn(m));
    var settled := SettleEach(open, winner);
    forall i | 0 <= i < |settled| ensures SettlesSome(bets, settled[i], m, winner) {
      assert open[i] in open;
      var k: nat :| k < |bets| && bets[k] == open[i];
      assert Settles(bets, k, settled[i], m, winner);
    }
    LoadedRowsOpen(bets, m, settled);
  }

  lemma LoadedRowsOpen(bets: seq<Bet>, m: MarketId, settled: seq<Bet>)
    requires DistinctIds(bets) && |settled| == |ActiveIn(bets, m)|
    requires forall j :: 0 <= j < |settled| ==> settled[j].id == ActiveIn(bets, m)[j].id
    ensures RowsOpen(bets, settled)
  {
    var open := ActiveIn(bets, m);
    forall i, j | 0 <= i < |bets| && 0 <= j < |settled| && bets[i].id == settled[j].id
      ensures bets[i].status == Active
    {
      assert open[j] in open;
      var k: nat :| k < |bets| && bets[k] == open[j];
      assert bets[k].id == bets[i].id;
    }
  }

  lemma {:induction false} FilterKeepsDistinctIds(bets: seq<Bet>, keep: Bet -> bool)
    requires DistinctIds(bets)
    ensures DistinctIds(Filter(bets, keep))
  {
    if |bets| > 0 {
      var front, last := bets[..|bets| - 1], bets[|bets| - 1];
      FilterKeepsDistinctIds(front, keep);
      var kept := Filter(front, keep);
      forall i | 0 <= i < |kept| ensures kept[i].id != last.id {
        assert kept[i] in front;
      }
    }
  }

  lemma WithDbKeepsInv(w: World, after: Db)
    requires Inv(w) && Sound(after) && BoardsKept(w.db, after) && TermsKept(w.db, after)
    ensures Inv(w.(db := after))
  {
    AllSurvive(w, after);
  }

  lemma WithInFlightKeepsInv(w: World, q: RequestId, f: InFlight)
    requires Inv(w) && InFlightOk(w.db, f)
    ensures Inv(w.(placing := w.placing[q := f]))
  {
  }

  lemma WithoutInFlightKeepsInv(w: World, q: RequestId)
    requires Inv(w)
    ensures Inv(w.(placing := w.placing - {q}))
  {
  }

  lemma RegisterKeepsInv(w: World, user: UserId)
    requires Inv(w)
    ensures Inv(Apply(w, Register(user)))
  {
    if user !in w.db.users {
      RegisterKeepsSound(w.db, user);
      WithDbKeepsInv(w, w.db.(users := w.db.users[user := STARTING_BALANCE]));
    }
  }

  lemma OpenMarketKeepsOthers(db: Db, market: MarketId, board: seq<OutcomeId>, closesAt: Option<Time>)
    requires CanOpen(db, market, board)
    ensures BoardsKept(db, OpenMarket(db, market, board, closesAt))
    ensures TermsKept(db, OpenMarket(db, market, board, closesAt))
  {
  }

  lemma CreateMarketKeepsInv(w: World, market: MarketId, board: seq<OutcomeId>, closesAt: Option<Time>)
    requires Inv(w)
    ensures Inv(Apply(w, CreateMarket(market, board, closesAt)))
  {
    if CanOpen(w.db, market, board) {
      OpenMarketKeepsSound(w.db, market, board, closesAt);
      OpenMarketKeepsOthers(w.db, market, board, closesAt);
      WithDbKeepsInv(w, OpenMarket(w.db, market, board, closesAt));
    }
  }

  lemma BeginPlaceKeepsInv(w: World, request: RequestId, user: UserId, outcome: OutcomeId, amount: int, now: Time)
    requires Inv(w)
    ensures Inv(Apply(w, BeginPlace(request, user, outcome, amount, now)))
  {
    if Admit(w.db, outcome, now).Ok? {
      assert BelongsTo(w.db.markets, w.db.outcomes[outcome].market, outcome);
    }
  }

  lemma PriceBetKeepsInv(w: World, request: RequestId, bet: BetId)
    requires Inv(w)
    ensures Inv(Apply(w, PriceBet(request, bet)))
  {
    if request in w.placing && w.placing[request].Admitted? {
      var a := w.placing[request];
      if HasBoard(w.db, a.market) {
        var r := BuildPlacement(w.db, bet, a.user, a.market, a.outcome, a.amount);
        if r.Ok? && PricingFits(r.value) {
          VolumesNotNegative(w.db, a.market);
          PlacementFits(w.db, bet, a.user, a.market, a.outcome, a.amount);
          WithInFlightKeepsInv(w, request, Ready(r.value));
        } else {
          WithoutInFlightKeepsInv(w, request);
        }
      }
    }
  }

  lemma VolumesNotNegative(db: Db, m: MarketId)
    requires Sound(db) && HasBoard(db, m)
    ensures NonNegative(Volumes(BoardOf(db, m)))
  {
    TotalVolumeIsSumOfVolumes(db, m);
  }

  lemma PlacedKeepsOthers(db: Db, p: Placement)
    requires PlaceTx(db, p.bet, p.board, PointsOf(p.board)).Ok?
    ensures BoardsKept(db, PlaceTx(db, p.bet, p.board, PointsOf(p.board)).value)
    ensures TermsKept(db, PlaceTx(db, p.bet, p.board, PointsOf(p.board)).value)
  {
  }

  lemma CommitPlaceKeepsInv(w: World, request: RequestId)
    requires Inv(w)
    ensures Inv(Apply(w, CommitPlace(request)))
  {
    if request in w.placing && w.placing[request].Ready? {
      var p := w.placing[request].placement;
      assert InFlightOk(w.db, w.placing[request]);
      WithoutInFlightKeepsInv(w, request);
      var r := PlaceTx(w.db, p.bet, p.board, PointsOf(p.board));
      if r.Ok? {
        PlaceKeepsSound(w.db, p);
        PlacedKeepsOthers(w.db, p);
        WithDbKeepsInv(w.(placing := w.placing - {request}), r.value);
      }
    }
  }

  lemma LoadBetsKeepsInv(w: World, request: RequestId)
    requires Inv(w)
    ensures Inv(Apply(w, LoadBets(request)))
  {
    if request in w.resolving && w.resolving[request].Checked? {
      var r := w.resolving[request];
      assert ResolutionOk(w.db, r);
      LoadedBetsAreOpen(w.db, r.market, r.winner);
      WithResolutionKeepsInv(w, request, Loaded(r.market, r.winner, SettleEach(ActiveIn(w.db.bets, r.market), r.winner)));
    }
  }

  lemma WithResolutionKeepsInv(w: World, request: RequestId, r: Resolution)
    requires Inv(w) && ResolutionOk(w.db, r)
    ensures Inv(w.(resolving := w.resolving[request := r]))
  {
  }

  lemma SettleKeepsOthers(db: Db, m: MarketId, row: Market, settled: seq<Bet>)
    ensures BoardsKept(db, SettleTx(db, m, row, settled))
    ensures TermsKept(db, SettleTx(db, m, row, settled))
  {
    var closed := CloseMarket(db, m, row);
    SettlePaysEachUserTheirPayouts(closed, settled);
    SettleRowsMarkets(closed, settled);
  }

  lemma CommitSettleKeepsInv(w: World, request: RequestId)
    requires Inv(w)
    ensures Inv(Apply(w, CommitSettle(request)))
  {
    if request in w.resolving && w.resolving[request].Loaded? {
      var r := w.resolving[request];
      assert ResolutionOk(w.db, r);
      SettleKeepsSound(w.db, r.market, ResolvedRow(r.winner), r.winner, r.settled);
      SettleKeepsOthers(w.db, r.market, ResolvedRow(r.winner), r.settled);
      WithDbKeepsInv(w, SettleTx(w.db, r.market, ResolvedRow(r.winner), r.settled));
    }
  }

  lemma StepKeepsInv(w: World, step: Step)
    requires Inv(w)
    ensures Inv(Apply(w, step))
  {
    match step
    case Register(user) => RegisterKeepsInv(w, user);
    case CreateMarket(market, board, closesAt) => CreateMarketKeepsInv(w, market, board, closesAt);
    case BeginPlace(request, user, outcome, amount, now) =>
      BeginPlaceKeepsInv(w, request, user, outcome, amount, now);
    case PriceBet(request, bet) => PriceBetKeepsInv(w, request, bet);
    case CommitPlace(request) => CommitPlaceKeepsInv(w, request);
    case AbortPlace(request) =>
    case BeginResolve(request, market, winner) =>
    case LoadBets(request) => LoadBetsKeepsInv(w, request);
    case CommitSettle(request) => CommitSettleKeepsInv(w, request);
    case AbortResolve(request) =>
  }

  lemma {:induction false} RunsKeepInv(steps: seq<Step>)
    ensures Inv(Run(steps))
  {
    if |steps| > 0 {
      RunsKeepInv(steps[..|steps| - 1]);
      StepKeepsInv(Run(steps[..|steps| - 1]), steps[|steps| - 1]);
    }
  }
}
