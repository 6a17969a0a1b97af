/** The live price feed over the ledger: what subscribers of a market last saw, against its stored prices. */
module PriceFeed {
  import opened Base
  import opened Bets
  import opened Ledger
  import opened LedgerKeeps
  import opened LedgerRuns
  import opened LedgerScenes
  import opened LedgerTheorems
  import opened LedgerPrices
  import B = Broadcast

  type FeedWorld = B.World<MarketId, seq<int>>
  type FeedStep = B.Step<MarketId, seq<int>>

  // The ledger, the outbox processors and the subscribers, interleaved.
  datatype Move = OfLedger(step: Step) | OfFeed(feed: FeedStep)

  function LedgerSteps(moves: seq<Move>): seq<Step> {
    if |moves| == 0 then []
    else
      match moves[|moves| - 1]
      case OfLedger(step) => LedgerSteps(moves[..|moves| - 1]) + [step]
      case OfFeed(_) => LedgerSteps(moves[..|moves| - 1])
  }

  function Ticks(db: Db, m: MarketId): seq<int> {
    if HasBoard(db, m) then PricesOn(BoardOf(db, m)) else []
  }

  // What a ledger step does to the feed: a bet rewrites one market's prices and leaves its event,
  // numbered by its place in the event log; a new market has prices but no event.
  function Caused(before: Db, step: Step, after: Db): Option<FeedStep> {
    if step.CommitPlace? && |after.events| > |before.events| && after.events[|after.events| - 1].MarketPricesUpdated? then
      var m := after.events[|after.events| - 1].market;
      Some(B.Write(m, Ticks(after, m), |after.events| - 1))
    else if step.CreateMarket? && step.market !in before.markets && step.market in after.markets then
      Some(B.Create(step.market, Ticks(after, step.market)))
    else None
  }

  function FeedSteps(moves: seq<Move>): seq<FeedStep> {
    if |moves| == 0 then []
    else
      var front := moves[..|moves| - 1];
      match moves[|moves| - 1]
      case OfLedger(step) =>
        var w := Run(LedgerSteps(front));
        (match Caused(w.db, step, Apply(w, step).db)
         case Some(s) => FeedSteps(front) + [s]
         case None => FeedSteps(front))
      case OfFeed(s) =>
        // The store is the ledger's; nothing else writes it.
        if s.Create? || s.Write? then FeedSteps(front) else FeedSteps(front) + [s]
  }

  predicate StoreMatches(db: Db, store: map<MarketId, seq<int>>) {
    store.Keys == db.markets.Keys &&
    forall m :: m in db.markets ==> m in store && HasBoard(db, m) && store[m] == PricesOn(BoardOf(db, m))
  }

  ghost predicate LogMatches(log: seq<Event>, written: set<MarketId>, events: map<EventId, MarketId>) {
    (forall m :: m in written <==> MarketPricesUpdated(m) in log) &&
    forall id :: id in events ==> id < |log|
  }

  ghost predicate Matches(db: Db, w: FeedWorld) {
    StoreMatches(db, w.store) && LogMatches(db.events, w.written, w.events)
  }

  // A step that changes no board and logs nothing causes nothing.
  predicate Quiet(before: Db, after: Db) {
    after.markets.Keys == before.markets.Keys && after.events == before.events && after.outcomes == before.outcomes &&
    forall m :: m in before.markets && m in after.markets ==> after.markets[m].board == before.markets[m].board
  }

  lemma QuietKeepsMatch(before: Db, after: Db, w: FeedWorld)
    requires Matches(before, w) && Quiet(before, after)
    ensures Matches(after, w)
  {
    forall m | m in after.markets ensures m in w.store && HasBoard(after, m) && w.store[m] == PricesOn(BoardOf(after, m)) {
      assert m in before.markets.Keys;
      assert BoardOf(after, m) == BoardOf(before, m);
    }
  }

  // Market m has a board afterwards, and every other market has the board it had.
  predicate OneBoardMoved(before: Db, after: Db, m: MarketId) {
    after.markets.Keys == before.markets.Keys + {m} && HasBoard(after, m) && OthersUnmoved(before, after, m)
  }

  predicate OthersUnmoved(before: Db, after: Db, m: MarketId) {
    forall k :: k in before.markets && k != m ==>
      HasBoard(before, k) && HasBoard(after, k) && BoardOf(after, k) == BoardOf(before, k)
  }

  lemma OneBoardStored(before: Db, after: Db, m: MarketId, store: map<MarketId, seq<int>>)
    requires StoreMatches(before, store) && OneBoardMoved(before, after, m)
    ensures StoreMatches(after, store[m := Ticks(after, m)])
  {
    forall k | k in after.markets && k != m ensures k in store && HasBoard(after, k) && store[k] == PricesOn(BoardOf(after, k)) {
      assert k in before.markets.Keys;
    }
  }

  lemma PlacedHasBoard(db: Db, p: Placement)
    requires Sound(db) && PlacementOk(db, p) && PlaceTx(db, p.bet, p.board, PointsOf(p.board)).Ok?
    ensures HasBoard(Placed(db, p.bet, p.board, PointsOf(p.board)), p.bet.market)
  {
    PlaceKeepsSound(db, p);
  }

  lemma PlacedKeepsOtherBoards(db: Db, p: Placement)
    requires Sound(db) && PlacementOk(db, p) && p.bet.user in db.users
    ensures OthersUnmoved(db, Placed(db, p.bet, p.board, PointsOf(p.board)), p.bet.market)
  {
    forall k | k in db.markets && k != p.bet.market {
      OtherBoardsKept(db, p, k);
    }
  }

  lemma PlacedKeys(db: Db, p: Placement, after: Db)
    requires p.bet.user in db.users && p.bet.market in db.markets
    requires after == Placed(db, p.bet, p.board, PointsOf(p.board))
    ensures after.markets.Keys == db.markets.Keys + {p.bet.market}
  {
  }

  lemma PlacedMovesOneBoard(db: Db, p: Placement)
    requires Sound(db) && PlacementOk(db, p) && PlaceTx(db, p.bet, p.board, PointsOf(p.board)).Ok?
    ensures OneBoardMoved(db, Placed(db, p.bet, p.board, PointsOf(p.board)), p.bet.market)
  {
    var after := Placed(db, p.bet, p.board, PointsOf(p.board));
    PlacedHasBoard(db, p);
    PlacedKeepsOtherBoards(db, p);
    PlacedKeys(db, p, after);
  }

  lemma OpenedMovesOneBoard(db: Db, m: MarketId, ids: seq<OutcomeId>, closesAt: Option<Time>)
    requires Sound(db) && CanOpen(db, m, ids)
    ensures OneBoardMoved(db, OpenMarket(db, m, ids, closesAt), m)
  {
    var after := OpenMarket(db, m, ids, closesAt);
    NewMarketIsPricedRight(db, m, ids, closesAt);
    assert after.markets.Keys == db.markets.Keys + {m};
  }

  lemma PlacedLog(log: seq<Event>, bet: BetId, m: MarketId, written: set<MarketId>, events: map<EventId, MarketId>)
    requires LogMatches(log, written, events)
    ensures var after := log + [BetPlaced(bet), MarketPricesUpdated(m)];
            LogMatches(after, written + {m}, events[|after| - 1 := m])
  {
    var after := log + [BetPlaced(bet), MarketPricesUpdated(m)];
    assert after[|log| + 1] == MarketPricesUpdated(m);
    forall k ensures MarketPricesUpdated(k) in after <==> MarketPricesUpdated(k) in log || k == m {
      if MarketPricesUpdated(k) in log {
        var i :| 0 <= i < |log| && log[i] == MarketPricesUpdated(k);
        assert after[i] == log[i];
      }
    }
  }

  lemma PlacedMatches(db: Db, p: Placement, after: Db, w: FeedWorld)
    requires Matches(db, w)
    requires p.bet.user in db.users && p.bet.market in db.markets
    requires after == Placed(db, p.bet, p.board, PointsOf(p.board)) && OneBoardMoved(db, after, p.bet.market)
    ensures Matches(after, B.Apply(w, B.Write(p.bet.market, Ticks(after, p.bet.market), |after.events| - 1)))
  {
    var m := p.bet.market;
    OneBoardStored(db, after, m, w.store);
    PlacedLog(db.events, p.bet.id, m, w.written, w.events);
    assert |after.events| - 1 !in w.events;
  }

  lemma CausedByPlacement(lw: World, request: RequestId)
    requires request in lw.placing && lw.placing[request].Ready?
    ensures var db, p, after := lw.db, lw.placing[request].placement, ApplyCommitPlace(lw, request).db;
            if PlaceTx(db, p.bet, p.board, PointsOf(p.board)).Ok? then
              after == Placed(db, p.bet, p.board, PointsOf(p.board)) &&
              Caused(db, CommitPlace(request), after) ==
                Some(B.Write(p.bet.market, Ticks(after, p.bet.market), |after.events| - 1))
            else after == db && Caused(db, CommitPlace(request), after) == None
  {
  }

  lemma CreateMarketMatches(db: Db, m: MarketId, ids: seq<OutcomeId>, closesAt: Option<Time>, w: FeedWorld)
    requires m !in db.markets && Matches(db, w) && OneBoardMoved(db, OpenMarket(db, m, ids, closesAt), m)
    ensures var after := OpenMarket(db, m, ids, closesAt);
            Matches(after, B.Apply(w, B.Create(m, Ticks(after, m))))
  {
    OneBoardStored(db, OpenMarket(db, m, ids, closesAt), m, w.store);
    assert m !in w.store.Keys;
  }

  lemma SettleIsQuiet(db: Db, m: MarketId, row: Market, settled: seq<Bet>)
    requires m in db.markets
    ensures Quiet(db, SettleTx(db, m, row, settled))
  {
    SettleRowsMarkets(CloseMarket(db, m, row), settled);
    assert CloseMarket(db, m, row).markets.Keys == db.markets.Keys + {m};
  }

  lemma CommitSettleIsQuiet(w: World, request: RequestId)
    requires Inv(w)
    ensures Quiet(w.db, Apply(w, CommitSettle(request)).db)
  {
    if request in w.resolving && w.resolving[request].Loaded? {
      var r := w.resolving[request];
      assert ResolutionOk(w.db, r);
      SettleIsQuiet(w.db, r.market, ResolvedRow(r.winner), r.settled);
    }
  }

  lemma OtherStepsAreQuiet(w: World, step: Step)
    requires !step.CommitSettle? && !step.CommitPlace? && !step.CreateMarket?
    ensures Quiet(w.db, Apply(w, step).db)
  {
  }

  ghost predicate StaysMatched(lw: World, step: Step, w: FeedWorld) {
    Matches(Apply(lw, step).db, B.AfterCaused(w, Caused(lw.db, step, Apply(lw, step).db)))
  }

  lemma CommittedStaysMatched(lw: World, request: RequestId, p: Placement, after: Db, w: FeedWorld)
    requires request in lw.placing && lw.placing[request] == Ready(p)
    requires PlaceTx(lw.db, p.bet, p.board, PointsOf(p.board)) == Ok(after)
    requires Matches(after, B.Apply(w, B.Write(p.bet.market, Ticks(after, p.bet.market), |after.events| - 1)))
    ensures StaysMatched(lw, CommitPlace(request), w)
  {
    CausedByPlacement(lw, request);
  }

  lemma RefusedStaysMatched(lw: World, request: RequestId, w: FeedWorld)
    requires Matches(lw.db, w) && Apply(lw, CommitPlace(request)).db == lw.db
    ensures StaysMatched(lw, CommitPlace(request), w)
  {
  }

  lemma CommitPlaceStaysMatched(lw: World, request: RequestId, w: FeedWorld)
    requires Matches(lw.db, w)
    requires request in lw.placing && lw.placing[request].Ready? ==>
               var p := lw.placing[request].placement;
               PlaceTx(lw.db, p.bet, p.board, PointsOf(p.board)).Ok? ==>
                 OneBoardMoved(lw.db, Placed(lw.db, p.bet, p.board, PointsOf(p.board)), p.bet.market)
    ensures StaysMatched(lw, CommitPlace(request), w)
  {
    if request in lw.placing && lw.placing[request].Ready? {
      var p := lw.placing[request].placement;
      var tx := PlaceTx(lw.db, p.bet, p.board, PointsOf(p.board));
      if tx.Ok? {
        PlacedMatches(lw.db, p, tx.value, w);
        CommittedStaysMatched(lw, request, p, tx.value, w);
      } else {
        CausedByPlacement(lw, request);
        RefusedStaysMatched(lw, request, w);
      }
    } else {
      RefusedStaysMatched(lw, request, w);
    }
  }

  lemma CreateMarketStaysMatched(lw: World, m: MarketId, ids: seq<OutcomeId>, closesAt: Option<Time>, w: FeedWorld)
    requires Matches(lw.db, w)
    requires CanOpen(lw.db, m, ids) ==> OneBoardMoved(lw.db, OpenMarket(lw.db, m, ids, closesAt), m)
    ensures StaysMatched(lw, CreateMarket(m, ids, closesAt), w)
  {
    if CanOpen(lw.db, m, ids) {
      CreateMarketMatches(lw.db, m, ids, closesAt, w);
    }
  }

  lemma ReadyPlacementMovesOneBoard(lw: World, request: RequestId)
    requires Inv(lw) && request in lw.placing && lw.placing[request].Ready?
    ensures var p := lw.placing[request].placement;
            PlaceTx(lw.db, p.bet, p.board, PointsOf(p.board)).Ok? ==>
              OneBoardMoved(lw.db, Placed(lw.db, p.bet, p.board, PointsOf(p.board)), p.bet.market)
  {
    var p := lw.placing[request].placement;
    assert InFlightOk(lw.db, lw.placing[request]);
    if PlaceTx(lw.db, p.bet, p.board, PointsOf(p.board)).Ok? {
      PlacedMovesOneBoard(lw.db, p);
    }
  }

  lemma QuietStaysMatched(lw: World, step: Step, w: FeedWorld)
    requires Matches(lw.db, w) && Quiet(lw.db, Apply(lw, step).db)
    ensures StaysMatched(lw, step, w)
  {
    QuietKeepsMatch(lw.db, Apply(lw, step).db, w);
    assert step.CreateMarket? && step.market in Apply(lw, step).db.markets.Keys ==> step.market in lw.db.markets.Keys;
  }

  lemma StepMatches(lw: World, step: Step, w: FeedWorld)
    requires Inv(lw) && Matches(lw.db, w)
    ensures StaysMatched(lw, step, w)
  {
    match step
    case CommitPlace(request) =>
      if request in lw.placing && lw.placing[request].Ready? {
        ReadyPlacementMovesOneBoard(lw, request);
      }
      CommitPlaceStaysMatched(lw, request, w);
    case CreateMarket(m, ids, closesAt) =>
      if CanOpen(lw.db, m, ids) {
        OpenedMovesOneBoard(lw.db, m, ids, closesAt);
      }
      CreateMarketStaysMatched(lw, m, ids, closesAt, w);
    case CommitSettle(request) =>
      CommitSettleIsQuiet(lw, request);
      QuietStaysMatched(lw, step, w);
    case _ =>
      OtherStepsAreQuiet(lw, step);
      QuietStaysMatched(lw, step, w);
  }

  /** However ledger, processors and subscribers interleave, the feed reads and writes the ledger's own prices. */
  lemma {:induction false} FeedFollowsLedger(moves: seq<Move>)
    ensures Matches(Run(LedgerSteps(moves)).db, B.Run(FeedSteps(moves)))
  {
    if |moves| > 0 {
      var front := moves[..|moves| - 1];
      var lw, w := Run(LedgerSteps(front)), B.Run(FeedSteps(front));
      FeedFollowsLedger(front);
      match moves[|moves| - 1]
      case OfLedger(step) =>
        RunsKeepInv(LedgerSteps(front));
        StepMatches(lw, step, w);
        RunThen(LedgerSteps(front), step);
        match Caused(lw.db, step, Apply(lw, step).db) {
          case Some(s) => B.RunThen(FeedSteps(front), s);
          case None =>
        }
      case OfFeed(s) =>
        if !s.Create? && !s.Write? {
          B.RunThen(FeedSteps(front), s);
          B.DeliveryLeavesStore(w, s);
        }
    }
  }

  lemma {:induction false} BetsLogPriceEvents(bets: seq<Bet>, i: nat)
    requires i < |bets|
    ensures MarketPricesUpdated(bets[i].market) in EventsOf(bets)
  {
    var n := |bets| - 1;
    if i < n {
      BetsLogPriceEvents(bets[..n], i);
    }
  }

  // The market is stored, and its last ticks are its prices or a price event for it is owed.
  ghost predicate TicksCurrent(moves: seq<Move>, m: MarketId) {
    var db, w := Run(LedgerSteps(moves)).db, B.Run(FeedSteps(moves));
    HasBoard(db, m) && (B.Owed(w, m) || (m in w.last && w.last[m] == PricesOn(BoardOf(db, m))))
  }

  /**
   * While handlers do not overlap on a market, in every state in which it has been bet on a price
   * event for it is still to be delivered, or the ticks last broadcast are its stored prices.
   */
  lemma LastTicksAreStoredPrices(moves: seq<Move>, i: nat)
    requires B.AllAlone(FeedSteps(moves)) && i < |Run(LedgerSteps(moves)).db.bets|
    ensures TicksCurrent(moves, Run(LedgerSteps(moves)).db.bets[i].market)
  {
    var db := Run(LedgerSteps(moves)).db;
    FeedFollowsLedger(moves);
    EventsMirrorBook(LedgerSteps(moves));
    BetsLogPriceEvents(db.bets, i);
    B.LastBroadcastIsCurrent(FeedSteps(moves), db.bets[i].market);
    assert db.bets[i].market in B.Run(FeedSteps(moves)).store.Keys;
  }

  // The client was sent its snapshot, and nothing is owed for its market.
  ghost predicate CaughtUp(w: FeedWorld, c: B.ClientId) {
    c in w.clients && w.clients[c].snapshot.Some? && !B.Owed(w, w.clients[c].key)
  }

  ghost predicate ShowsStored(db: Db, client: B.Client<MarketId, seq<int>>) {
    HasBoard(db, client.key) && client.Shown() == Some(PricesOn(BoardOf(db, client.key)))
  }

  /** A client that joined a market's feed ends up showing its stored prices, bet on or not. */
  lemma JoinedClientsShowStoredPrices(moves: seq<Move>, c: B.ClientId)
    requires B.AllAlone(FeedSteps(moves)) && CaughtUp(B.Run(FeedSteps(moves)), c)
    ensures ShowsStored(Run(LedgerSteps(moves)).db, B.Run(FeedSteps(moves)).clients[c])
  {
    var w := B.Run(FeedSteps(moves));
    FeedFollowsLedger(moves);
    B.JoinedClientsConverge(FeedSteps(moves), c);
    assert w.clients[c].key in w.store.Keys;
  }

  // ----- a single processor -----

  /** With one processor delivering, a bet-on market's last ticks are its stored prices or an event is owed. */
  lemma SingleProcessorTicksAreStoredPrices(moves: seq<Move>, p: B.ProcessorId, i: nat)
    requires B.OnlyReader(FeedSteps(moves), p) && i < |Run(LedgerSteps(moves)).db.bets|
    ensures TicksCurrent(moves, Run(LedgerSteps(moves)).db.bets[i].market)
  {
    B.OnlyReaderIsAlone(FeedSteps(moves), p);
    LastTicksAreStoredPrices(moves, i);
  }

  /** With one processor delivering, a client that is owed nothing shows its market's stored prices. */
  lemma SingleProcessorClientsShowStoredPrices(moves: seq<Move>, p: B.ProcessorId, c: B.ClientId)
    requires B.OnlyReader(FeedSteps(moves), p) && CaughtUp(B.Run(FeedSteps(moves)), c)
    ensures ShowsStored(Run(LedgerSteps(moves)).db, B.Run(FeedSteps(moves)).clients[c])
  {
    B.OnlyReaderIsAlone(FeedSteps(moves), p);
    JoinedClientsShowStoredPrices(moves, c);
  }

  // ----- deliveries do their work -----

  lemma FeedMoveIsStep(moves: seq<Move>, step: FeedStep)
    requires !step.Create? && !step.Write?
    ensures FeedSteps(moves + [OfFeed(step)]) == FeedSteps(moves) + [step]
    ensures LedgerSteps(moves + [OfFeed(step)]) == LedgerSteps(moves)
  {
    assert (moves + [OfFeed(step)])[..|moves|] == moves;
  }

  // The four steps of an undisturbed delivery, as moves.
  function Delivered(moves: seq<Move>, p: B.ProcessorId, id: EventId): seq<Move> {
    moves + [OfFeed(B.ClaimBatch(p, {id}))] + [OfFeed(B.Read(p, id))] + [OfFeed(B.Publish(p, true))] + [OfFeed(B.Commit(p))]
  }

  lemma DeliveredSteps(moves: seq<Move>, p: B.ProcessorId, id: EventId)
    ensures FeedSteps(Delivered(moves, p, id)) == FeedSteps(moves) + B.Delivery(p, id)
    ensures LedgerSteps(Delivered(moves, p, id)) == LedgerSteps(moves)
  {
    var d := B.Delivery(p, id);
    var one := moves + [OfFeed(d[0])];
    var two := one + [OfFeed(d[1])];
    var three := two + [OfFeed(d[2])];
    FeedMoveIsStep(moves, d[0]);
    FeedMoveIsStep(one, d[1]);
    FeedMoveIsStep(two, d[2]);
    FeedMoveIsStep(three, d[3]);
    assert FeedSteps(moves) + d == FeedSteps(moves) + [d[0]] + [d[1]] + [d[2]] + [d[3]];
  }

  /** Delivering a pending price event broadcasts the market's stored prices, and its clients show them. */
  lemma DeliveryBroadcastsStoredPrices(moves: seq<Move>, p: B.ProcessorId, id: EventId)
    requires var w := B.Run(FeedSteps(moves)); p !in w.turns && id in w.pending - B.Claimed(w.turns)
    ensures var w, after := B.Run(FeedSteps(moves)), B.Run(FeedSteps(Delivered(moves, p, id)));
            id in w.events && ShowsEverywhere(Run(LedgerSteps(moves)).db, w, after, w.events[id]) &&
            after.pending == w.pending - {id}
  {
    FeedFollowsLedger(moves);
    DeliveredSteps(moves, p, id);
    B.DeliveryCatchesUp(FeedSteps(moves), p, id);
    CaughtUpShowsStored(Run(LedgerSteps(moves)).db, B.Run(FeedSteps(moves)), B.Run(FeedSteps(moves) + B.Delivery(p, id)), id);
  }

  lemma CaughtUpShowsStored(db: Db, w: FeedWorld, after: FeedWorld, id: EventId)
    requires StoreMatches(db, w.store) && B.CaughtUp(w, after, id)
    ensures ShowsEverywhere(db, w, after, w.events[id]) && after.pending == w.pending - {id}
  {
    assert w.events[id] in w.store.Keys;
  }

  ghost predicate ShowsEverywhere(db: Db, w: FeedWorld, after: FeedWorld, m: MarketId) {
    HasBoard(db, m) && m in after.last && after.last[m] == PricesOn(BoardOf(db, m)) &&
    forall c :: c in w.clients && w.clients[c].key == m ==> c in after.clients && ShowsStored(db, after.clients[c])
  }

  lemma LedgerMoveIsStep(moves: seq<Move>, step: Step)
    ensures LedgerSteps(moves + [OfLedger(step)]) == LedgerSteps(moves) + [step]
    ensures var lw := Run(LedgerSteps(moves)); var caused := Caused(lw.db, step, Apply(lw, step).db);
            FeedSteps(moves + [OfLedger(step)]) == FeedSteps(moves) + (if caused.Some? then [caused.value] else [])
  {
    assert (moves + [OfLedger(step)])[..|moves|] == moves;
    assert FeedSteps(moves) + [] == FeedSteps(moves);
  }

  // The request is priced and its transaction would be accepted.
  predicate Commits(lw: World, request: RequestId, p: Placement) {
    request in lw.placing && lw.placing[request] == Ready(p) && PlaceTx(lw.db, p.bet, p.board, PointsOf(p.board)).Ok?
  }

  lemma CommitCauses(lw: World, request: RequestId, p: Placement)
    requires Commits(lw, request, p)
    ensures var after := Placed(lw.db, p.bet, p.board, PointsOf(p.board));
            Apply(lw, CommitPlace(request)).db == after &&
            Caused(lw.db, CommitPlace(request), Apply(lw, CommitPlace(request)).db) ==
              Some(B.Write(p.bet.market, Ticks(after, p.bet.market), |after.events| - 1))
  {
    CausedByPlacement(lw, request);
  }

  // The ledger's step and the event it leaves, numbered last in the log.
  lemma CommitIsWritten(moves: seq<Move>, request: RequestId, p: Placement)
    requires Commits(Run(LedgerSteps(moves)), request, p)
    ensures var after := Placed(Run(LedgerSteps(moves)).db, p.bet, p.board, PointsOf(p.board));
            var moved := moves + [OfLedger(CommitPlace(request))];
            LedgerSteps(moved) == LedgerSteps(moves) + [CommitPlace(request)] && Run(LedgerSteps(moved)).db == after &&
            FeedSteps(moved) == FeedSteps(moves) + [B.Write(p.bet.market, Ticks(after, p.bet.market), |after.events| - 1)]
  {
    LedgerMoveIsStep(moves, CommitPlace(request));
    CommitCauses(Run(LedgerSteps(moves)), request, p);
    RunThen(LedgerSteps(moves), CommitPlace(request));
  }

  lemma NewEventIsFree(w: FeedWorld, m: MarketId, prices: seq<int>, id: EventId)
    requires B.TurnsOk(w) && id !in w.events
    ensures var after := B.Apply(w, B.Write(m, prices, id));
            after.turns == w.turns && after.clients == w.clients && id in after.events && after.events[id] == m &&
            id in after.pending - B.Claimed(after.turns)
  {
    forall p | p in w.turns ensures id !in w.turns[p].batch {
      assert B.TurnOk(w, w.turns[p]);
    }
  }

  /** A committed bet's price event, once delivered, shows its market's new prices to every client of the market. */
  lemma CommittedBetReachesClients(moves: seq<Move>, request: RequestId, bet: Placement, p: B.ProcessorId)
    requires Commits(Run(LedgerSteps(moves)), request, bet)
    requires p !in B.Run(FeedSteps(moves)).turns
    ensures var moved := moves + [OfLedger(CommitPlace(request))];
            var db := Run(LedgerSteps(moves) + [CommitPlace(request)]).db;
            db.bets == Run(LedgerSteps(moves)).db.bets + [bet.bet] && |db.events| > 0 &&
            ShowsEverywhere(db, B.Run(FeedSteps(moves)), B.Run(FeedSteps(Delivered(moved, p, |db.events| - 1))), bet.bet.market)
  {
    var moved := moves + [OfLedger(CommitPlace(request))];
    var w, db := B.Run(FeedSteps(moves)), Run(LedgerSteps(moved)).db;
    var id := |db.events| - 1;
    CommitIsWritten(moves, request, bet);
    B.RunThen(FeedSteps(moves), B.Write(bet.bet.market, Ticks(db, bet.bet.market), id));
    FeedFollowsLedger(moves);
    B.TurnsOkInEveryRun(FeedSteps(moves));
    NewEventIsFree(w, bet.bet.market, Ticks(db, bet.bet.market), id);
    DeliveryBroadcastsStoredPrices(moved, p, id);
  }
}
