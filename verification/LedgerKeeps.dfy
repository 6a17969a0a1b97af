/** Every transaction of the ledger keeps it sound, and what each one does to money and prices. */
module LedgerKeeps {
  import opened Base
  import opened Sums
  import opened Pricing
  import opened Bets
  import opened Ledger

  // ----- writing boards and points -----

  lemma {:induction false} WriteBoardRows(outcomes: map<OutcomeId, Outcome>, board: seq<Outcome>, bet: Bet)
    requires Distinct(IdsOf(board))
    requires forall i :: 0 <= i < |board| ==> board[i].id in outcomes
    ensures WriteBoard(outcomes, board, bet).Keys == outcomes.Keys
    ensures forall o :: o in outcomes && o !in IdsOf(board) ==> WriteBoard(outcomes, board, bet)[o] == outcomes[o]
    ensures forall i :: 0 <= i < |board| ==>
      WriteBoard(outcomes, board, bet)[board[i].id] ==
      outcomes[board[i].id].(volume := outcomes[board[i].id].volume + StakeFor(board[i].id, bet),
                             price := board[i].price)
  {
    if |board| > 0 {
      var n := |board| - 1;
      var front, ids := board[..n], IdsOf(board);
      assert forall i :: 0 <= i < n ==> IdsOf(front)[i] == ids[i];
      WriteBoardRows(outcomes, front, bet);
      assert board[n].id !in IdsOf(front) by {
        assert forall i :: 0 <= i < n ==> ids[i] != ids[n];
      }
      forall o | o in outcomes && o !in ids
        ensures WriteBoard(outcomes, board, bet)[o] == outcomes[o]
      {
        assert o != ids[n];
        assert o !in IdsOf(front);
      }
      forall i | 0 <= i < n
        ensures WriteBoard(outcomes, board, bet)[board[i].id] ==
                WriteBoard(outcomes, front, bet)[board[i].id]
      {
        assert ids[i] != ids[n];
      }
    }
  }

  lemma {:induction false} InsertBoardRows(outcomes: map<OutcomeId, Outcome>, board: seq<Outcome>)
    requires Distinct(IdsOf(board))
    ensures forall o :: o in InsertBoard(outcomes, board) <==> o in outcomes || o in IdsOf(board)
    ensures forall o :: o in outcomes && o !in IdsOf(board) ==> InsertBoard(outcomes, board)[o] == outcomes[o]
    ensures forall i :: 0 <= i < |board| ==>
      board[i].id in InsertBoard(outcomes, board) && InsertBoard(outcomes, board)[board[i].id] == board[i]
  {
    if |board| > 0 {
      var n := |board| - 1;
      var front, ids := board[..n], IdsOf(board);
      assert IdsOf(front) == ids[..n];
      assert ids == IdsOf(front) + [ids[n]];
      InsertBoardRows(outcomes, front);
      forall i | 0 <= i < n
        ensures board[i].id in InsertBoard(outcomes, board) && InsertBoard(outcomes, board)[board[i].id] == board[i]
      {
        assert ids[i] != ids[n] && front[i] == board[i];
      }
    }
  }

  lemma {:induction false} LastPointAppended(points: seq<PricePoint>, board: seq<Outcome>, o: OutcomeId)
    requires Distinct(IdsOf(board))
    ensures o !in IdsOf(board) ==> LastPoint(points + PointsOf(board), o) == LastPoint(points, o)
    ensures forall i :: 0 <= i < |board| && board[i].id == o ==>
      LastPoint(points + PointsOf(board), o) == Some(board[i].price)
  {
    var all := points + PointsOf(board);
    if |board| == 0 {
      assert all == points;
    } else {
      var n := |board| - 1;
      var front, ids := board[..n], IdsOf(board);
      assert IdsOf(front) == ids[..n];
      assert all[..|all| - 1] == points + PointsOf(front);
      assert all[|all| - 1] == PricePoint(board[n].id, board[n].price);
      LastPointAppended(points, front, o);
      assert o in ids <==> o in IdsOf(front) || o == ids[n] by {
        assert ids == IdsOf(front) + [ids[n]];
      }
      forall i | 0 <= i < |board| && board[i].id == o
        ensures LastPoint(all, o) == Some(board[i].price)
      {
        assert ids[i] == o;
        assert i < n ==> front[i] == board[i] && ids[i] != ids[n];
      }
    }
  }

  // ----- registering and opening -----

  lemma RegisterKeepsSound(db: Db, u: UserId)
    requires Sound(db) && u !in db.users
    ensures Sound(db.(users := db.users[u := STARTING_BALANCE]))
  {
    BetsSurviveRegister(db.users, db.markets, db.bets, u);
  }

  lemma RegisterKeepsAccounted(db: Db, u: UserId)
    requires BetsOk(db.users, db.markets, db.bets) && Accounted(db) && u !in db.users
    ensures Accounted(db.(users := db.users[u := STARTING_BALANCE]))
  {
    NewcomerOwesNothing(db.users, db.markets, db.bets, u);
  }

  lemma NewcomerOwesNothing(users: map<UserId, int>, markets: map<MarketId, Market>, bets: seq<Bet>, u: UserId)
    requires BetsOk(users, markets, bets) && u !in users
    ensures Owed(bets, u) == STARTING_BALANCE
  {
    forall b | b in bets ensures b.user != u {
      var i :| 0 <= i < |bets| && bets[i] == b;
      assert BetOk(users, markets, bets[i]);
    }
    SumZero(bets, StakeBy(u));
    SumZero(bets, PaidTo(u));
  }

  lemma BetsSurviveRegister(users: map<UserId, int>, markets: map<MarketId, Market>, bets: seq<Bet>, u: UserId)
    requires BetsOk(users, markets, bets)
    ensures BetsOk(users[u := STARTING_BALANCE], markets, bets)
  {
    forall i | 0 <= i < |bets| ensures BetOk(users[u := STARTING_BALANCE], markets, bets[i]) {
      assert BetOk(users, markets, bets[i]);
    }
  }

  lemma NewBoardPriced(m: MarketId, ids: seq<OutcomeId>)
    requires |ids| > 0
    ensures BoardPriced(PricesOn(Repriced(Unpriced(m, ids))))
    ensures IdsOf(Repriced(Unpriced(m, ids))) == ids
    ensures forall i :: 0 <= i < |ids| ==> Repriced(Unpriced(m, ids))[i].id == ids[i]
    ensures forall i :: 0 <= i < |ids| ==> Repriced(Unpriced(m, ids))[i].market == m
    ensures forall i :: 0 <= i < |ids| ==> Repriced(Unpriced(m, ids))[i].volume == 0
  {
    var v := Volumes(Unpriced(m, ids));
    PricesSumToScale(v);
    assert PricesOn(Repriced(Unpriced(m, ids))) == Prices(v);
  }

  lemma OpenMarketKeepsSound(db: Db, m: MarketId, ids: seq<OutcomeId>, closesAt: Option<Time>)
    requires Sound(db) && CanOpen(db, m, ids)
    ensures Sound(OpenMarket(db, m, ids, closesAt))
  {
    var market := Market(Open, None, 0, 0, closesAt, ids);
    var board := Repriced(Unpriced(m, ids));
    var outcomes := InsertBoard(db.outcomes, board);
    NewBoardPriced(m, ids);
    InsertBoardRows(db.outcomes, board);
    OpenKeepsBoards(db.markets, db.outcomes, outcomes, m, market, board);
    OpenKeepsPrices(db.markets, db.outcomes, outcomes, m, market, board);
    OpenKeepsPoints(db.outcomes, outcomes, db.points, board);
    OpenKeepsBets(db.users, db.markets, db.bets, m, market);
    OpenKeepsTotals(db.users, db.markets, db.outcomes, outcomes, db.bets, m, market, board);
  }

  lemma OpenMarketKeepsAccounted(db: Db, m: MarketId, ids: seq<OutcomeId>, closesAt: Option<Time>)
    requires Accounted(db) && CanOpen(db, m, ids)
    ensures Accounted(OpenMarket(db, m, ids, closesAt))
  {
    var markets := OpenMarket(db, m, ids, closesAt).markets;
    forall i | 0 <= i < |db.bets| ensures WinnerOk(markets, db.bets[i]) {
      assert WinnerOk(db.markets, db.bets[i]);
    }
  }

  ghost predicate Extends(before: map<OutcomeId, Outcome>, after: map<OutcomeId, Outcome>, board: seq<Outcome>) {
    Distinct(IdsOf(board)) &&
    (forall o :: o in after <==> o in before || o in IdsOf(board)) &&
    (forall o :: o in before ==> o !in IdsOf(board) && after[o] == before[o]) &&
    (forall i :: 0 <= i < |board| ==> IdsOf(board)[i] in after && after[IdsOf(board)[i]] == board[i])
  }

  lemma OpenKeepsBoards(markets: map<MarketId, Market>, before: map<OutcomeId, Outcome>,
                        after: map<OutcomeId, Outcome>, m: MarketId, market: Market, board: seq<Outcome>)
    requires BoardsOk(markets, before) && Extends(before, after, board)
    requires m !in markets && market.board == IdsOf(board) && |board| >= 2
    requires forall i :: 0 <= i < |board| ==> board[i].market == m
    ensures BoardsOk(markets[m := market], after)
  {
    var markets' := markets[m := market];
    forall k | k in markets' ensures BoardOk(after, k, markets'[k].board) {
      if k == m {
        assert forall i :: 0 <= i < |board| ==> Lists(after, m, IdsOf(board)[i]);
      } else {
        assert BoardOk(before, k, markets[k].board);
        forall i | 0 <= i < |markets[k].board| ensures Lists(after, k, markets[k].board[i]) {
          assert Lists(before, k, markets[k].board[i]);
        }
      }
    }
    forall o | o in after ensures BelongsTo(markets', after[o].market, o) {
      if o in IdsOf(board) {
        var i :| 0 <= i < |board| && IdsOf(board)[i] == o;
        assert after[o] == board[i];
      } else {
        assert BelongsTo(markets, before[o].market, o);
      }
    }
  }

  lemma OpenKeepsPrices(markets: map<MarketId, Market>, before: map<OutcomeId, Outcome>,
                        after: map<OutcomeId, Outcome>, m: MarketId, market: Market, board: seq<Outcome>)
    requires PricesOk(markets, before) && Extends(before, after, board)
    requires m !in markets && market.board == IdsOf(board) && BoardPriced(PricesOn(board))
    ensures PricesOk(markets[m := market], after)
  {
    var markets' := markets[m := market];
    forall k | k in markets'
      ensures Stored(markets'[k].board, after) && BoardPriced(PricesOn(Board(markets'[k].board, after)))
    {
      if k == m {
        assert Board(market.board, after) == board;
      } else {
        assert Stored(markets[k].board, before);
        assert Board(markets[k].board, after) == Board(markets[k].board, before);
      }
    }
  }

  lemma OpenKeepsPoints(before: map<OutcomeId, Outcome>, after: map<OutcomeId, Outcome>,
                        points: seq<PricePoint>, board: seq<Outcome>)
    requires PointsOk(before, points) && Extends(before, after, board)
    requires forall i :: 0 <= i < |board| ==> board[i].id == IdsOf(board)[i]
    ensures PointsOk(after, points + PointsOf(board))
  {
    forall o | o in after ensures LastPoint(points + PointsOf(board), o) == Some(after[o].price) {
      LastPointAppended(points, board, o);
      if o in IdsOf(board) {
        var i :| 0 <= i < |board| && IdsOf(board)[i] == o;
        assert after[o] == board[i];
      }
    }
  }

  lemma OpenKeepsBets(users: map<UserId, int>, markets: map<MarketId, Market>, bets: seq<Bet>,
                      m: MarketId, market: Market)
    requires BetsOk(users, markets, bets) && m !in markets
    ensures BetsOk(users, markets[m := market], bets)
  {
    forall i | 0 <= i < |bets| ensures BetOk(users, markets[m := market], bets[i]) {
      assert BetOk(users, markets, bets[i]);
    }
  }

  lemma BetsAreOnStoredOutcomes(users: map<UserId, int>, markets: map<MarketId, Market>, outcomes: map<OutcomeId, Outcome>,
                                bets: seq<Bet>)
    requires BetsOk(users, markets, bets) && BoardsOk(markets, outcomes)
    ensures forall b :: b in bets ==> b.market in markets && b.outcome in outcomes
  {
    forall b | b in bets ensures b.market in markets && b.outcome in outcomes {
      var i :| 0 <= i < |bets| && bets[i] == b;
      assert BetOk(users, markets, b);
      var ids := markets[b.market].board;
      assert BoardOk(outcomes, b.market, ids);
      var k :| 0 <= k < |ids| && ids[k] == b.outcome;
      assert Lists(outcomes, b.market, ids[k]);
    }
  }

  lemma OpenKeepsVolumes(before: map<OutcomeId, Outcome>, after: map<OutcomeId, Outcome>, bets: seq<Bet>, board: seq<Outcome>)
    requires Extends(before, after, board) && VolumesOk(before, bets) && forall b :: b in bets ==> b.outcome in before
    requires forall i :: 0 <= i < |board| ==> board[i].volume == 0
    ensures VolumesOk(after, bets)
  {
    forall o | o in after ensures after[o].volume == SumBy(bets, StakeOn(o)) {
      if o in IdsOf(board) {
        var i :| 0 <= i < |board| && IdsOf(board)[i] == o;
        assert after[o] == board[i];
        SumZero(bets, StakeOn(o));
      }
    }
  }

  lemma OpenKeepsTotals(users: map<UserId, int>, markets: map<MarketId, Market>, before: map<OutcomeId, Outcome>,
                        after: map<OutcomeId, Outcome>, bets: seq<Bet>, m: MarketId, market: Market,
                        board: seq<Outcome>)
    requires BetsOk(users, markets, bets) && BoardsOk(markets, before) && Extends(before, after, board)
    requires VolumesOk(before, bets) && AggregatesOk(markets, bets)
    requires m !in markets && market.totalVolume == 0 && market.participants == 0
    requires forall i :: 0 <= i < |board| ==> board[i].volume == 0
    ensures VolumesOk(after, bets) && AggregatesOk(markets[m := market], bets)
  {
    BetsAreOnStoredOutcomes(users, markets, before, bets);
    OpenKeepsVolumes(before, after, bets, board);
    SumZero(bets, StakeIn(m));
    assert Bettors(bets, m) == {};
  }

  // ----- place -----

  // The rows of one market's board, re-priced, with the stake on one of them; nothing else moves.
  ghost predicate Wrote(before: map<OutcomeId, Outcome>, after: map<OutcomeId, Outcome>, ids: seq<OutcomeId>,
                  board: seq<Outcome>, bet: Bet)
  {
    Distinct(ids) && |board| == |ids| && Stored(ids, before) && after.Keys == before.Keys &&
    (forall o :: o in before && o !in ids ==> after[o] == before[o]) &&
    (forall i :: 0 <= i < |ids| ==>
      after[ids[i]] == before[ids[i]].(volume := before[ids[i]].volume + StakeFor(ids[i], bet),
                                       price := board[i].price))
  }

  lemma WriteBoardWrote(outcomes: map<OutcomeId, Outcome>, m: MarketId, ids: seq<OutcomeId>,
                        board: seq<Outcome>, bet: Bet)
    requires BoardOk(outcomes, m, ids) && IdsOf(board) == ids
    ensures Wrote(outcomes, WriteBoard(outcomes, board, bet), ids, board, bet)
  {
    assert forall i :: 0 <= i < |ids| ==> board[i].id == IdsOf(board)[i] && Lists(outcomes, m, ids[i]);
    WriteBoardRows(outcomes, board, bet);
  }

  lemma PlaceKeepsBoards(markets: map<MarketId, Market>, before: map<OutcomeId, Outcome>,
                         after: map<OutcomeId, Outcome>, m: MarketId, market: Market, board: seq<Outcome>, bet: Bet)
    requires BoardsOk(markets, before) && m in markets && market.board == markets[m].board
    requires Wrote(before, after, market.board, board, bet)
    ensures BoardsOk(markets[m := market], after)
  {
    var markets' := markets[m := market];
    forall o | o in before ensures after[o].id == before[o].id && after[o].market == before[o].market {
      if o in market.board {
        var i :| 0 <= i < |market.board| && market.board[i] == o;
      }
    }
    forall k | k in markets' ensures BoardOk(after, k, markets'[k].board) {
      assert BoardOk(before, k, markets[k].board);
      forall i | 0 <= i < |markets[k].board| ensures Lists(after, k, markets[k].board[i]) {
        assert Lists(before, k, markets[k].board[i]);
      }
    }
    forall o | o in after ensures BelongsTo(markets', after[o].market, o) {
      assert BelongsTo(markets, before[o].market, o);
    }
  }

  lemma BoardsDisjoint(markets: map<MarketId, Market>, outcomes: map<OutcomeId, Outcome>, m: MarketId, k: MarketId)
    requires BoardsOk(markets, outcomes) && m in markets && k in markets && m != k
    ensures forall i :: 0 <= i < |markets[k].board| ==> markets[k].board[i] !in markets[m].board
  {
    forall i | 0 <= i < |markets[k].board| ensures markets[k].board[i] !in markets[m].board {
      assert BoardOk(outcomes, k, markets[k].board) && BoardOk(outcomes, m, markets[m].board);
      assert Lists(outcomes, k, markets[k].board[i]);
      assert forall o :: o in markets[m].board ==> Lists(outcomes, m, o);
    }
  }

  lemma PlaceKeepsPrices(markets: map<MarketId, Market>, before: map<OutcomeId, Outcome>,
                         after: map<OutcomeId, Outcome>, m: MarketId, market: Market, board: seq<Outcome>, bet: Bet)
    requires BoardsOk(markets, before) && PricesOk(markets, before)
    requires m in markets && market.board == markets[m].board && BoardPriced(PricesOn(board))
    requires Wrote(before, after, market.board, board, bet)
    ensures PricesOk(markets[m := market], after)
    ensures PricesOn(Board(market.board, after)) == PricesOn(board)
  {
    WrittenPrices(before, after, market.board, board, bet);
    assert PricedIn(after, market.board);
    forall k | k in markets && k != m ensures PricedIn(after, markets[k].board) {
      OtherPricesKept(markets, before, after, m, board, bet, k);
    }
  }

  lemma OtherPricesKept(markets: map<MarketId, Market>, before: map<OutcomeId, Outcome>,
                        after: map<OutcomeId, Outcome>, m: MarketId, board: seq<Outcome>, bet: Bet, k: MarketId)
    requires BoardsOk(markets, before) && m in markets && k in markets && k != m
    requires Wrote(before, after, markets[m].board, board, bet) && PricedIn(before, markets[k].board)
    ensures PricedIn(after, markets[k].board)
  {
    OtherBoardKept(markets, before, after, m, board, bet, k);
  }

  lemma OtherBoardKept(markets: map<MarketId, Market>, before: map<OutcomeId, Outcome>,
                       after: map<OutcomeId, Outcome>, m: MarketId, board: seq<Outcome>, bet: Bet, k: MarketId)
    requires BoardsOk(markets, before) && m in markets && k in markets && k != m
    requires Wrote(before, after, markets[m].board, board, bet) && Stored(markets[k].board, before)
    ensures Stored(markets[k].board, after) && Board(markets[k].board, after) == Board(markets[k].board, before)
  {
    BoardsDisjoint(markets, before, m, k);
    OtherBoardsUntouched(before, after, markets[m].board, board, bet, markets[k].board);
  }

  lemma WrittenPrices(before: map<OutcomeId, Outcome>, after: map<OutcomeId, Outcome>, ids: seq<OutcomeId>,
                      board: seq<Outcome>, bet: Bet)
    requires Wrote(before, after, ids, board, bet)
    ensures Stored(ids, after) && PricesOn(Board(ids, after)) == PricesOn(board)
  {
    assert forall i :: 0 <= i < |ids| ==> ids[i] in before.Keys;
    forall i | 0 <= i < |ids| ensures PricesOn(Board(ids, after))[i] == PricesOn(board)[i] {
      assert after[ids[i]].price == board[i].price;
    }
  }

  lemma OtherBoardsUntouched(before: map<OutcomeId, Outcome>, after: map<OutcomeId, Outcome>, ids: seq<OutcomeId>,
                             board: seq<Outcome>, bet: Bet, others: seq<OutcomeId>)
    requires Wrote(before, after, ids, board, bet) && Stored(others, before)
    requires forall i :: 0 <= i < |others| ==> others[i] !in ids
    ensures Stored(others, after) && Board(others, after) == Board(others, before)
  {
    assert forall i :: 0 <= i < |others| ==> others[i] in before.Keys && after[others[i]] == before[others[i]];
  }

  lemma PlaceKeepsPoints(before: map<OutcomeId, Outcome>, after: map<OutcomeId, Outcome>, ids: seq<OutcomeId>,
                         points: seq<PricePoint>, board: seq<Outcome>, bet: Bet)
    requires PointsOk(before, points) && Wrote(before, after, ids, board, bet) && IdsOf(board) == ids
    ensures PointsOk(after, points + PointsOf(board))
  {
    forall o | o in after ensures LastPoint(points + PointsOf(board), o) == Some(after[o].price) {
      LastPointAppended(points, board, o);
      if o in ids {
        var i :| 0 <= i < |ids| && ids[i] == o;
        assert board[i].id == IdsOf(board)[i];
      }
    }
  }

  lemma PlaceKeepsVolumes(before: map<OutcomeId, Outcome>, after: map<OutcomeId, Outcome>, ids: seq<OutcomeId>,
                          board: seq<Outcome>, bets: seq<Bet>, bet: Bet)
    requires VolumesOk(before, bets) && Wrote(before, after, ids, board, bet) && bet.outcome in ids
    ensures VolumesOk(after, bets + [bet])
  {
    forall o | o in after ensures after[o].volume == SumBy(bets + [bet], StakeOn(o)) {
      SumSnoc(bets, bet, StakeOn(o));
      if o in ids {
        var i :| 0 <= i < |ids| && ids[i] == o;
      }
    }
  }

  lemma BettorsAfterPlace(bets: seq<Bet>, bet: Bet, m: MarketId)
    ensures |Bettors(bets + [bet], m)| ==
            |Bettors(bets, m)| + (if bet.market == m && !RepeatBettor(bets, bet) then 1 else 0)
  {
    var before, after := Bettors(bets, m), Bettors(bets + [bet], m);
    assert forall b :: b in bets + [bet] <==> b in bets || b == bet;
    if bet.market == m {
      assert after == before + {bet.user} by {
        forall u | u in before + {bet.user} ensures u in after {
          if u in before {
            var b :| b in bets && b.market == m && b.user == u;
            assert b in bets + [bet];
          } else {
            assert bet in bets + [bet];
          }
        }
      }
      assert RepeatBettor(bets, bet) <==> bet.user in before by {
        if bet.user in before {
          var b :| b in bets && b.market == m && b.user == bet.user;
          var i :| 0 <= i < |bets| && bets[i] == b;
        }
      }
    } else {
      assert after == before by {
        forall u | u in before ensures u in after {
          var b :| b in bets && b.market == m && b.user == u;
          assert b in bets + [bet];
        }
      }
    }
  }

  lemma PlaceKeepsAggregates(markets: map<MarketId, Market>, bets: seq<Bet>, bet: Bet, market: Market)
    requires AggregatesOk(markets, bets) && bet.market in markets
    requires market.totalVolume == markets[bet.market].totalVolume + bet.amount
    requires market.participants == markets[bet.market].participants + (if RepeatBettor(bets, bet) then 0 else 1)
    ensures AggregatesOk(markets[bet.market := market], bets + [bet])
  {
    var markets' := markets[bet.market := market];
    forall m | m in markets'
      ensures markets'[m].totalVolume == SumBy(bets + [bet], StakeIn(m))
      ensures markets'[m].participants == |Bettors(bets + [bet], m)|
    {
      SumSnoc(bets, bet, StakeIn(m));
      BettorsAfterPlace(bets, bet, m);
    }
  }

  lemma PlaceKeepsBets(users: map<UserId, int>, markets: map<MarketId, Market>, bets: seq<Bet>, bet: Bet,
                       users': map<UserId, int>, market: Market)
    requires BetsOk(users, markets, bets) && users'.Keys == users.Keys && bet.user in users
    requires BelongsTo(markets, bet.market, bet.outcome)
    requires market.board == markets[bet.market].board
    requires forall i :: 0 <= i < |bets| ==> bets[i].id != bet.id
    requires bet.amount > 0 && 0 < bet.price <= SCALE && bet.status == Active && bet.payout == None
    ensures BetsOk(users', markets[bet.market := market], bets + [bet])
  {
    var markets' := markets[bet.market := market];
    forall i | 0 <= i < |bets + [bet]| ensures BetOk(users', markets', (bets + [bet])[i]) {
      if i < |bets| {
        assert BetOk(users, markets, bets[i]);
      }
    }
  }

  lemma PlacedBoardsAndPrices(db: Db, p: Placement)
    requires BoardsOk(db.markets, db.outcomes) && PricesOk(db.markets, db.outcomes)
    requires PointsOk(db.outcomes, db.points) && VolumesOk(db.outcomes, db.bets)
    requires PlacementOk(db, p) && p.bet.user in db.users
    ensures var db' := Placed(db, p.bet, p.board, PointsOf(p.board));
            BoardsOk(db'.markets, db'.outcomes) && PricesOk(db'.markets, db'.outcomes) &&
            PointsOk(db'.outcomes, db'.points) && VolumesOk(db'.outcomes, db'.bets)
    ensures var db' := Placed(db, p.bet, p.board, PointsOf(p.board));
            Wrote(db.outcomes, db'.outcomes, db.markets[p.bet.market].board, p.board, p.bet)
  {
    var bet, m, ids := p.bet, p.bet.market, db.markets[p.bet.market].board;
    var db' := Placed(db, bet, p.board, PointsOf(p.board));
    WriteBoardWrote(db.outcomes, m, ids, p.board, bet);
    PlaceKeepsBoards(db.markets, db.outcomes, db'.outcomes, m, db'.markets[m], p.board, bet);
    PlaceKeepsPrices(db.markets, db.outcomes, db'.outcomes, m, db'.markets[m], p.board, bet);
    PlaceKeepsPoints(db.outcomes, db'.outcomes, ids, db.points, p.board, bet);
    PlaceKeepsVolumes(db.outcomes, db'.outcomes, ids, p.board, db.bets, bet);
  }

  lemma PlacedBets(db: Db, p: Placement)
    requires BetsOk(db.users, db.markets, db.bets) && NoDebt(db.users) && PlacementOk(db, p)
    requires p.bet.user in db.users && p.bet.amount <= db.users[p.bet.user] && Insertable(db, p.bet)
    ensures var db' := Placed(db, p.bet, p.board, PointsOf(p.board));
            BetsOk(db'.users, db'.markets, db'.bets) && NoDebt(db'.users)
  {
    var db' := Placed(db, p.bet, p.board, PointsOf(p.board));
    PlaceKeepsBets(db.users, db.markets, db.bets, p.bet, db'.users, db'.markets[p.bet.market]);
  }

  /** However stale the snapshot behind it, a committed placement leaves the ledger sound. */
  lemma PlaceKeepsSound(db: Db, p: Placement)
    requires Sound(db) && PlacementOk(db, p)
    requires PlaceTx(db, p.bet, p.board, PointsOf(p.board)).Ok?
    ensures Sound(PlaceTx(db, p.bet, p.board, PointsOf(p.board)).value)
  {
    PlacedBoardsAndPrices(db, p);
    PlacedBets(db, p);
    PlaceKeepsAggregates(db.markets, db.bets, p.bet,
                         Placed(db, p.bet, p.board, PointsOf(p.board)).markets[p.bet.market]);
  }

  lemma PlaceKeepsWinners(markets: map<MarketId, Market>, bets: seq<Bet>, bet: Bet, market: Market)
    requires WinnersOk(markets, bets) && bet.market in markets && bet.status == Active
    requires market.status == markets[bet.market].status && market.winner == markets[bet.market].winner
    ensures WinnersOk(markets[bet.market := market], bets + [bet])
  {
    forall i | 0 <= i < |bets| ensures WinnerOk(markets[bet.market := market], bets[i]) {
      assert WinnerOk(markets, bets[i]);
    }
  }

  // A commit moves both sides of the books by the stake: they balance after it exactly if they did before.
  lemma PlaceKeepsBooksIff(db: Db, bet: Bet, board: seq<Outcome>, points: seq<PricePoint>)
    requires PlaceTx(db, bet, board, points).Ok? && bet.payout == None
    ensures var db' := PlaceTx(db, bet, board, points).value;
            BooksBalance(db'.users, db'.bets) <==> BooksBalance(db.users, db.bets)
  {
    var db' := PlaceTx(db, bet, board, points).value;
    forall u | u in db.users ensures db'.users[u] - Owed(db'.bets, u) == db.users[u] - Owed(db.bets, u) {
      SumSnoc(db.bets, bet, StakeBy(u));
      SumSnoc(db.bets, bet, PaidTo(u));
    }
    assert db'.users.Keys == db.users.Keys + {bet.user};
  }

  lemma PlaceKeepsAccounted(db: Db, p: Placement)
    requires Accounted(db) && p.bet.status == Active && p.bet.payout == None
    requires PlaceTx(db, p.bet, p.board, PointsOf(p.board)).Ok?
    ensures Accounted(PlaceTx(db, p.bet, p.board, PointsOf(p.board)).value)
  {
    PlaceKeepsBooksIff(db, p.bet, p.board, PointsOf(p.board));
    PlaceKeepsWinners(db.markets, db.bets, p.bet,
                      Placed(db, p.bet, p.board, PointsOf(p.board)).markets[p.bet.market]);
  }

  // ----- settle -----

  // `s` is what deciding the bet stored at k, of market m, by `winner` makes of it.
  ghost predicate Settles(bets: seq<Bet>, k: nat, s: Bet, m: MarketId, winner: OutcomeId) {
    k < |bets| && bets[k].market == m && bets[k].price > 0 && s == Settled(bets[k], winner)
  }

  ghost predicate SettlesSome(bets: seq<Bet>, s: Bet, m: MarketId, winner: OutcomeId) {
    exists k: nat :: Settles(bets, k, s, m, winner)
  }

  ghost predicate SettlesFrom(bets: seq<Bet>, settled: seq<Bet>, n: nat, m: MarketId, winner: OutcomeId) {
    forall i :: n <= i < |settled| ==> SettlesSome(bets, settled[i], m, winner)
  }

  // A list a resolution may hold: decided forms of stored bets, whatever became of those since.
  ghost predicate SettlesRows(bets: seq<Bet>, settled: seq<Bet>, m: MarketId, winner: OutcomeId) {
    DistinctIds(settled) && SettlesFrom(bets, settled, 0, m, winner)
  }

  predicate RowsOpen(bets: seq<Bet>, settled: seq<Bet>) {
    forall i, j :: 0 <= i < |bets| && 0 <= j < |settled| && bets[i].id == settled[j].id ==> bets[i].status == Active
  }

  // ... and the same list while all of those are still open.
  ghost predicate SettlesOpenBets(bets: seq<Bet>, settled: seq<Bet>, m: MarketId, winner: OutcomeId) {
    SettlesRows(bets, settled, m, winner) && RowsOpen(bets, settled)
  }

  lemma CloseKeepsSound(db: Db, m: MarketId, market: Market)
    requires Sound(db)
    ensures Sound(CloseMarket(db, m, market))
  {
    if m in db.markets {
      var row := db.markets[m].(status := market.status, winner := market.winner);
      CloseKeepsBoards(db.markets, db.outcomes, m, row);
      CloseKeepsPrices(db.markets, db.outcomes, m, row);
      CloseKeepsBets(db.users, db.markets, db.bets, m, row);
    }
  }

  lemma CloseKeepsBoards(markets: map<MarketId, Market>, outcomes: map<OutcomeId, Outcome>, m: MarketId, row: Market)
    requires BoardsOk(markets, outcomes) && m in markets && row.board == markets[m].board
    ensures BoardsOk(markets[m := row], outcomes)
  {
    forall o | o in outcomes ensures BelongsTo(markets[m := row], outcomes[o].market, o) {
      assert BelongsTo(markets, outcomes[o].market, o);
    }
  }

  lemma CloseKeepsPrices(markets: map<MarketId, Market>, outcomes: map<OutcomeId, Outcome>, m: MarketId, row: Market)
    requires PricesOk(markets, outcomes) && m in markets && row.board == markets[m].board
    ensures PricesOk(markets[m := row], outcomes)
  {
  }

  lemma CloseKeepsBets(users: map<UserId, int>, markets: map<MarketId, Market>, bets: seq<Bet>, m: MarketId, row: Market)
    requires BetsOk(users, markets, bets) && m in markets && row.board == markets[m].board
    ensures BetsOk(users, markets[m := row], bets)
  {
    forall i | 0 <= i < |bets| ensures BetOk(users, markets[m := row], bets[i]) {
      assert BetOk(users, markets, bets[i]);
    }
  }

  lemma SetBetAt(bets: seq<Bet>, s: Bet, k: nat)
    requires DistinctIds(bets) && k < |bets| && bets[k].id == s.id
    ensures SetBet(bets, s) == bets[k := bets[k].(status := s.status, payout := s.payout)]
  {
  }

  lemma BettorsAfterSet(bets: seq<Bet>, k: nat, b: Bet, m: MarketId)
    requires k < |bets| && b.user == bets[k].user && b.market == bets[k].market
    ensures Bettors(bets[k := b], m) == Bettors(bets, m)
  {
    var after := bets[k := b];
    forall u | u in Bettors(bets, m) ensures u in Bettors(after, m) {
      var x :| x in bets && x.market == m && x.user == u;
      var i :| 0 <= i < |bets| && bets[i] == x;
      assert after[i] in after;
    }
    forall u | u in Bettors(after, m) ensures u in Bettors(bets, m) {
      var x :| x in after && x.market == m && x.user == u;
      var i :| 0 <= i < |after| && after[i] == x;
      assert bets[i] in bets;
    }
  }

  lemma SetKeepsTotals(markets: map<MarketId, Market>, outcomes: map<OutcomeId, Outcome>, bets: seq<Bet>, k: nat, s: Bet)
    requires VolumesOk(outcomes, bets) && AggregatesOk(markets, bets) && k < |bets|
    requires s == bets[k].(status := s.status, payout := s.payout)
    ensures VolumesOk(outcomes, bets[k := s]) && AggregatesOk(markets, bets[k := s])
  {
    forall o | o in outcomes ensures SumBy(bets[k := s], StakeOn(o)) == SumBy(bets, StakeOn(o)) {
      SumUpdate(bets, k, s, StakeOn(o));
    }
    forall m | m in markets
      ensures SumBy(bets[k := s], StakeIn(m)) == SumBy(bets, StakeIn(m))
      ensures Bettors(bets[k := s], m) == Bettors(bets, m)
    {
      SumUpdate(bets, k, s, StakeIn(m));
      BettorsAfterSet(bets, k, s, m);
    }
  }

  lemma SettleOneKeepsBets(users: map<UserId, int>, markets: map<MarketId, Market>, bets: seq<Bet>, k: nat, s: Bet,
                           m: MarketId, winner: OutcomeId)
    requires BetsOk(users, markets, bets) && Settles(bets, k, s, m, winner)
    ensures BetsOk(Credit(users, s), markets, bets[k := s])
    ensures bets[k].amount > 0 && bets[k].price <= SCALE
  {
    assert BetOk(users, markets, bets[k]);
    var after := bets[k := s];
    forall i | 0 <= i < |after| ensures BetOk(Credit(users, s), markets, after[i]) {
      assert BetOk(users, markets, bets[i]);
    }
  }

  lemma SettleOneKeepsSound(db: Db, s: Bet, k: nat, m: MarketId, winner: OutcomeId)
    requires Sound(db) && Settles(db.bets, k, s, m, winner)
    ensures SetBet(db.bets, s) == db.bets[k := s]
    ensures Sound(SettleOne(db, s))
  {
    SetBetAt(db.bets, s, k);
    SettleOneKeepsBets(db.users, db.markets, db.bets, k, s, m, winner);
    PayoutNotNegative(db.bets[k].amount, db.bets[k].price);
    SetKeepsTotals(db.markets, db.outcomes, db.bets, k, s);
  }

  lemma PayoutNotNegative(amount: int, price: int)
    requires amount > 0 && 0 < price <= SCALE
    ensures Payout(amount, price) > 0
  {
    QuotientAtLeastIff(Min(amount * SCALE, I64_MAX), price, 1);
  }

  lemma OthersStayListed(bets: seq<Bet>, settled: seq<Bet>, n: nat, k: nat, m: MarketId, winner: OutcomeId)
    requires DistinctIds(settled) && n < |settled| && SettlesFrom(bets, settled, n, m, winner)
    requires Settles(bets, k, settled[n], m, winner)
    ensures SettlesFrom(bets[k := settled[n]], settled, n + 1, m, winner)
  {
    var after := bets[k := settled[n]];
    forall i | n + 1 <= i < |settled| ensures SettlesSome(after, settled[i], m, winner) {
      assert SettlesSome(bets, settled[i], m, winner);
      var j: nat :| Settles(bets, j, settled[i], m, winner);
      assert settled[n].id != settled[i].id;
      assert bets[j].id == settled[i].id && bets[k].id == settled[n].id;
      assert after[j] == bets[j];
      assert Settles(after, j, settled[i], m, winner);
    }
  }

  lemma SettleStepKeepsSound(db: Db, settled: seq<Bet>, n: nat, m: MarketId, winner: OutcomeId)
    requires Sound(db) && n < |settled|
    requires DistinctIds(settled) && SettlesFrom(db.bets, settled, n, m, winner)
    ensures Sound(SettleOne(db, settled[n]))
    ensures SettlesFrom(SettleOne(db, settled[n]).bets, settled, n + 1, m, winner)
  {
    assert SettlesSome(db.bets, settled[n], m, winner);
    var k: nat :| Settles(db.bets, k, settled[n], m, winner);
    SettleOneKeepsSound(db, settled[n], k, m, winner);
    OthersStayListed(db.bets, settled, n, k, m, winner);
  }

  lemma SettleRowsStep(db: Db, settled: seq<Bet>, n: nat)
    requires n < |settled|
    ensures SettleRows(db, settled[..n + 1]) == SettleOne(SettleRows(db, settled[..n]), settled[n])
  {
    assert settled[..n + 1][..n] == settled[..n];
  }

  // From the state reached after n bets, settling the rest stays sound.
  lemma {:induction false} SettleRestKeepsSound(db: Db, now: Db, settled: seq<Bet>, n: nat,
                                                m: MarketId, winner: OutcomeId)
    requires n <= |settled| && now == SettleRows(db, settled[..n]) && Sound(now)
    requires DistinctIds(settled) && SettlesFrom(now.bets, settled, n, m, winner)
    ensures Sound(SettleRows(db, settled)) && SettleRows(db, settled).markets == now.markets
    decreases |settled| - n
  {
    if n == |settled| {
      assert settled[..n] == settled;
    } else {
      SettleStepKeepsSound(now, settled, n, m, winner);
      SettleRowsStep(db, settled, n);
      SettleRestKeepsSound(db, SettleOne(now, settled[n]), settled, n + 1, m, winner);
    }
  }

  /** Settling any list a resolution may hold, however out of date, keeps the ledger sound. */
  lemma SettleKeepsSound(db: Db, m: MarketId, market: Market, winner: OutcomeId, settled: seq<Bet>)
    requires Sound(db) && SettlesRows(db.bets, settled, m, winner)
    ensures Sound(SettleTx(db, m, market, settled))
    ensures SettleTx(db, m, market, settled).markets == CloseMarket(db, m, market).markets
  {
    CloseKeepsSound(db, m, market);
    var closed := CloseMarket(db, m, market);
    SettleRestKeepsSound(closed, closed, settled, 0, m, winner);
  }

  // ----- what settling does to balances and rows -----

  /**
   * The settlement loop raises each balance by exactly that user's payouts in the list, however
   * many bets of the user it holds, and rewrites no bet it does not name.
   */
  lemma {:induction false} SettlePaysEachUserTheirPayouts(db: Db, settled: seq<Bet>)
    ensures SettleRows(db, settled).users.Keys == db.users.Keys
    ensures forall u :: u in db.users ==>
      SettleRows(db, settled).users[u] == db.users[u] + SumBy(settled, PaidTo(u))
    ensures |SettleRows(db, settled).bets| == |db.bets|
    ensures forall i :: 0 <= i < |db.bets| && (forall j :: 0 <= j < |settled| ==> settled[j].id != db.bets[i].id) ==>
      SettleRows(db, settled).bets[i] == db.bets[i]
    ensures forall i :: 0 <= i < |db.bets| ==>
      SettleRows(db, settled).bets[i] ==
      db.bets[i].(status := SettleRows(db, settled).bets[i].status, payout := SettleRows(db, settled).bets[i].payout)
  {
    if |settled| > 0 {
      SettlePaysEachUserTheirPayouts(db, settled[..|settled| - 1]);
    }
  }

  /** Balances after settling do not depend on the order bets are visited in. */
  lemma SettleOrderDoesNotMatter(db: Db, settled: seq<Bet>, other: seq<Bet>)
    requires multiset(settled) == multiset(other)
    ensures SettleRows(db, settled).users == SettleRows(db, other).users
  {
    SettlePaysEachUserTheirPayouts(db, settled);
    SettlePaysEachUserTheirPayouts(db, other);
    forall u | u in db.users ensures SettleRows(db, settled).users[u] == SettleRows(db, other).users[u] {
      SumPermuted(settled, other, PaidTo(u));
    }
  }

  // ----- when settling keeps the books -----

  // Each settled bet names a row of the store; rows[i] is where settled[i] is stored.
  predicate Names(bets: seq<Bet>, settled: seq<Bet>, rows: seq<nat>) {
    |rows| == |settled| && DistinctIds(settled) && DistinctIds(bets) &&
    forall i :: 0 <= i < |settled| ==>
      rows[i] < |bets| && bets[rows[i]].id == settled[i].id && bets[rows[i]].user == settled[i].user
  }

  function RowsAt(bets: seq<Bet>, rows: seq<nat>): (r: seq<Bet>)
    requires forall i :: 0 <= i < |rows| ==> rows[i] < |bets|
    ensures |r| == |rows|
  {
    seq(|rows|, i requires 0 <= i < |rows| => bets[rows[i]])
  }

  // Recorded payouts move by what the list pays minus what its rows had already been paid.
  lemma {:induction false} PayoutsAfterSettle(db: Db, settled: seq<Bet>, rows: seq<nat>, u: UserId)
    requires Names(db.bets, settled, rows)
    ensures DistinctIds(SettleRows(db, settled).bets) && |SettleRows(db, settled).bets| == |db.bets|
    ensures SumBy(SettleRows(db, settled).bets, StakeBy(u)) == SumBy(db.bets, StakeBy(u))
    ensures SumBy(SettleRows(db, settled).bets, PaidTo(u)) ==
            SumBy(db.bets, PaidTo(u)) + SumBy(settled, PaidTo(u)) - SumBy(RowsAt(db.bets, rows), PaidTo(u))
  {
    if |settled| > 0 {
      var n := |settled| - 1;
      var before := SettleRows(db, settled[..n]).bets;
      NamesFront(db, settled, rows);
      PayoutsAfterSettle(db, settled[..n], rows[..n], u);
      PayoutsAfterSet(before, settled[n], rows[n], u);
      assert RowsAt(db.bets, rows)[..n] == RowsAt(db.bets, rows[..n]);
    }
  }

  lemma NamesFront(db: Db, settled: seq<Bet>, rows: seq<nat>)
    requires Names(db.bets, settled, rows) && |settled| > 0
    ensures Names(db.bets, settled[..|settled| - 1], rows[..|settled| - 1])
    ensures |SettleRows(db, settled[..|settled| - 1]).bets| == |db.bets|
    ensures SettleRows(db, settled[..|settled| - 1]).bets[rows[|settled| - 1]] == db.bets[rows[|settled| - 1]]
  {
    var n := |settled| - 1;
    SettlePaysEachUserTheirPayouts(db, settled[..n]);
    assert forall j :: 0 <= j < n ==> settled[j].id != settled[n].id;
  }

  lemma PayoutsAfterSet(bets: seq<Bet>, s: Bet, k: nat, u: UserId)
    requires DistinctIds(bets) && k < |bets| && bets[k].id == s.id && bets[k].user == s.user
    ensures DistinctIds(SetBet(bets, s))
    ensures SumBy(SetBet(bets, s), StakeBy(u)) == SumBy(bets, StakeBy(u))
    ensures SumBy(SetBet(bets, s), PaidTo(u)) == SumBy(bets, PaidTo(u)) + PaidTo(u)(s) - PaidTo(u)(bets[k])
  {
    var b := bets[k].(status := s.status, payout := s.payout);
    SetBetAt(bets, s, k);
    SumUpdate(bets, k, b, StakeBy(u));
    SumUpdate(bets, k, b, PaidTo(u));
  }

  /**
   * `settle` does not look at a row's status before paying. Books that balanced still balance
   * afterwards if and only if no bet in the list had already been paid in the store.
   */
  lemma SettleKeepsBooksIff(db: Db, settled: seq<Bet>, rows: seq<nat>)
    requires BooksBalance(db.users, db.bets) && Names(db.bets, settled, rows)
    requires forall i :: 0 <= i < |db.bets| ==> db.bets[i].user in db.users
    requires forall i :: 0 <= i < |db.bets| && db.bets[i].payout.Some? ==> db.bets[i].payout.value > 0
    ensures BooksBalance(SettleRows(db, settled).users, SettleRows(db, settled).bets) <==>
            forall i :: 0 <= i < |settled| ==> db.bets[rows[i]].payout == None
  {
    var db' := SettleRows(db, settled);
    SettlePaysEachUserTheirPayouts(db, settled);
    if BooksBalance(db'.users, db'.bets) {
      forall i | 0 <= i < |settled| ensures db.bets[rows[i]].payout == None {
        BalanceKeptIff(db, settled, rows, db.bets[rows[i]].user);
      }
    }
    if forall i :: 0 <= i < |settled| ==> db.bets[rows[i]].payout == None {
      forall u | u in db'.users ensures db'.users[u] == Owed(db'.bets, u) {
        BalanceKeptIff(db, settled, rows, u);
      }
    }
  }

  lemma BalanceKeptIff(db: Db, settled: seq<Bet>, rows: seq<nat>, u: UserId)
    requires u in db.users && db.users[u] == Owed(db.bets, u) && Names(db.bets, settled, rows)
    requires forall i :: 0 <= i < |db.bets| && db.bets[i].payout.Some? ==> db.bets[i].payout.value > 0
    ensures u in SettleRows(db, settled).users
    ensures SettleRows(db, settled).users[u] == Owed(SettleRows(db, settled).bets, u) <==>
            forall i :: 0 <= i < |settled| && db.bets[rows[i]].user == u ==> db.bets[rows[i]].payout == None
  {
    SettlePaysEachUserTheirPayouts(db, settled);
    PayoutsAfterSettle(db, settled, rows, u);
    var paid := RowsAt(db.bets, rows);
    NothingPaidIff(paid, u);
    assert forall i :: 0 <= i < |settled| ==> paid[i] == db.bets[rows[i]];
  }

  lemma NothingPaidIff(bets: seq<Bet>, u: UserId)
    requires forall i :: 0 <= i < |bets| && bets[i].payout.Some? ==> bets[i].payout.value > 0
    ensures SumBy(bets, PaidTo(u)) == 0 <==>
            forall i :: 0 <= i < |bets| && bets[i].user == u ==> bets[i].payout == None
  {
    SumNonNegative(bets, PaidTo(u));
    if forall i :: 0 <= i < |bets| && bets[i].user == u ==> bets[i].payout == None {
      SumZero(bets, PaidTo(u));
    }
    forall i | 0 <= i < |bets| && bets[i].user == u && bets[i].payout.Some?
      ensures SumBy(bets, PaidTo(u)) > 0
    {
      assert PaidTo(u)(bets[i]) <= SumBy(bets, PaidTo(u));
    }
  }

  // ----- settling keeps the accounts while its bets are open -----

  lemma RowsOfSettled(bets: seq<Bet>, settled: seq<Bet>, m: MarketId, winner: OutcomeId)
    returns (rows: seq<nat>)
    requires DistinctIds(bets) && SettlesRows(bets, settled, m, winner)
    ensures Names(bets, settled, rows)
    ensures forall i :: 0 <= i < |rows| ==> bets[rows[i]].outcome == settled[i].outcome
  {
    rows := [];
    for i := 0 to |settled|
      invariant |rows| == i
      invariant forall j :: 0 <= j < i ==>
        rows[j] < |bets| && bets[rows[j]].id == settled[j].id && bets[rows[j]].user == settled[j].user &&
        bets[rows[j]].outcome == settled[j].outcome
    {
      assert SettlesSome(bets, settled[i], m, winner);
      var k: nat :| Settles(bets, k, settled[i], m, winner);
      rows := rows + [k];
    }
  }

  predicate Named(settled: seq<Bet>, id: BetId) {
    exists j :: 0 <= j < |settled| && settled[j].id == id
  }

  lemma {:induction false} NamedRowIsRewritten(db: Db, settled: seq<Bet>, i: nat, j: nat)
    requires DistinctIds(settled) && i < |db.bets| && j < |settled| && settled[j].id == db.bets[i].id
    ensures |SettleRows(db, settled).bets| == |db.bets|
    ensures SettleRows(db, settled).bets[i] ==
            db.bets[i].(status := settled[j].status, payout := settled[j].payout)
  {
    var n := |settled| - 1;
    SettlePaysEachUserTheirPayouts(db, settled[..n]);
    if j < n {
      NamedRowIsRewritten(db, settled[..n], i, j);
      assert settled[j].id != settled[n].id;
    }
  }

  lemma ListedDecidesRow(bets: seq<Bet>, settled: seq<Bet>, m: MarketId, winner: OutcomeId, i: nat, j: nat)
    requires DistinctIds(bets) && SettlesRows(bets, settled, m, winner)
    requires i < |bets| && j < |settled| && settled[j].id == bets[i].id
    ensures Settles(bets, i, settled[j], m, winner)
  {
    assert SettlesSome(bets, settled[j], m, winner);
    var k: nat :| Settles(bets, k, settled[j], m, winner);
    assert bets[k].id == bets[i].id;
  }

  // After settling each row is either as it was or decided by the winner.
  lemma RowAfterSettle(db: Db, settled: seq<Bet>, m: MarketId, winner: OutcomeId, i: nat)
    requires DistinctIds(db.bets) && SettlesRows(db.bets, settled, m, winner) && i < |db.bets|
    ensures |SettleRows(db, settled).bets| == |db.bets|
    ensures var b, after := db.bets[i], SettleRows(db, settled).bets[i];
            if Named(settled, b.id) then b.market == m && b.price > 0 && after == Settled(b, winner) else after == b
  {
    if Named(settled, db.bets[i].id) {
      var j :| 0 <= j < |settled| && settled[j].id == db.bets[i].id;
      NamedRowIsRewritten(db, settled, i, j);
      ListedDecidesRow(db.bets, settled, m, winner, i, j);
    } else {
      SettlePaysEachUserTheirPayouts(db, settled);
    }
  }

  lemma SettleKeepsWinners(db: Db, m: MarketId, market: Market, winner: OutcomeId, settled: seq<Bet>)
    requires DistinctIds(db.bets) && WinnersOk(db.markets, db.bets) && SettlesRows(db.bets, settled, m, winner)
    requires m in db.markets && db.markets[m].status != Resolved
    requires market.status == Resolved && market.winner == Some(winner)
    ensures WinnersOk(CloseMarket(db, m, market).markets, SettleRows(CloseMarket(db, m, market), settled).bets)
  {
    var closed := CloseMarket(db, m, market);
    var after := SettleRows(closed, settled).bets;
    SettlePaysEachUserTheirPayouts(closed, settled);
    forall i | 0 <= i < |after| ensures WinnerOk(closed.markets, after[i]) {
      RowAfterSettle(closed, settled, m, winner, i);
      assert WinnerOk(db.markets, db.bets[i]);
    }
  }

  /** Settling the open bets of an unresolved market keeps balances and outcomes accounted for. */
  lemma SettleKeepsAccounted(db: Db, m: MarketId, market: Market, winner: OutcomeId, settled: seq<Bet>)
    requires Sound(db) && Accounted(db) && m in db.markets && db.markets[m].status != Resolved
    requires market.status == Resolved && market.winner == Some(winner)
    requires SettlesOpenBets(db.bets, settled, m, winner)
    ensures Accounted(SettleTx(db, m, market, settled))
    ensures ClosedOn(SettleTx(db, m, market, settled).markets, m, winner)
  {
    var closed := CloseMarket(db, m, market);
    SettleKeepsWinners(db, m, market, winner, settled);
    SettleRowsMarkets(closed, settled);
    OpenRowsKeepBooks(closed, settled, m, winner);
  }

  lemma OpenRowsKeepBooks(db: Db, settled: seq<Bet>, m: MarketId, winner: OutcomeId)
    requires BetsOk(db.users, db.markets, db.bets) && BooksBalance(db.users, db.bets)
    requires SettlesOpenBets(db.bets, settled, m, winner)
    ensures BooksBalance(SettleRows(db, settled).users, SettleRows(db, settled).bets)
  {
    var rows := RowsOfSettled(db.bets, settled, m, winner);
    PaidBetsAreWorthSomething(db.users, db.markets, db.bets);
    forall i | 0 <= i < |settled| ensures db.bets[rows[i]].payout == None {
      assert BetOk(db.users, db.markets, db.bets[rows[i]]);
    }
    SettleKeepsBooksIff(db, settled, rows);
  }

  lemma PaidBetsAreWorthSomething(users: map<UserId, int>, markets: map<MarketId, Market>, bets: seq<Bet>)
    requires BetsOk(users, markets, bets)
    ensures forall i :: 0 <= i < |bets| ==> bets[i].user in users
    ensures forall i :: 0 <= i < |bets| && bets[i].payout.Some? ==> bets[i].payout.value > 0
  {
    forall i | 0 <= i < |bets|
      ensures bets[i].user in users && (bets[i].payout.Some? ==> bets[i].payout.value > 0)
    {
      assert BetOk(users, markets, bets[i]);
      PayoutNotNegative(bets[i].amount, bets[i].price);
    }
  }

  predicate ClosedOn(markets: map<MarketId, Market>, m: MarketId, winner: OutcomeId) {
    m in markets && markets[m].status == Resolved && markets[m].winner == Some(winner)
  }

  lemma {:induction false} SettleRowsMarkets(db: Db, settled: seq<Bet>)
    ensures SettleRows(db, settled).markets == db.markets
    ensures SettleRows(db, settled).outcomes == db.outcomes
    ensures SettleRows(db, settled).points == db.points
    ensures SettleRows(db, settled).events == db.events
    ensures SettleRows(db, settled).notices == db.notices
  {
    if |settled| > 0 {
      SettleRowsMarkets(db, settled[..|settled| - 1]);
    }
  }

  // ----- totals agree with each other -----

  function StakesOver(bets: seq<Bet>): OutcomeId -> int {
    (o: OutcomeId) => SumBy(bets, StakeOn(o))
  }

  function OneStake(b: Bet): OutcomeId -> int {
    (o: OutcomeId) => if b.outcome == o then b.amount else 0
  }

  lemma {:induction false} OneStakeOverBoard(b: Bet, ids: seq<OutcomeId>)
    requires Distinct(ids)
    ensures SumBy(ids, OneStake(b)) == if b.outcome in ids then b.amount else 0
  {
    if |ids| > 0 {
      OneStakeOverBoard(b, ids[..|ids| - 1]);
      assert ids == ids[..|ids| - 1] + [ids[|ids| - 1]];
      assert forall i :: 0 <= i < |ids| - 1 ==> ids[i] != ids[|ids| - 1];
    }
  }

  // Counting a market's stakes by outcome or by bet gives the same total.
  lemma {:induction false} StakesCountedTwice(bets: seq<Bet>, m: MarketId, ids: seq<OutcomeId>)
    requires Distinct(ids)
    requires forall i :: 0 <= i < |bets| ==> (bets[i].outcome in ids <==> bets[i].market == m)
    ensures SumBy(ids, StakesOver(bets)) == SumBy(bets, StakeIn(m))
  {
    if |bets| == 0 {
      SumZero(ids, StakesOver(bets));
    } else {
      var n := |bets| - 1;
      assert forall i :: 0 <= i < n ==> bets[..n][i] == bets[i];
      StakesCountedTwice(bets[..n], m, ids);
      OneStakeOverBoard(bets[n], ids);
      SumPlus(ids, StakesOver(bets[..n]), OneStake(bets[n]), StakesOver(bets));
    }
  }

  /** A market's total volume is the sum of its outcome volumes. */
  lemma TotalVolumeIsSumOfVolumes(db: Db, m: MarketId)
    requires Sound(db) && m in db.markets
    ensures db.markets[m].totalVolume == Sum(Volumes(BoardOf(db, m)))
    ensures NonNegative(Volumes(BoardOf(db, m)))
  {
    var ids, v := db.markets[m].board, Volumes(BoardOf(db, m));
    StakesAreOnTheirBoard(db.users, db.markets, db.outcomes, db.bets, m);
    StakesCountedTwice(db.bets, m, ids);
    SumCongruent(v, Itself(), ids, StakesOver(db.bets));
    forall i | 0 <= i < |v| ensures v[i] >= 0 {
      StakesNotNegative(db.users, db.markets, db.bets, ids[i]);
    }
  }

  lemma StakesNotNegative(users: map<UserId, int>, markets: map<MarketId, Market>, bets: seq<Bet>, o: OutcomeId)
    requires BetsOk(users, markets, bets)
    ensures SumBy(bets, StakeOn(o)) >= 0
  {
    assert forall i :: 0 <= i < |bets| ==> BetOk(users, markets, bets[i]);
    SumNonNegative(bets, StakeOn(o));
  }

  lemma StakesAreOnTheirBoard(users: map<UserId, int>, markets: map<MarketId, Market>,
                              outcomes: map<OutcomeId, Outcome>, bets: seq<Bet>, m: MarketId)
    requires BetsOk(users, markets, bets) && BoardsOk(markets, outcomes) && m in markets
    ensures forall i :: 0 <= i < |bets| ==> (bets[i].outcome in markets[m].board <==> bets[i].market == m)
  {
    forall i | 0 <= i < |bets| ensures bets[i].outcome in markets[m].board <==> bets[i].market == m {
      assert BetOk(users, markets, bets[i]);
      var k := bets[i].market;
      if k != m {
        BoardsDisjoint(markets, outcomes, m, k);
      }
    }
  }
}
