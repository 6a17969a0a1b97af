/**
 * The Postgres store as code: `place` and `settle` run statement by statement on a transaction's
 * own copy of the tables and take effect only at commit.
 */
module PgStore {
  import opened Base
  import opened Sums
  import opened Pricing
  import opened Bets
  import opened Ledger
  import opened LedgerCalls
  import opened Titles

  class Store {
    var users: map<UserId, int>
    var markets: map<MarketId, Market>
    var outcomes: map<OutcomeId, Outcome>
    var bets: seq<Bet>
    var points: seq<PricePoint>
    var events: seq<Event>
    var notices: multiset<UserId>

    function Contents(): Db
      reads this
    {
      Db(users, markets, outcomes, bets, points, events, notices)
    }

    predicate Valid()
      reads this
    {
      Constrained(Contents())
    }

    constructor ()
      ensures Valid() && Contents() == EMPTY
    {
      users, markets, outcomes, bets, points, events, notices := map[], map[], map[], [], [], [], multiset{};
    }

    method Create(m: MarketId, market: Market, board: seq<Outcome>)
      requires Valid()
      modifies this
      ensures Valid()
      ensures Contents() == old(Contents()).(
        markets := old(markets)[m := market],
        outcomes := InsertBoard(old(outcomes), board),
        points := old(points) + PointsOf(board))
    {
      var rows, history := outcomes, points;
      for i := 0 to |board|
        invariant rows == InsertBoard(outcomes, board[..i])
        invariant history == points + PointsOf(board[..i])
      {
        assert board[..i + 1][..i] == board[..i];
        rows := rows[board[i].id := board[i]];
        history := history + [PricePoint(board[i].id, board[i].price)];
        assert PointsOf(board[..i + 1]) == PointsOf(board[..i]) + [PricePoint(board[i].id, board[i].price)];
      }
      assert board[..|board|] == board;
      InsertKeepsKeys(outcomes, board);
      markets, outcomes, points := markets[m := market], rows, history;
    }

    method Place(bet: Bet, board: seq<Outcome>, newPoints: seq<PricePoint>) returns (r: Result<(), Failure>)
      requires Valid()
      modifies this
      ensures Valid()
      ensures r == Err(Conflict) <==> bet.user !in old(users) || old(users)[bet.user] < bet.amount
      ensures match PlaceTx(old(Contents()), bet, board, newPoints)
              case Ok(db) => r == Ok(()) && Contents() == db
              case Err(e) => r == Err(e) && Contents() == old(Contents())
    {
      // UPDATE users ... WHERE balance >= amount: no row touched means the race was lost.
      if bet.user !in users || users[bet.user] < bet.amount {
        return Err(Conflict);
      }
      var users' := users[bet.user := users[bet.user] - bet.amount];
      var repeatBettor := RepeatBettor(bets, bet);
      if !Insertable(Contents(), bet) {
        return Err(Storage);
      }
      var bets' := bets + [bet];
      var outcomes' := outcomes;
      for i := 0 to |board|
        invariant outcomes' == WriteBoard(outcomes, board[..i], bet)
      {
        assert board[..i + 1][..i] == board[..i];
        if board[i].id in outcomes' {
          var row := outcomes'[board[i].id];
          var staked := if board[i].id == bet.outcome then bet.amount else 0;
          outcomes' := outcomes'[board[i].id := row.(volume := row.volume + staked, price := board[i].price)];
        }
      }
      assert board[..|board|] == board;
      var market := markets[bet.market];
      market := market.(totalVolume := market.totalVolume + bet.amount,
                        participants := market.participants + (if repeatBettor then 0 else 1));
      var points' := points;
      for i := 0 to |newPoints|
        invariant points' == points + newPoints[..i]
      {
        points' := points' + [newPoints[i]];
      }
      users, bets, outcomes, markets, points := users', bets', outcomes', markets[bet.market := market], points';
      notices := notices + multiset{bet.user};
      events := events + [BetPlaced(bet.id), MarketPricesUpdated(bet.market)];
      PlaceKeepsConstraints(old(Contents()), bet, board, newPoints);
      return Ok(());
    }

    method Settle(m: MarketId, market: Market, settled: seq<Bet>)
      requires Valid()
      modifies this
      ensures Valid()
      ensures Contents() == SettleTx(old(Contents()), m, market, settled)
    {
      var markets' := markets;
      if m in markets {
        markets' := markets[m := markets[m].(status := market.status, winner := market.winner)];
      }
      ghost var closed := CloseMarket(Contents(), m, market);
      var bets': seq<Bet>, users': map<UserId, int> := bets, users;
      for i := 0 to |settled|
        invariant SettleRows(closed, settled[..i]) == closed.(bets := bets', users := users')
      {
        assert settled[..i + 1][..i] == settled[..i];
        bets' := SetBet(bets', settled[i]);
        if settled[i].payout.Some? && settled[i].user in users' {
          users' := users'[settled[i].user := users'[settled[i].user] + settled[i].payout.value];
        }
      }
      assert settled[..|settled|] == settled;
      var told, paid := notices, PaidUsers(settled);
      while paid != {}
        invariant told + multiset(paid) == notices + multiset(PaidUsers(settled))
      {
        var user :| user in paid;
        told, paid := told + multiset{user}, paid - {user};
      }
      SettleKeepsConstraints(Contents(), m, market, settled);
      markets, bets, users, notices := markets', bets', users', told;
    }
  }

  datatype Role = User | Admin

  predicate CanManageMarkets(role: Role) {
    role == Admin
  }

  predicate Titled(title: string, labels: seq<string>) {
    Parse(title, MAX_TITLE_CHARS).Ok? && forall i :: 0 <= i < |labels| ==> Parse(labels[i], MAX_LABEL_CHARS).Ok?
  }

  /**
   * CreateMarket::execute; ids stand for the UUIDs drawn for the market and its outcomes. Answers
   * with the title and labels as stored.
   */
  method CreateMarket(store: Store, role: Role, title: string, labels: seq<string>, closesAt: Option<Time>,
                      m: MarketId, ids: seq<OutcomeId>)
    returns (r: Result<(string, seq<string>), Failure>)
    requires store.Valid() && |ids| == |labels| <= I64_MAX
    modifies store
    ensures store.Valid()
    ensures role != Admin ==> r == Err(Forbidden)
    ensures role == Admin && (|labels| < 2 || !Titled(title, labels)) ==> r == Err(Validation)
    ensures role == Admin && |labels| >= 2 && Titled(title, labels) ==>
      r.Ok? && r.value.0 == Trim(title) && |r.value.1| == |labels| &&
      (forall i :: 0 <= i < |labels| ==> r.value.1[i] == Trim(labels[i])) &&
      store.Contents() == OpenMarket(old(store.Contents()), m, ids, closesAt)
    ensures r.Ok? && Distinct(ids) ==> OpenedAs(old(store.Contents()), store.Contents(), m, ids, closesAt)
    ensures r.Err? ==> store.Contents() == old(store.Contents())
  {
    if !CanManageMarkets(role) {
      return Err(Forbidden);
    }
    if |labels| < 2 {
      return Err(Validation);
    }
    var named := Parse(title, MAX_TITLE_CHARS);
    if named.Err? {
      return Err(Validation);
    }
    var stored: seq<string> := [];
    for i := 0 to |labels|
      invariant |stored| == i
      invariant forall j :: 0 <= j < i ==> Parse(labels[j], MAX_LABEL_CHARS) == Ok(stored[j])
      invariant store.Contents() == old(store.Contents())
    {
      var parsed := Parse(labels[i], MAX_LABEL_CHARS);
      if parsed.Err? {
        return Err(Validation);
      }
      stored := stored + [parsed.value];
    }
    var outcomes := new Outcome[|ids|](i requires 0 <= i < |ids| => Outcome(ids[i], m, 0, 0));
    assert outcomes[..] == Unpriced(m, ids);
    SumOfConstant(Volumes(outcomes[..]), 0);
    RecalculatePrices(outcomes);
    store.Create(m, Market(Open, None, 0, 0, closesAt, ids), outcomes[..]);
    if Distinct(ids) {
      OpenMarketOpens(old(store.Contents()), m, ids, closesAt);
    }
    return Ok((named.value, stored));
  }

  // If the bet gets as far as being priced, its board is within 64-bit arithmetic.
  predicate PricedSafely(db: Db, user: UserId, outcome: OutcomeId, amount: int, now: Time)
    requires Admit(db, outcome, now).Ok? ==> HasBoard(db, Admit(db, outcome, now).value)
  {
    Admit(db, outcome, now).Ok? ==>
      var r := BuildPlacement(db, 0, user, Admit(db, outcome, now).value, outcome, amount);
      r.Ok? ==> PricingFits(r.value) && NonNegative(Volumes(r.value.board)) && |r.value.board| <= I64_MAX
  }

  /** PlaceBet::execute run without interruption; answers with the bet and the position's average price. */
  method PlaceBet(store: Store, id: BetId, user: UserId, outcome: OutcomeId, amount: int, now: Time)
    returns (r: Result<(Bet, int), Failure>)
    requires store.Valid()
    requires Admit(store.Contents(), outcome, now).Ok? ==>
      HasBoard(store.Contents(), Admit(store.Contents(), outcome, now).value)
    requires PricedSafely(store.Contents(), user, outcome, amount, now)
    modifies store
    ensures store.Valid()
    ensures var refusal := PlaceRefusal(old(store.Contents()), id, user, outcome, amount, now);
            if refusal.Some? then r == Err(refusal.value)
            else r.Ok? && r.value.0 == Bet(id, user, old(store.outcomes)[outcome].market, outcome, amount,
                                           Max(old(store.outcomes)[outcome].price, 1), Active, None)
    ensures match Ledger.PlaceBet(old(store.Contents()), id, user, outcome, amount, now)
            case Err(e) => r == Err(e) && store.Contents() == old(store.Contents())
            case Ok(db) => r.Ok? && store.Contents() == db && db.bets[|db.bets| - 1] == r.value.0 &&
                           r.value.1 == AveragePrice(db.bets, user, outcome).GetOr(r.value.0.price)
  {
    PlaceBetAnswers(store.Contents(), id, user, outcome, amount, now);
    if outcome !in store.outcomes || store.outcomes[outcome].market !in store.markets {
      return Err(NotFound);
    }
    var m := store.outcomes[outcome].market;
    if !store.markets[m].AcceptsBets(now) {
      return Err(RuleViolation);
    }
    ghost var db := store.Contents();
    var snapshot := BoardOf(store.Contents(), m);
    var outcomes := new Outcome[|snapshot|](i requires 0 <= i < |snapshot| => snapshot[i]);
    assert outcomes[..] == snapshot;
    var chosen := Position(IdsOf(snapshot), outcome);
    if chosen.None? {
      return Err(RuleViolation);
    }
    if user !in store.users {
      return Err(NotFound);
    }
    if store.users[user] < amount {
      return Err(RuleViolation);
    }
    var price := Max(outcomes[chosen.value].price, MIN_TICK);
    var placed := Bet.Place(id, user, m, outcome, amount, price);
    if placed.Err? {
      return Err(Validation);
    }
    var bet := placed.value;
    outcomes[chosen.value] := AddVolume(outcomes[chosen.value], bet.amount);
    ghost var staked := snapshot[chosen.value := AddVolume(snapshot[chosen.value], amount)];
    assert outcomes[..] == staked;
    assert Volumes(Repriced(staked)) == Volumes(staked);
    RecalculatePrices(outcomes);
    assert BuildPlacement(db, id, user, m, outcome, amount) == Ok(Placement(bet, outcomes[..]));
    var newPoints := PointsOf(outcomes[..]);
    var committed := store.Place(bet, outcomes[..], newPoints);
    if committed.Err? {
      return Err(committed.error);
    }
    var avg := ActivePosition(store.bets, user, outcome);
    return Ok((bet, avg.GetOr(bet.price)));
  }

  // The loop over the open bets: each is settled as a winner or as a loser.
  method SettleOpen(open: seq<Bet>, winner: OutcomeId) returns (r: Result<seq<Bet>, Failure>)
    requires forall b :: b in open ==> b.price > 0
    ensures (forall b :: b in open ==> b.status == Active) ==> r == Ok(SettleEach(open, winner))
    ensures (exists b :: b in open && b.status != Active) ==> r == Err(RuleViolation)
  {
    var settled := new Bet[|open|](i requires 0 <= i < |open| => open[i]);
    for i := 0 to settled.Length
      invariant forall j :: 0 <= j < i ==> open[j].status == Active && settled[j] == Settled(open[j], winner)
      invariant forall j :: i <= j < |open| ==> settled[j] == open[j]
    {
      assert open[i] in open;
      var outcome := if settled[i].outcome == winner then settled[i].SettleAsWinner() else settled[i].SettleAsLoser();
      if outcome.Err? {
        return Err(RuleViolation);
      }
      settled[i] := outcome.value;
    }
    assert settled[..] == SettleEach(open, winner);
    return Ok(settled[..]);
  }

  /** ResolveMarket::execute run without interruption. */
  method ResolveMarket(store: Store, role: Role, m: MarketId, winner: OutcomeId) returns (r: Result<(), Failure>)
    requires store.Valid()
    modifies store
    ensures store.Valid()
    ensures role == Admin ==>
            if m !in old(store.markets) then r == Err(NotFound)
            else if winner !in old(store.markets)[m].board || old(store.markets)[m].status == Resolved
            then r == Err(RuleViolation)
            else r == Ok(()) && ResolvedAs(old(store.Contents()), store.Contents(), m, winner)
    ensures role != Admin ==> r == Err(Forbidden) && store.Contents() == old(store.Contents())
    ensures role == Admin ==>
            match Ledger.ResolveMarket(old(store.Contents()), m, winner)
            case Err(e) => r == Err(e) && store.Contents() == old(store.Contents())
            case Ok(db) => r == Ok(()) && store.Contents() == db
  {
    if !CanManageMarkets(role) {
      return Err(Forbidden);
    }
    ResolveMarketAnswers(store.Contents(), m, winner);
    if m !in store.markets {
      return Err(NotFound);
    }
    if winner !in store.markets[m].board {
      return Err(RuleViolation);
    }
    var market := store.markets[m].Resolve(winner);
    if market.Err? {
      return Err(RuleViolation);
    }
    var settled := SettleOpen(ActiveIn(store.bets, m), winner);
    if settled.Err? {
      return Err(RuleViolation);
    }
    store.Settle(m, market.value, settled.value);
    return Ok(());
  }
}
