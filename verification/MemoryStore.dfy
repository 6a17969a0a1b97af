/**
 * The in-memory stores: whole rows are overwritten by the caller's copies, balances saturate,
 * and there is no rollback (crates/infrastructure/src/persistence/in_memory).
 */
module MemoryStore {
  import opened Base
  import opened Sums
  import opened Pricing
  import opened Bets
  import opened Ledger
  import opened LedgerKeeps

  // The caller's own copy of a user, taken from the store and saved back.
  class Account {
    var balance: int

    constructor (balance: int)
      ensures this.balance == balance
    {
      this.balance := balance;
    }

    method Debit(amount: int) returns (r: Result<(), Failure>)
      modifies this
      ensures amount <= 0 ==> r == Err(Validation) && balance == old(balance)
      ensures amount > 0 && old(balance) < amount ==> r == Err(RuleViolation) && balance == old(balance)
      ensures amount > 0 && old(balance) >= amount ==> r == Ok(()) && balance == old(balance) - amount
    {
      if amount <= 0 {
        return Err(Validation);
      }
      if balance < amount {
        return Err(RuleViolation);
      }
      balance := balance - amount;
      return Ok(());
    }

    method Credit(amount: int) returns (r: Result<(), Failure>)
      modifies this
      ensures amount <= 0 ==> r == Err(Validation) && balance == old(balance)
      ensures amount > 0 ==> r == Ok(()) && balance == Min(old(balance) + amount, I64_MAX)
    {
      if amount <= 0 {
        return Err(Validation);
      }
      balance := Min(balance + amount, I64_MAX);
      return Ok(());
    }
  }

  // ----- specification -----

  // Overwrites the row whose id a copy carries; copies of unknown rows are dropped.
  function OverwriteBoard(outcomes: map<OutcomeId, Outcome>, board: seq<Outcome>): map<OutcomeId, Outcome> {
    if |board| == 0 then outcomes
    else
      var before, o := OverwriteBoard(outcomes, board[..|board| - 1]), board[|board| - 1];
      if o.id in before then before[o.id := o] else before
  }

  function RecordStake(market: Market, amount: int, newParticipant: bool): Market {
    market.(totalVolume := Min(market.totalVolume + amount, I64_MAX),
            participants := market.participants + (if newParticipant then 1 else 0))
  }

  function MemPlace(db: Db, bet: Bet, board: seq<Outcome>, points: seq<PricePoint>): Result<Db, Failure> {
    if bet.user !in db.users then Err(Storage)
    else if bet.amount <= 0 || db.users[bet.user] < bet.amount then Err(Conflict)
    else Ok(db.(
      users := db.users[bet.user := db.users[bet.user] - bet.amount],
      bets := db.bets + [bet],
      markets := if bet.market in db.markets
                 then db.markets[bet.market :=
                   RecordStake(db.markets[bet.market], bet.amount, !RepeatBettor(db.bets, bet))]
                 else db.markets,
      outcomes := OverwriteBoard(db.outcomes, board),
      points := db.points + points,
      notices := db.notices + multiset{bet.user},
      events := db.events + [BetPlaced(bet.id), MarketPricesUpdated(bet.market)]))
  }

  // The slot of the first bet with this id is replaced by the copy.
  function ReplaceBet(bets: seq<Bet>, s: Bet): (r: seq<Bet>)
    ensures |r| == |bets|
  {
    if |bets| == 0 then []
    else if bets[0].id == s.id then [s] + bets[1..]
    else [bets[0]] + ReplaceBet(bets[1..], s)
  }

  datatype MemState = MemState(bets: seq<Bet>, users: map<UserId, int>, failure: Option<Failure>)

  // One round of the settlement loop; after a failure the remaining rounds do not run.
  function MemSettleOne(st: MemState, s: Bet): MemState {
    if st.failure.Some? then st
    else
      var bets := ReplaceBet(st.bets, s);
      if s.payout.None? then st.(bets := bets)
      else if s.user !in st.users || s.payout.value <= 0 then st.(bets := bets, failure := Some(Storage))
      else st.(bets := bets, users := st.users[s.user := Min(st.users[s.user] + s.payout.value, I64_MAX)])
  }

  function MemSettleRows(st: MemState, settled: seq<Bet>): MemState {
    if |settled| == 0 then st
    else MemSettleOne(MemSettleRows(st, settled[..|settled| - 1]), settled[|settled| - 1])
  }

  function MemResolve(markets: map<MarketId, Market>, m: MarketId, market: Market): map<MarketId, Market> {
    if m in markets then markets[m := market] else markets
  }

  // Balance notices go out only once every row is written.
  function MemSettle(db: Db, m: MarketId, market: Market, settled: seq<Bet>): Db {
    var st := MemSettleRows(MemState(db.bets, db.users, None), settled);
    db.(markets := MemResolve(db.markets, m, market), bets := st.bets, users := st.users,
        notices := db.notices + multiset(if st.failure.Some? then {} else PaidUsers(settled)))
  }

  function MemSettleAnswer(db: Db, settled: seq<Bet>): Result<(), Failure> {
    var st := MemSettleRows(MemState(db.bets, db.users, None), settled);
    if st.failure.Some? then Err(st.failure.value) else Ok(())
  }

  // ----- the stores -----

  class Store {
    var users: map<UserId, int>
    var markets: map<MarketId, Market>
    var outcomes: map<OutcomeId, Outcome>
    var bets: seq<Bet>
    var points: seq<PricePoint>
    var events: seq<Event>
    var notices: multiset<UserId>

    function Contents(): Db
      reads this
    {
      Db(users, markets, outcomes, bets, points, events, notices)
    }

    constructor ()
      ensures Contents() == EMPTY
    {
      users, markets, outcomes, bets, points, events, notices := map[], map[], map[], [], [], [], multiset{};
    }

    method Place(bet: Bet, board: seq<Outcome>, newPoints: seq<PricePoint>) returns (r: Result<(), Failure>)
      modifies this
      ensures r == Err(Storage) <==> bet.user !in old(users)
      ensures r == Err(Conflict) <==> bet.user in old(users) && (bet.amount <= 0 || old(users)[bet.user] < bet.amount)
      ensures match MemPlace(old(Contents()), bet, board, newPoints)
              case Ok(db) => r == Ok(()) && Contents() == db
              case Err(e) => r == Err(e) && Contents() == old(Contents())
    {
      if bet.user !in users {
        return Err(Storage);
      }
      var user := new Account(users[bet.user]);
      var debited := user.Debit(bet.amount);
      if debited.Err? {
        return Err(Conflict);
      }
      users := users[bet.user := user.balance];
      var newParticipant := !RepeatBettor(bets, bet);
      bets := bets + [bet];
      ApplyBet(bet.market, bet.amount, newParticipant, board, newPoints);
      notices := notices + multiset{bet.user};
      events := events + [BetPlaced(bet.id), MarketPricesUpdated(bet.market)];
      return Ok(());
    }

    method ApplyBet(m: MarketId, amount: int, newParticipant: bool, board: seq<Outcome>, newPoints: seq<PricePoint>)
      modifies this`markets, this`outcomes, this`points
      ensures markets == if m in old(markets)
                         then old(markets)[m := RecordStake(old(markets)[m], amount, newParticipant)]
                         else old(markets)
      ensures outcomes == OverwriteBoard(old(outcomes), board)
      ensures points == old(points) + newPoints
    {
      if m in markets {
        markets := markets[m := RecordStake(markets[m], amount, newParticipant)];
      }
      for i := 0 to |board|
        invariant outcomes == OverwriteBoard(old(outcomes), board[..i])
        invariant points == old(points)
        invariant markets == if m in old(markets)
                             then old(markets)[m := RecordStake(old(markets)[m], amount, newParticipant)]
                             else old(markets)
      {
        assert board[..i + 1][..i] == board[..i];
        if board[i].id in outcomes {
          outcomes := outcomes[board[i].id := board[i]];
        }
      }
      assert board[..|board|] == board;
      points := points + newPoints;
    }

    method Settle(m: MarketId, market: Market, settled: seq<Bet>) returns (r: Result<(), Failure>)
      modifies this
      ensures Contents() == MemSettle(old(Contents()), m, market, settled)
      ensures r == MemSettleAnswer(old(Contents()), settled)
    {
      if m in markets {
        markets := markets[m := market];
      }
      r := SettleBets(settled);
      if r.Ok? {
        Tell(PaidUsers(settled));
      }
    }

    // The loop of `settle`: it stops at the first payout that fails.
    method SettleBets(settled: seq<Bet>) returns (r: Result<(), Failure>)
      modifies this`bets, this`users
      ensures var st := MemSettleRows(MemState(old(bets), old(users), None), settled);
              bets == st.bets && users == st.users &&
              r == (if st.failure.Some? then Err(st.failure.value) else Ok(()))
    {
      ghost var start := MemState(bets, users, None);
      for i := 0 to |settled|
        invariant MemSettleRows(start, settled[..i]) == MemState(bets, users, None)
      {
        var s := settled[i];
        assert settled[..i + 1][..i] == settled[..i];
        bets := ReplaceBet(bets, s);
        if s.payout.Some? {
          var paid := Pay(s.user, s.payout.value);
          if paid.Err? {
            FailureSticks(start, settled, i + 1);
            return Err(Storage);
          }
        }
      }
      assert settled[..|settled|] == settled;
      return Ok(());
    }

    // The winner is looked up, credited and saved.
    method Pay(user: UserId, amount: int) returns (r: Result<(), Failure>)
      modifies this`users
      ensures user !in old(users) || amount <= 0 ==> r == Err(Storage) && users == old(users)
      ensures user in old(users) && amount > 0 ==>
        r == Ok(()) && users == old(users)[user := Min(old(users)[user] + amount, I64_MAX)]
    {
      if user !in users {
        return Err(Storage);
      }
      var winner := new Account(users[user]);
      var credited := winner.Credit(amount);
      if credited.Err? {
        return Err(Storage);
      }
      users := users[user := winner.balance];
      return Ok(());
    }

    method Tell(paid: set<UserId>)
      modifies this`notices
      ensures notices == old(notices) + multiset(paid)
    {
      var rest := paid;
      while rest != {}
        invariant notices + multiset(rest) == old(notices) + multiset(paid)
      {
        var user :| user in rest;
        notices, rest := notices + multiset{user}, rest - {user};
      }
    }
  }

  lemma {:induction false} FailureSticks(st: MemState, settled: seq<Bet>, n: nat)
    requires n <= |settled| && MemSettleRows(st, settled[..n]).failure.Some?
    ensures MemSettleRows(st, settled) == MemSettleRows(st, settled[..n])
    decreases |settled| - n
  {
    if n == |settled| {
      assert settled[..n] == settled;
    } else {
      assert settled[..n + 1][..n] == settled[..n];
      FailureSticks(st, settled, n + 1);
    }
  }

  // ----- agreement with the transactional store -----

  lemma {:induction false} OverwriteBoardRows(outcomes: map<OutcomeId, Outcome>, board: seq<Outcome>)
    requires Distinct(IdsOf(board))
    requires forall i :: 0 <= i < |board| ==> board[i].id in outcomes
    ensures OverwriteBoard(outcomes, board).Keys == outcomes.Keys
    ensures forall o :: o in outcomes && o !in IdsOf(board) ==> OverwriteBoard(outcomes, board)[o] == outcomes[o]
    ensures forall i :: 0 <= i < |board| ==> OverwriteBoard(outcomes, board)[board[i].id] == board[i]
  {
    if |board| > 0 {
      var n := |board| - 1;
      var front, ids := board[..n], IdsOf(board);
      assert forall i :: 0 <= i < n ==> IdsOf(front)[i] == ids[i];
      OverwriteBoardRows(outcomes, front);
      forall o | o in outcomes && o !in ids ensures OverwriteBoard(outcomes, board)[o] == outcomes[o] {
        assert o != ids[n];
        assert o !in IdsOf(front);
      }
      forall i | 0 <= i < n ensures OverwriteBoard(outcomes, board)[board[i].id] == front[i] {
        assert ids[i] != ids[n];
      }
    }
  }

  // Overwriting whole rows does what relative updates do, exactly when the copies were up to date.
  predicate UpToDate(outcomes: map<OutcomeId, Outcome>, board: seq<Outcome>, bet: Bet) {
    forall i :: 0 <= i < |board| ==>
      board[i].id in outcomes && board[i].volume == outcomes[board[i].id].volume + StakeFor(board[i].id, bet)
  }

  predicate SameOutcome(outcomes: map<OutcomeId, Outcome>, o: Outcome) {
    o.id in outcomes && outcomes[o.id].id == o.id && outcomes[o.id].market == o.market
  }

  lemma OverwriteMatchesWriteIff(outcomes: map<OutcomeId, Outcome>, board: seq<Outcome>, bet: Bet)
    requires Distinct(IdsOf(board))
    requires forall i :: 0 <= i < |board| ==> SameOutcome(outcomes, board[i])
    ensures OverwriteBoard(outcomes, board) == WriteBoard(outcomes, board, bet) <==> UpToDate(outcomes, board, bet)
  {
    OverwriteBoardRows(outcomes, board);
    WriteBoardRows(outcomes, board, bet);
    var over, written := OverwriteBoard(outcomes, board), WriteBoard(outcomes, board, bet);
    if UpToDate(outcomes, board, bet) {
      forall o | o in outcomes ensures over[o] == written[o] {
        if o in IdsOf(board) {
          var i :| 0 <= i < |board| && IdsOf(board)[i] == o;
          assert board[i].id == o;
        }
      }
    }
    if over == written {
      forall i | 0 <= i < |board|
        ensures board[i].volume == outcomes[board[i].id].volume + StakeFor(board[i].id, bet)
      {
        assert over[board[i].id] == board[i];
      }
    }
  }

  /**
   * For a placement the tables accept, the in-memory store ends in the state the transaction
   * would commit if and only if no stake was committed since its board was read and the market's
   * total does not saturate.
   */
  lemma MemoryPlaceAgreesIff(db: Db, p: Placement)
    requires BoardsOk(db.markets, db.outcomes) && PlacementOk(db, p) && Insertable(db, p.bet)
    requires forall i :: 0 <= i < |p.board| ==> p.board[i].market == p.bet.market
    requires p.bet.user in db.users && db.users[p.bet.user] >= p.bet.amount
    ensures MemPlace(db, p.bet, p.board, PointsOf(p.board)) == PlaceTx(db, p.bet, p.board, PointsOf(p.board)) <==>
            UpToDate(db.outcomes, p.board, p.bet) && db.markets[p.bet.market].totalVolume + p.bet.amount <= I64_MAX
  {
    var ids := db.markets[p.bet.market].board;
    assert BoardOk(db.outcomes, p.bet.market, ids);
    forall i | 0 <= i < |p.board|
      ensures SameOutcome(db.outcomes, p.board[i])
    {
      assert p.board[i].id == IdsOf(p.board)[i];
      assert Lists(db.outcomes, p.bet.market, ids[i]);
    }
    OverwriteMatchesWriteIff(db.outcomes, p.board, p.bet);
    var mem := MemPlace(db, p.bet, p.board, PointsOf(p.board));
    if mem == PlaceTx(db, p.bet, p.board, PointsOf(p.board)) {
      assert mem.value.markets[p.bet.market].totalVolume == db.markets[p.bet.market].totalVolume + p.bet.amount;
    }
  }

  lemma {:induction false} ReplaceBetAt(bets: seq<Bet>, s: Bet, k: nat)
    requires DistinctIds(bets) && k < |bets| && bets[k].id == s.id
    ensures ReplaceBet(bets, s) == bets[k := s]
  {
    if k > 0 {
      assert bets[0].id != bets[k].id;
      ReplaceBetAt(bets[1..], s, k - 1);
      assert bets == [bets[0]] + bets[1..];
    }
  }

  // A payout is recorded in full, or capped at the largest balance there is.
  predicate Credited(users: map<UserId, int>, paid: map<UserId, int>, settled: seq<Bet>) {
    paid.Keys == users.Keys && forall u :: u in users ==> paid[u] == Min(users[u] + SumBy(settled, PaidTo(u)), I64_MAX)
  }

  predicate Balances(users: map<UserId, int>) {
    forall u :: u in users ==> users[u] <= I64_MAX
  }

  // Every listed bet is a stored one of a known user, and pays something if it pays at all.
  predicate PaysKnownUsers(users: map<UserId, int>, settled: seq<Bet>) {
    forall i :: 0 <= i < |settled| ==>
      settled[i].user in users && (settled[i].payout.Some? ==> settled[i].payout.value > 0)
  }

  lemma SettledListPays(db: Db, settled: seq<Bet>, m: MarketId, winner: OutcomeId)
    requires BetsOk(db.users, db.markets, db.bets) && SettlesRows(db.bets, settled, m, winner)
    ensures PaysKnownUsers(db.users, settled)
  {
    forall i | 0 <= i < |settled|
      ensures settled[i].user in db.users && (settled[i].payout.Some? ==> settled[i].payout.value > 0)
    {
      assert SettlesSome(db.bets, settled[i], m, winner);
      var k: nat :| Settles(db.bets, k, settled[i], m, winner);
      assert BetOk(db.users, db.markets, db.bets[k]);
      PayoutNotNegative(settled[i].amount, settled[i].price);
    }
  }

  lemma CreditOne(users: map<UserId, int>, paid: map<UserId, int>, settled: seq<Bet>, n: nat)
    requires n < |settled| && PaysKnownUsers(users, settled) && Balances(users) && Credited(users, paid, settled[..n])
    ensures var s := settled[n];
            s.user in paid &&
            Credited(users, if s.payout.Some? then paid[s.user := Min(paid[s.user] + s.payout.value, I64_MAX)] else paid,
                     settled[..n + 1])
  {
    var s := settled[n];
    assert s.user in paid.Keys;
    forall u | u in users ensures SumBy(settled[..n + 1], PaidTo(u)) == SumBy(settled[..n], PaidTo(u)) + PaidTo(u)(s) {
      SumPrefix(settled, n, PaidTo(u));
    }
  }

  lemma RowsInStep(now: Db, settled: seq<Bet>, n: nat, m: MarketId, winner: OutcomeId)
    requires n < |settled| && DistinctIds(settled) && DistinctIds(now.bets) && SettlesFrom(now.bets, settled, n, m, winner)
    ensures ReplaceBet(now.bets, settled[n]) == SettleOne(now, settled[n]).bets
    ensures DistinctIds(SettleOne(now, settled[n]).bets)
    ensures SettlesFrom(SettleOne(now, settled[n]).bets, settled, n + 1, m, winner)
  {
    assert SettlesSome(now.bets, settled[n], m, winner);
    var k: nat :| Settles(now.bets, k, settled[n], m, winner);
    SetBetAt(now.bets, settled[n], k);
    ReplaceBetAt(now.bets, settled[n], k);
    OthersStayListed(now.bets, settled, n, k, m, winner);
  }

  // After n rows nothing has failed, the bets are the transaction's, and balances are credited.
  ghost predicate SettledSoFar(db: Db, settled: seq<Bet>, n: nat)
    requires n <= |settled|
  {
    var st := MemSettleRows(MemState(db.bets, db.users, None), settled[..n]);
    st.failure.None? && st.bets == SettleRows(db, settled[..n]).bets && Credited(db.users, st.users, settled[..n])
  }

  /** Settling a list of stored bets in memory never fails part-way; each balance is credited up to the cap. */
  lemma {:induction false} MemorySettleNeverFails(db: Db, settled: seq<Bet>, n: nat, m: MarketId, winner: OutcomeId)
    requires BetsOk(db.users, db.markets, db.bets) && Balances(db.users) && n <= |settled|
    requires SettlesRows(db.bets, settled, m, winner)
    ensures SettledSoFar(db, settled, n)
    ensures DistinctIds(SettleRows(db, settled[..n]).bets)
    ensures SettlesFrom(SettleRows(db, settled[..n]).bets, settled, n, m, winner)
  {
    if n > 0 {
      var now, st := SettleRows(db, settled[..n - 1]), MemSettleRows(MemState(db.bets, db.users, None), settled[..n - 1]);
      MemorySettleNeverFails(db, settled, n - 1, m, winner);
      assert settled[..n][..n - 1] == settled[..n - 1];
      SettledListPays(db, settled, m, winner);
      RowsInStep(now, settled, n - 1, m, winner);
      CreditOne(db.users, st.users, settled, n - 1);
    }
  }

  // Every balance has room for all the payouts in the list.
  predicate Roomy(users: map<UserId, int>, settled: seq<Bet>) {
    forall u :: u in users ==> users[u] + SumBy(settled, PaidTo(u)) <= I64_MAX
  }

  predicate CurrentCopy(markets: map<MarketId, Market>, m: MarketId, market: Market) {
    m in markets ==> market == markets[m].(status := market.status, winner := market.winner)
  }

  /**
   * An in-memory settlement ends in the state the transaction would commit if and only if every
   * balance has room for its payouts and the market copy was current.
   */
  lemma MemorySettleAgreesIff(db: Db, m: MarketId, market: Market, settled: seq<Bet>, winner: OutcomeId)
    requires BetsOk(db.users, db.markets, db.bets) && Balances(db.users) && SettlesRows(db.bets, settled, m, winner)
    ensures MemSettle(db, m, market, settled) == SettleTx(db, m, market, settled) <==>
            Roomy(db.users, settled) && CurrentCopy(db.markets, m, market)
  {
    var closed, mem, tx := CloseMarket(db, m, market), MemSettle(db, m, market, settled), SettleTx(db, m, market, settled);
    assert settled[..|settled|] == settled;
    MemorySettleNeverFails(db, settled, |settled|, m, winner);
    SettleIgnoresMarkets(db, closed, settled);
    SettlePaysEachUserTheirPayouts(db, settled);
    SettleRowsMarkets(closed, settled);
    SameCreditIff(db.users, mem.users, tx.users, settled);
    assert mem.markets == tx.markets <==> CurrentCopy(db.markets, m, market) by {
      if mem.markets == tx.markets && m in db.markets {
        assert mem.markets[m] == tx.markets[m];
      }
    }
  }

  lemma SameCreditIff(users: map<UserId, int>, mem: map<UserId, int>, tx: map<UserId, int>, settled: seq<Bet>)
    requires Credited(users, mem, settled) && tx.Keys == users.Keys
    requires forall u :: u in users ==> tx[u] == users[u] + SumBy(settled, PaidTo(u))
    ensures mem == tx <==> Roomy(users, settled)
  {
    if mem == tx {
      forall u | u in users ensures users[u] + SumBy(settled, PaidTo(u)) <= I64_MAX {
        assert u in tx.Keys && mem[u] == tx[u];
      }
    }
  }

  lemma {:induction false} SettleIgnoresMarkets(db: Db, closed: Db, settled: seq<Bet>)
    requires closed == db.(markets := closed.markets)
    ensures SettleRows(closed, settled) == SettleRows(db, settled).(markets := closed.markets)
  {
    if |settled| > 0 {
      SettleIgnoresMarkets(db, closed, settled[..|settled| - 1]);
    }
  }
}
