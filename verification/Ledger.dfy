/**
 * The tables behind betting and what one committed transaction does to them: `place` and
 * `settle` of crates/infrastructure/src/persistence/postgres/bet_repository.rs, and the read
 * phases that prepare them in crates/application/src/use_cases.
 */
module Ledger {
  import opened Base
  import opened Sums
  import opened Pricing
  import opened Bets

  const STARTING_BALANCE: int := 10_000

  datatype MarketStatus = Open | Closed | Resolved

  // `board` lists the market's outcomes in creation order (outcomes.seq).
  datatype Market = Market(status: MarketStatus, winner: Option<OutcomeId>, totalVolume: int,
                           participants: int, closesAt: Option<Time>, board: seq<OutcomeId>)
  {
    predicate AcceptsBets(now: Time) {
      status == Open && (closesAt.None? || now < closesAt.value)
    }

    function Resolve(winningOutcome: OutcomeId): Result<Market, string> {
      if status == Resolved then Err("market is already resolved")
      else Ok(this.(status := Resolved, winner := Some(winningOutcome)))
    }
  }

  datatype PricePoint = PricePoint(outcome: OutcomeId, price: int)

  datatype Event = BetPlaced(bet: BetId) | MarketPricesUpdated(market: MarketId)

  // users maps a user to a balance; bets, points and events are in insertion order. notices counts
  // the UserBalanceChanged events of each user, whose order among themselves is unspecified.
  datatype Db = Db(users: map<UserId, int>, markets: map<MarketId, Market>,
                   outcomes: map<OutcomeId, Outcome>, bets: seq<Bet>,
                   points: seq<PricePoint>, events: seq<Event>, notices: multiset<UserId>)

  datatype Failure = Forbidden | NotFound | RuleViolation | Validation | Conflict | Storage

  const EMPTY: Db := Db(map[], map[], map[], [], [], [], multiset{})

  // ----- reads -----

  predicate Stored(ids: seq<OutcomeId>, outcomes: map<OutcomeId, Outcome>) {
    forall i :: 0 <= i < |ids| ==> ids[i] in outcomes
  }

  function Board(ids: seq<OutcomeId>, outcomes: map<OutcomeId, Outcome>): (board: seq<Outcome>)
    requires Stored(ids, outcomes)
    ensures |board| == |ids|
  {
    seq(|ids|, i requires 0 <= i < |ids| => outcomes[ids[i]])
  }

  predicate HasBoard(db: Db, m: MarketId) {
    m in db.markets && Stored(db.markets[m].board, db.outcomes)
  }

  function BoardOf(db: Db, m: MarketId): (board: seq<Outcome>)
    requires HasBoard(db, m)
    ensures |board| == |db.markets[m].board|
  {
    Board(db.markets[m].board, db.outcomes)
  }

  function PricesOn(board: seq<Outcome>): (p: seq<int>)
    ensures |p| == |board|
  {
    seq(|board|, i requires 0 <= i < |board| => board[i].price)
  }

  function IdsOf(board: seq<Outcome>): (ids: seq<OutcomeId>)
    ensures |ids| == |board|
  {
    seq(|board|, i requires 0 <= i < |board| => board[i].id)
  }

  function Position(ids: seq<OutcomeId>, id: OutcomeId): (r: Option<nat>)
    ensures r.Some? <==> id in ids
    ensures r.Some? ==> r.value < |ids| && ids[r.value] == id
  {
    if |ids| == 0 then None
    else if ids[0] == id then Some(0)
    else
      match Position(ids[1..], id)
      case None => None
      case Some(k) => Some(k + 1)
  }

  function PointsOf(board: seq<Outcome>): (points: seq<PricePoint>)
    ensures |points| == |board|
  {
    seq(|board|, i requires 0 <= i < |board| => PricePoint(board[i].id, board[i].price))
  }

  function LastPoint(points: seq<PricePoint>, outcome: OutcomeId): Option<int> {
    if |points| == 0 then None
    else if points[|points| - 1].outcome == outcome then Some(points[|points| - 1].price)
    else LastPoint(points[..|points| - 1], outcome)
  }

  // ----- creating users and markets -----

  predicate CanOpen(db: Db, m: MarketId, ids: seq<OutcomeId>) {
    m !in db.markets && |ids| >= 2 && Distinct(ids) &&
    forall i :: 0 <= i < |ids| ==> ids[i] !in db.outcomes
  }

  function Unpriced(m: MarketId, ids: seq<OutcomeId>): (board: seq<Outcome>)
    ensures |board| == |ids|
  {
    seq(|ids|, i requires 0 <= i < |ids| => Outcome(ids[i], m, 0, 0))
  }

  function InsertBoard(outcomes: map<OutcomeId, Outcome>, board: seq<Outcome>): map<OutcomeId, Outcome> {
    if |board| == 0 then outcomes
    else InsertBoard(outcomes, board[..|board| - 1])[board[|board| - 1].id := board[|board| - 1]]
  }

  function OpenMarket(db: Db, m: MarketId, ids: seq<OutcomeId>, closesAt: Option<Time>): Db {
    var board := Repriced(Unpriced(m, ids));
    db.(markets := db.markets[m := Market(Open, None, 0, 0, closesAt, ids)],
        outcomes := InsertBoard(db.outcomes, board),
        points := db.points + PointsOf(board))
  }

  // ----- preparing a bet: the read phase of PlaceBet -----

  function Admit(db: Db, outcome: OutcomeId, now: Time): Result<MarketId, Failure> {
    if outcome !in db.outcomes then Err(NotFound)
    else if db.outcomes[outcome].market !in db.markets then Err(NotFound)
    else if !db.markets[db.outcomes[outcome].market].AcceptsBets(now) then Err(RuleViolation)
    else Ok(db.outcomes[outcome].market)
  }

  datatype Placement = Placement(bet: Bet, board: seq<Outcome>)

  function AddVolume(o: Outcome, amount: int): Outcome {
    o.(volume := Min(o.volume + amount, I64_MAX))
  }

  function BuildPlacement(db: Db, id: BetId, user: UserId, m: MarketId, outcome: OutcomeId,
                          amount: int): Result<Placement, Failure>
    requires HasBoard(db, m)
  {
    var board := BoardOf(db, m);
    match Position(IdsOf(board), outcome)
    case None => Err(RuleViolation)
    case Some(chosen) =>
      if user !in db.users then Err(NotFound)
      else if db.users[user] < amount then Err(RuleViolation)
      else
        var price := Max(board[chosen].price, MIN_TICK);
        match Bet.Place(id, user, m, outcome, amount, price)
        case Err(_) => Err(Validation)
        case Ok(bet) => Ok(Placement(bet, Repriced(board[chosen := AddVolume(board[chosen], amount)])))
  }

  // The volumes that were priced, stake included, are within 64-bit arithmetic.
  predicate PricingFits(p: Placement) {
    Fits(Volumes(p.board))
  }

  // ----- place: one transaction -----

  function StakeFor(outcome: OutcomeId, bet: Bet): int {
    if outcome == bet.outcome then bet.amount else 0
  }

  // UPDATE outcomes SET volume = volume + staked, current_price = price WHERE id = priced.id
  function UpdateOutcome(outcomes: map<OutcomeId, Outcome>, priced: Outcome, bet: Bet): map<OutcomeId, Outcome> {
    if priced.id in outcomes then
      var row := outcomes[priced.id];
      outcomes[priced.id := row.(volume := row.volume + StakeFor(priced.id, bet), price := priced.price)]
    else outcomes
  }

  function WriteBoard(outcomes: map<OutcomeId, Outcome>, board: seq<Outcome>, bet: Bet): map<OutcomeId, Outcome> {
    if |board| == 0 then outcomes
    else UpdateOutcome(WriteBoard(outcomes, board[..|board| - 1], bet), board[|board| - 1], bet)
  }

  predicate RepeatBettor(bets: seq<Bet>, bet: Bet) {
    exists i :: 0 <= i < |bets| && bets[i].user == bet.user && bets[i].market == bet.market
  }

  // Primary key, foreign keys and CHECK constraints of the bets table.
  predicate Insertable(db: Db, bet: Bet) {
    (forall i :: 0 <= i < |db.bets| ==> db.bets[i].id != bet.id) &&
    bet.market in db.markets && bet.outcome in db.outcomes && bet.amount > 0 && 0 < bet.price <= SCALE
  }

  function Placed(db: Db, bet: Bet, board: seq<Outcome>, points: seq<PricePoint>): Db
    requires bet.user in db.users && bet.market in db.markets
  {
    var market := db.markets[bet.market];
    db.(users := db.users[bet.user := db.users[bet.user] - bet.amount],
        bets := db.bets + [bet],
        outcomes := WriteBoard(db.outcomes, board, bet),
        markets := db.markets[bet.market := market.(
          totalVolume := market.totalVolume + bet.amount,
          participants := market.participants + (if RepeatBettor(db.bets, bet) then 0 else 1))],
        points := db.points + points,
        notices := db.notices + multiset{bet.user},
        events := db.events + [BetPlaced(bet.id), MarketPricesUpdated(bet.market)])
  }

  function PlaceTx(db: Db, bet: Bet, board: seq<Outcome>, points: seq<PricePoint>): Result<Db, Failure> {
    if bet.user !in db.users || db.users[bet.user] < bet.amount then Err(Conflict)
    else if !Insertable(db, bet) then Err(Storage)
    else Ok(Placed(db, bet, board, points))
  }

  /** PlaceBet with nothing in between: admit, read the board, price, commit. */
  function PlaceBet(db: Db, id: BetId, user: UserId, outcome: OutcomeId, amount: int, now: Time): Result<Db, Failure>
    requires Admit(db, outcome, now).Ok? ==> HasBoard(db, Admit(db, outcome, now).value)
  {
    match Admit(db, outcome, now)
    case Err(e) => Err(e)
    case Ok(m) =>
      match BuildPlacement(db, id, user, m, outcome, amount)
      case Err(e) => Err(e)
      case Ok(p) => PlaceTx(db, p.bet, p.board, PointsOf(p.board))
  }

  // ----- resolving a market -----

  function CheckResolve(db: Db, m: MarketId, winner: OutcomeId): Result<Market, Failure> {
    if m !in db.markets then Err(NotFound)
    else if winner !in db.markets[m].board then Err(RuleViolation)
    else
      match db.markets[m].Resolve(winner)
      case Err(_) => Err(RuleViolation)
      case Ok(market) => Ok(market)
  }

  function IsActiveIn(m: MarketId): Bet -> bool {
    (b: Bet) => b.market == m && b.status == Active
  }

  function ActiveIn(bets: seq<Bet>, m: MarketId): seq<Bet> {
    Filter(bets, IsActiveIn(m))
  }

  function SettleEach(bets: seq<Bet>, winner: OutcomeId): (r: seq<Bet>)
    requires forall b :: b in bets ==> b.price > 0
    ensures |r| == |bets|
  {
    seq(|bets|, i requires 0 <= i < |bets| => Settled(bets[i], winner))
  }

  // ----- settle: one transaction -----

  function SetBet(bets: seq<Bet>, s: Bet): (r: seq<Bet>)
    ensures |r| == |bets|
  {
    seq(|bets|, i requires 0 <= i < |bets| =>
      if bets[i].id == s.id then bets[i].(status := s.status, payout := s.payout) else bets[i])
  }

  function Credit(users: map<UserId, int>, s: Bet): map<UserId, int> {
    if s.payout.Some? && s.user in users then users[s.user := users[s.user] + s.payout.value] else users
  }

  function SettleOne(db: Db, s: Bet): Db {
    db.(bets := SetBet(db.bets, s), users := Credit(db.users, s))
  }

  function SettleRows(db: Db, settled: seq<Bet>): Db {
    if |settled| == 0 then db
    else SettleOne(SettleRows(db, settled[..|settled| - 1]), settled[|settled| - 1])
  }

  function CloseMarket(db: Db, m: MarketId, market: Market): Db {
    if m in db.markets
    then db.(markets := db.markets[m := db.markets[m].(status := market.status, winner := market.winner)])
    else db
  }

  // One UserBalanceChanged per paid user, however many bets of theirs were paid.
  function PaidUsers(settled: seq<Bet>): set<UserId> {
    set b | b in settled && b.payout.Some? :: b.user
  }

  function SettleTx(db: Db, m: MarketId, market: Market, settled: seq<Bet>): Db {
    SettleRows(CloseMarket(db, m, market), settled).(notices := db.notices + multiset(PaidUsers(settled)))
  }

  /** ResolveMarket with nothing in between. */
  function ResolveMarket(db: Db, m: MarketId, winner: OutcomeId): Result<Db, Failure>
    requires forall b :: b in db.bets ==> b.price > 0
  {
    match CheckResolve(db, m, winner)
    case Err(e) => Err(e)
    case Ok(market) =>
      Ok(SettleTx(db, m, market, SettleEach(ActiveIn(db.bets, m), winner)))
  }

  // ----- sums over the book -----

  function StakeBy(u: UserId): Bet -> int {
    (b: Bet) => if b.user == u then b.amount else 0
  }

  function StakeOn(o: OutcomeId): Bet -> int {
    (b: Bet) => if b.outcome == o then b.amount else 0
  }

  function StakeIn(m: MarketId): Bet -> int {
    (b: Bet) => if b.market == m then b.amount else 0
  }

  function PaidTo(u: UserId): Bet -> int {
    (b: Bet) => if b.user == u && b.payout.Some? then b.payout.value else 0
  }

  function Bettors(bets: seq<Bet>, m: MarketId): set<UserId> {
    set b | b in bets && b.market == m :: b.user
  }

  // ----- what every committed state satisfies -----

  predicate Lists(outcomes: map<OutcomeId, Outcome>, m: MarketId, o: OutcomeId) {
    o in outcomes && outcomes[o].id == o && outcomes[o].market == m
  }

  predicate BoardOk(outcomes: map<OutcomeId, Outcome>, m: MarketId, ids: seq<OutcomeId>) {
    |ids| >= 2 && Distinct(ids) && forall i :: 0 <= i < |ids| ==> Lists(outcomes, m, ids[i])
  }

  predicate BelongsTo(markets: map<MarketId, Market>, m: MarketId, o: OutcomeId) {
    m in markets && o in markets[m].board
  }

  predicate BoardsOk(markets: map<MarketId, Market>, outcomes: map<OutcomeId, Outcome>) {
    (forall m :: m in markets ==> BoardOk(outcomes, m, markets[m].board)) &&
    (forall o :: o in outcomes ==> BelongsTo(markets, outcomes[o].market, o))
  }

  // A payout is recorded exactly on won bets, as their own terms say; no bet is refunded.
  predicate PayoutOk(b: Bet)
    requires b.price > 0
  {
    b.status != Refunded && b.payout == if b.status == Won then Some(Payout(b.amount, b.price)) else None
  }

  predicate BetOk(users: map<UserId, int>, markets: map<MarketId, Market>, b: Bet) {
    b.user in users && BelongsTo(markets, b.market, b.outcome) &&
    b.amount > 0 && 0 < b.price <= SCALE && PayoutOk(b)
  }

  // Won only on the winner of a resolved market, lost only off it.
  predicate WinnerOk(markets: map<MarketId, Market>, b: Bet) {
    b.status == Won || b.status == Lost ==>
      b.market in markets && markets[b.market].status == Resolved && markets[b.market].winner.Some? &&
      (b.status == Won <==> markets[b.market].winner == Some(b.outcome))
  }

  predicate WinnersOk(markets: map<MarketId, Market>, bets: seq<Bet>) {
    forall i :: 0 <= i < |bets| ==> WinnerOk(markets, bets[i])
  }

  predicate DistinctIds(bets: seq<Bet>) {
    forall i, j :: 0 <= i < j < |bets| ==> bets[i].id != bets[j].id
  }

  predicate BetsOk(users: map<UserId, int>, markets: map<MarketId, Market>, bets: seq<Bet>) {
    DistinctIds(bets) && forall i :: 0 <= i < |bets| ==> BetOk(users, markets, bets[i])
  }

  function Owed(bets: seq<Bet>, u: UserId): int {
    STARTING_BALANCE - SumBy(bets, StakeBy(u)) + SumBy(bets, PaidTo(u))
  }

  predicate BooksBalance(users: map<UserId, int>, bets: seq<Bet>) {
    forall u :: u in users ==> users[u] == Owed(bets, u)
  }

  predicate NoDebt(users: map<UserId, int>) {
    forall u :: u in users ==> users[u] >= 0
  }

  predicate VolumesOk(outcomes: map<OutcomeId, Outcome>, bets: seq<Bet>) {
    forall o :: o in outcomes ==> outcomes[o].volume == SumBy(bets, StakeOn(o))
  }

  predicate AggregatesOk(markets: map<MarketId, Market>, bets: seq<Bet>) {
    forall m :: m in markets ==>
      markets[m].totalVolume == SumBy(bets, StakeIn(m)) && markets[m].participants == |Bettors(bets, m)|
  }

  predicate BoardPriced(prices: seq<int>) {
    Sum(prices) == SCALE && forall i :: 0 <= i < |prices| ==> 0 <= prices[i] <= SCALE
  }

  predicate PricedIn(outcomes: map<OutcomeId, Outcome>, ids: seq<OutcomeId>) {
    Stored(ids, outcomes) && BoardPriced(PricesOn(Board(ids, outcomes)))
  }

  predicate PricesOk(markets: map<MarketId, Market>, outcomes: map<OutcomeId, Outcome>) {
    forall m :: m in markets ==> PricedIn(outcomes, markets[m].board)
  }

  predicate PointsOk(outcomes: map<OutcomeId, Outcome>, points: seq<PricePoint>) {
    forall o :: o in outcomes ==> LastPoint(points, o) == Some(outcomes[o].price)
  }

  // What every transaction keeps, whatever overlaps with it.
  predicate Sound(db: Db) {
    BoardsOk(db.markets, db.outcomes) && BetsOk(db.users, db.markets, db.bets) && NoDebt(db.users) &&
    VolumesOk(db.outcomes, db.bets) && AggregatesOk(db.markets, db.bets) &&
    PricesOk(db.markets, db.outcomes) && PointsOk(db.outcomes, db.points)
  }

  // What resolutions of one market keep as long as they do not overlap.
  predicate Accounted(db: Db) {
    BooksBalance(db.users, db.bets) && WinnersOk(db.markets, db.bets)
  }

  // A prepared placement still fits the tables it will be committed to.
  predicate PlacementOk(db: Db, p: Placement) {
    BelongsTo(db.markets, p.bet.market, p.bet.outcome) &&
    IdsOf(p.board) == db.markets[p.bet.market].board && BoardPriced(PricesOn(p.board)) &&
    p.bet.amount > 0 && 0 < p.bet.price <= SCALE && p.bet.status == Active && p.bet.payout == None
  }
}
