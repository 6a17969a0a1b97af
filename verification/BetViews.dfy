/** Listings of bets joined with names and open-position averages (use_cases/bet.rs). */
module BetViews {
  import opened Base
  import opened Bets
  import opened Ledger
  import opened LedgerRuns

  datatype BetView = BetView(bet: Bet, username: string, marketTitle: string, outcomeLabel: string, avgPrice: int)

  // What the listing joins against. `labels` holds each outcome's market beside its label.
  datatype Names = Names(users: map<UserId, string>, titles: map<MarketId, string>,
                         labels: map<OutcomeId, (MarketId, string)>)

  datatype Missing = MissingUser(user: UserId) | MissingMarket(market: MarketId) | MissingOutcome(outcome: OutcomeId)

  function MarketsIn(listed: seq<Bet>): set<MarketId> {
    set b | b in listed :: b.market
  }

  // outcomes_for_markets: only the outcomes of the markets that occur in the listing.
  function LabelsFor(names: Names, markets: set<MarketId>): map<OutcomeId, string> {
    map o | o in names.labels && names.labels[o].0 in markets :: names.labels[o].1
  }

  predicate Linked(names: Names, markets: set<MarketId>, b: Bet) {
    b.user in names.users && b.market in names.titles && b.outcome in LabelsFor(names, markets)
  }

  // The bet as it is, its owner's name, the title and label of where it was placed, and the position's
  // average while any of it is open, the bet's own price once it is closed.
  predicate Shows(v: BetView, names: Names, book: seq<Bet>, b: Bet) {
    v.bet == b && b.user in names.users && v.username == names.users[b.user] &&
    b.market in names.titles && v.marketTitle == names.titles[b.market] &&
    b.outcome in names.labels && v.outcomeLabel == names.labels[b.outcome].1 &&
    v.avgPrice == AveragePrice(book, b.user, b.outcome).GetOr(b.price)
  }

  // A row the listing needs is not there; a label counts only under a market of the listing.
  predicate Explains(e: Missing, listed: seq<Bet>, names: Names) {
    exists i :: 0 <= i < |listed| && Lacks(e, listed, names, listed[i])
  }

  predicate Lacks(e: Missing, listed: seq<Bet>, names: Names, b: Bet) {
    match e
    case MissingUser(user) => user == b.user && user !in names.users
    case MissingMarket(market) => market == b.market && market !in names.titles
    case MissingOutcome(outcome) =>
      outcome == b.outcome &&
      (outcome in names.labels ==> forall k :: 0 <= k < |listed| ==> listed[k].market != names.labels[outcome].0)
  }

  /** enrich: one view per bet, in order; it fails exactly when some bet refers to a missing row. */
  method Enrich(listed: seq<Bet>, book: seq<Bet>, names: Names) returns (r: Result<seq<BetView>, Missing>)
    ensures r.Ok? <==> forall b :: b in listed ==> Linked(names, MarketsIn(listed), b)
    ensures r.Ok? ==> |r.value| == |listed| && forall i :: 0 <= i < |listed| ==> Shows(r.value[i], names, book, listed[i])
    ensures r.Err? ==> Explains(r.error, listed, names)
  {
    var markets := MarketsIn(listed);
    var labels := LabelsFor(names, markets);
    var usernames: map<UserId, string> := map[];
    for i := 0 to |listed|
      invariant forall u :: u in usernames ==> u in names.users && usernames[u] == names.users[u]
      invariant forall k :: 0 <= k < i ==> listed[k].user in usernames
    {
      var user := listed[i].user;
      if user !in usernames {
        if user !in names.users {
          assert !Linked(names, markets, listed[i]) && Lacks(MissingUser(user), listed, names, listed[i]);
          return Err(MissingUser(user));
        }
        usernames := usernames[user := names.users[user]];
      }
    }
    var views: seq<BetView> := [];
    for i := 0 to |listed|
      invariant |views| == i
      invariant forall k :: 0 <= k < i ==> Linked(names, markets, listed[k]) && Shows(views[k], names, book, listed[k])
    {
      var b := listed[i];
      if b.market !in names.titles {
        assert !Linked(names, markets, listed[i]) && Lacks(MissingMarket(b.market), listed, names, listed[i]);
        return Err(MissingMarket(b.market));
      }
      if b.outcome !in labels {
        assert !Linked(names, markets, listed[i]);
        assert forall k :: 0 <= k < |listed| ==> listed[k].market in markets;
        assert Lacks(MissingOutcome(b.outcome), listed, names, listed[i]);
        return Err(MissingOutcome(b.outcome));
      }
      var avg := ActivePosition(book, b.user, b.outcome);
      views := views + [BetView(b, usernames[b.user], names.titles[b.market], labels[b.outcome], avg.GetOr(b.price))];
    }
    return Ok(views);
  }

  // Every row of the ledger has its name.
  predicate Complete(db: Db, names: Names) {
    names.users.Keys == db.users.Keys && names.titles.Keys == db.markets.Keys &&
    names.labels.Keys == db.outcomes.Keys &&
    forall o :: o in names.labels && o in db.outcomes ==> names.labels[o].0 == db.outcomes[o].market
  }

  /** In every run of the ledger, any listing of stored bets can be joined: no bet refers to a missing row. */
  lemma ListingsAlwaysJoin(steps: seq<Step>, names: Names, listed: seq<Bet>, b: Bet)
    requires Complete(Run(steps).db, names) && b in listed
    requires forall x :: x in listed ==> x in Run(steps).db.bets
    ensures Linked(names, MarketsIn(listed), b)
  {
    var db := Run(steps).db;
    RunsKeepInv(steps);
    var i :| 0 <= i < |db.bets| && db.bets[i] == b;
    assert BetOk(db.users, db.markets, db.bets[i]);
    assert BoardOk(db.outcomes, b.market, db.markets[b.market].board);
    var k :| 0 <= k < |db.markets[b.market].board| && db.markets[b.market].board[k] == b.outcome;
    assert Lists(db.outcomes, b.market, b.outcome);
    assert b.user in names.users.Keys && b.market in names.titles.Keys && b.outcome in names.labels.Keys;
    assert b.market in MarketsIn(listed);
  }
}
