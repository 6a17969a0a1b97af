/** Where the bets of a run come from: what was asked, at which price it was booked, and when. */
module LedgerOrigins {
  import opened Base
  import opened Pricing
  import opened Bets
  import opened Ledger
  import opened LedgerKeeps
  import opened LedgerRuns
  import opened LedgerCalls

  // The outcome is one of an open market whose deadline, if it has one, is still to come.
  predicate TakesBets(db: Db, m: MarketId, outcome: OutcomeId, now: Time) {
    outcome in db.outcomes && db.outcomes[outcome].market == m && m in db.markets && db.markets[m].status == Open &&
    (db.markets[m].closesAt.Some? ==> now < db.markets[m].closesAt.value)
  }

  // Step i asks for this bet, on an outcome of m while m takes bets.
  predicate AskedAt(steps: seq<Step>, i: nat, request: RequestId, user: UserId, m: MarketId, outcome: OutcomeId, amount: int) {
    i < |steps| && steps[i].BeginPlace? && steps[i] == BeginPlace(request, user, outcome, amount, steps[i].now) &&
    TakesBets(Run(steps[..i]).db, m, outcome, steps[i].now)
  }

  // Step j prices it, at what is then stored for its own outcome, and never at nothing.
  predicate PricedAt(steps: seq<Step>, i: nat, j: nat, request: RequestId, b: Bet) {
    i < j < |steps| && steps[j] == PriceBet(request, b.id) &&
    AskedAt(steps, i, request, b.user, b.market, b.outcome, b.amount) &&
    b.outcome in Run(steps[..j]).db.outcomes && b.price == Max(Run(steps[..j]).db.outcomes[b.outcome].price, 1)
  }

  predicate BookedAt(steps: seq<Step>, i: nat, j: nat, k: nat, request: RequestId, b: Bet) {
    j < k < |steps| && steps[k] == CommitPlace(request) && PricedAt(steps, i, j, request, b)
  }

  ghost predicate Origin(steps: seq<Step>, b: Bet) {
    exists i: nat, j: nat, k: nat, request :: BookedAt(steps, i, j, k, request, b)
  }

  ghost predicate InFlightOrigin(steps: seq<Step>, request: RequestId, f: InFlight) {
    match f
    case Admitted(user, m, outcome, amount) => exists i: nat :: AskedAt(steps, i, request, user, m, outcome, amount)
    case Ready(p) => exists i: nat, j: nat :: PricedAt(steps, i, j, request, p.bet)
  }

  ghost predicate PlacingOrigins(steps: seq<Step>, placing: map<RequestId, InFlight>) {
    forall q :: q in placing ==> InFlightOrigin(steps, q, placing[q])
  }

  ghost predicate BetOrigins(steps: seq<Step>, bets: seq<Bet>) {
    forall i :: 0 <= i < |bets| ==> Origin(steps, bets[i])
  }

  // ----- an origin stays one as the run goes on -----

  lemma AskedStays(steps: seq<Step>, n: nat, i: nat, request: RequestId, user: UserId, m: MarketId,
                   outcome: OutcomeId, amount: int)
    requires n <= |steps| && AskedAt(steps[..n], i, request, user, m, outcome, amount)
    ensures AskedAt(steps, i, request, user, m, outcome, amount)
  {
    assert steps[..n][..i] == steps[..i];
  }

  lemma PricedStays(steps: seq<Step>, n: nat, i: nat, j: nat, request: RequestId, b: Bet)
    requires n <= |steps| && PricedAt(steps[..n], i, j, request, b)
    ensures PricedAt(steps, i, j, request, b)
  {
    AskedStays(steps, n, i, request, b.user, b.market, b.outcome, b.amount);
    assert steps[..n][..j] == steps[..j];
  }

  lemma InFlightOriginStays(steps: seq<Step>, n: nat, request: RequestId, f: InFlight)
    requires n <= |steps| && InFlightOrigin(steps[..n], request, f)
    ensures InFlightOrigin(steps, request, f)
  {
    match f
    case Admitted(user, m, outcome, amount) =>
      var i: nat :| AskedAt(steps[..n], i, request, user, m, outcome, amount);
      AskedStays(steps, n, i, request, user, m, outcome, amount);
    case Ready(p) =>
      var i: nat, j: nat :| PricedAt(steps[..n], i, j, request, p.bet);
      PricedStays(steps, n, i, j, request, p.bet);
  }

  // Settling changes none of the terms an origin is about.
  lemma OriginStays(steps: seq<Step>, n: nat, b: Bet, after: Bet)
    requires n <= |steps| && Origin(steps[..n], b) && after == b.(status := after.status, payout := after.payout)
    ensures Origin(steps, after)
  {
    var i: nat, j: nat, k: nat, request :| BookedAt(steps[..n], i, j, k, request, b);
    PricedStays(steps, n, i, j, request, b);
    assert BookedAt(steps, i, j, k, request, after);
  }

  // ----- each step gives its results an origin -----

  lemma AdmissionIsAsked(steps: seq<Step>, n: nat, request: RequestId)
    requires n < |steps| && steps[n].BeginPlace? && steps[n].request == request
    requires var w := Run(steps[..n]); request !in w.placing && request in Apply(w, steps[n]).placing
    ensures InFlightOrigin(steps, request, Apply(Run(steps[..n]), steps[n]).placing[request])
  {
    var w, step := Run(steps[..n]), steps[n];
    var m := Admit(w.db, step.outcome, step.now).value;
    assert AskedAt(steps, n, request, step.user, m, step.outcome, step.amount);
  }

  lemma RowsAreKeyed(db: Db)
    requires BoardsOk(db.markets, db.outcomes)
    ensures Keyed(db.outcomes)
  {
    forall o | o in db.outcomes ensures db.outcomes[o].id == o {
      assert BelongsTo(db.markets, db.outcomes[o].market, o);
      var m := db.outcomes[o].market;
      assert BoardOk(db.outcomes, m, db.markets[m].board);
      var i :| 0 <= i < |db.markets[m].board| && db.markets[m].board[i] == o;
      assert Lists(db.outcomes, m, db.markets[m].board[i]);
    }
  }

  lemma PricingIsPriced(steps: seq<Step>, n: nat, request: RequestId, a: InFlight)
    requires n < |steps| && steps[n].PriceBet? && steps[n].request == request && a.Admitted?
    requires Keyed(Run(steps[..n]).db.outcomes) && HasBoard(Run(steps[..n]).db, a.market)
    requires PlacementOf(Run(steps[..n]).db, a, steps[n].bet).Ok? && InFlightOrigin(steps[..n], request, a)
    ensures InFlightOrigin(steps, request, Ready(PlacementOf(Run(steps[..n]).db, a, steps[n].bet).value))
  {
    var db := Run(steps[..n]).db;
    var p := PlacementOf(db, a, steps[n].bet).value;
    BetIsBookedAtItsOutcomesPrice(db, steps[n].bet, a.user, a.market, a.outcome, a.amount);
    var i: nat :| AskedAt(steps[..n], i, request, a.user, a.market, a.outcome, a.amount);
    AskedStays(steps, n, i, request, a.user, a.market, a.outcome, a.amount);
    assert PricedAt(steps, i, n, request, p.bet);
  }

  lemma CommitIsBooked(steps: seq<Step>, n: nat, request: RequestId, p: Placement)
    requires n < |steps| && steps[n] == CommitPlace(request) && InFlightOrigin(steps[..n], request, Ready(p))
    ensures Origin(steps, p.bet)
  {
    var i: nat, j: nat :| PricedAt(steps[..n], i, j, request, p.bet);
    PricedStays(steps, n, i, j, request, p.bet);
    assert BookedAt(steps, i, j, n, request, p.bet);
  }

  // The admitted request, priced now.
  function PlacementOf(db: Db, a: InFlight, bet: BetId): Result<Placement, Failure>
    requires a.Admitted? && HasBoard(db, a.market)
  {
    BuildPlacement(db, bet, a.user, a.market, a.outcome, a.amount)
  }

  // What a step may put under a request: what was there, or the next stage of that same request.
  lemma StepChangesOwnRequest(w: World, step: Step, q: RequestId)
    requires q in Apply(w, step).placing
    ensures (q in w.placing && Apply(w, step).placing[q] == w.placing[q]) ||
            (step.BeginPlace? && step.request == q && q !in w.placing) ||
            (step.PriceBet? && step.request == q && q in w.placing && w.placing[q].Admitted? &&
             HasBoard(w.db, w.placing[q].market) && PlacementOf(w.db, w.placing[q], step.bet).Ok? &&
             Apply(w, step).placing[q] == Ready(PlacementOf(w.db, w.placing[q], step.bet).value))
  {
  }

  lemma PlacingKeepsOrigins(steps: seq<Step>, n: nat)
    requires n < |steps| && Keyed(Run(steps[..n]).db.outcomes)
    requires PlacingOrigins(steps[..n], Run(steps[..n]).placing)
    ensures PlacingOrigins(steps, Apply(Run(steps[..n]), steps[n]).placing)
  {
    var w, after := Run(steps[..n]), Apply(Run(steps[..n]), steps[n]);
    forall q | q in after.placing ensures InFlightOrigin(steps, q, after.placing[q]) {
      StepChangesOwnRequest(w, steps[n], q);
      if q in w.placing && after.placing[q] == w.placing[q] {
        InFlightOriginStays(steps, n, q, w.placing[q]);
      } else if steps[n].BeginPlace? {
        AdmissionIsAsked(steps, n, q);
      } else {
        PricingIsPriced(steps, n, q, w.placing[q]);
      }
    }
  }

  // Bets of before, with their terms, and at most the committed one after them.
  lemma StepKeepsBets(w: World, step: Step)
    ensures TermsKept(w.db, Apply(w, step).db)
    ensures var after := Apply(w, step).db.bets;
            |after| > |w.db.bets| ==>
              step.CommitPlace? && step.request in w.placing && w.placing[step.request].Ready? &&
              after == w.db.bets + [w.placing[step.request].placement.bet]
  {
    if step.CommitSettle? && step.request in w.resolving && w.resolving[step.request].Loaded? {
      var r := w.resolving[step.request];
      SettleKeepsOthers(w.db, r.market, ResolvedRow(r.winner), r.settled);
      SettlePaysEachUserTheirPayouts(CloseMarket(w.db, r.market, ResolvedRow(r.winner)), r.settled);
    }
  }

  lemma BetsKeepOrigins(steps: seq<Step>, n: nat)
    requires n < |steps| && BetOrigins(steps[..n], Run(steps[..n]).db.bets)
    requires PlacingOrigins(steps[..n], Run(steps[..n]).placing)
    ensures BetOrigins(steps, Apply(Run(steps[..n]), steps[n]).db.bets)
  {
    var w, after := Run(steps[..n]), Apply(Run(steps[..n]), steps[n]);
    StepKeepsBets(w, steps[n]);
    forall i | 0 <= i < |after.db.bets| ensures Origin(steps, after.db.bets[i]) {
      if i < |w.db.bets| {
        OriginStays(steps, n, w.db.bets[i], after.db.bets[i]);
      } else {
        CommitIsBooked(steps, n, steps[n].request, w.placing[steps[n].request].placement);
      }
    }
  }

  lemma {:induction false} RunsHaveOrigins(steps: seq<Step>)
    ensures PlacingOrigins(steps, Run(steps).placing) && BetOrigins(steps, Run(steps).db.bets)
  {
    if |steps| > 0 {
      var n := |steps| - 1;
      RunsHaveOrigins(steps[..n]);
      RunsKeepInv(steps[..n]);
      RowsAreKeyed(Run(steps[..n]).db);
      PlacingKeepsOrigins(steps, n);
      BetsKeepOrigins(steps, n);
    }
  }

  /**
   * Every bet of a run was asked for while its market was open and before its deadline, then booked at
   * the price stored for its own outcome at that moment, one tick at least, and then committed, all
   * under one request and with the user, outcome and amount asked for.
   */
  lemma EveryBetWasAskedAndPriced(steps: seq<Step>, index: nat)
    requires index < |Run(steps).db.bets|
    ensures exists i: nat, j: nat, k: nat, request :: BookedAt(steps, i, j, k, request, Run(steps).db.bets[index])
  {
    RunsHaveOrigins(steps);
    assert Origin(steps, Run(steps).db.bets[index]);
  }
}
