/**
 * Which pending events a lone processor gets to. Every event either fails for good or fails some
 * number of times first; failed events are tried again before anything behind them.
 */
module OutboxProgress {
  import opened Base
  import opened Sums
  import opened Outbox
  import opened OutboxProcessor

  // ----- backlogs -----

  // How many more times an event will fail, if it does not always.
  datatype Fate = Always | Times(left: nat)

  datatype Entry = Entry(id: EventId, fate: Fate)

  // An event that is tried: delivered, or back in its place with one failure less to come.
  function Retried(e: Entry): seq<Entry> {
    match e.fate
    case Always => [e]
    case Times(left) => if left == 0 then [] else [Entry(e.id, Times(left - 1))]
  }

  function Retry(tried: seq<Entry>): seq<Entry> {
    if |tried| == 0 then [] else Retry(tried[..|tried| - 1]) + Retried(tried[|tried| - 1])
  }

  // The oldest BATCH entries are tried, the others wait.
  function Pass(backlog: seq<Entry>): seq<Entry> {
    var n := Min(BATCH, |backlog|);
    Retry(backlog[..n]) + backlog[n..]
  }

  function Lasting(): Entry -> int {
    (e: Entry) => if e.fate == Always then 1 else 0
  }

  // Tries an event still needs, if it is ever to leave.
  function Tries(): Entry -> int {
    (e: Entry) => if e.fate == Always then 0 else e.fate.left + 1
  }

  function LastingIn(backlog: seq<Entry>): int {
    SumBy(backlog, Lasting())
  }

  function WorkIn(backlog: seq<Entry>): int {
    SumBy(backlog, Tries())
  }

  predicate Holds(backlog: seq<Entry>, g: EventId) {
    exists i :: 0 <= i < |backlog| && backlog[i].id == g
  }

  // ----- who is reached -----

  // A try costs every event that does not always fail one of the tries it needs.
  lemma {:induction false} RetryCounts(tried: seq<Entry>)
    ensures LastingIn(Retry(tried)) == LastingIn(tried)
    ensures WorkIn(Retry(tried)) == WorkIn(tried) - (|tried| - LastingIn(tried))
    ensures |Retry(tried)| <= |tried|
    ensures 0 <= LastingIn(tried) <= |tried| && WorkIn(tried) >= 0
    ensures forall g :: Holds(Retry(tried), g) ==> Holds(tried, g)
  {
    if |tried| > 0 {
      var n := |tried| - 1;
      RetryCounts(tried[..n]);
      RetriedCounts(Retry(tried[..n]), tried[n]);
      forall g | Holds(Retry(tried), g) ensures Holds(tried, g) {
        if Holds(Retry(tried[..n]), g) {
          var i :| 0 <= i < n && tried[..n][i].id == g;
          assert tried[i].id == g;
        } else {
          assert tried[n].id == g;
        }
      }
    }
  }

  lemma RetriedCounts(before: seq<Entry>, e: Entry)
    ensures LastingIn(before + Retried(e)) == LastingIn(before) + Lasting()(e)
    ensures WorkIn(before + Retried(e)) == WorkIn(before) + Tries()(e) - (1 - Lasting()(e))
  {
    if Retried(e) == [] {
      assert before + [] == before;
    } else {
      SumSnoc(before, Retried(e)[0], Lasting());
      SumSnoc(before, Retried(e)[0], Tries());
      assert Retried(e) == [Retried(e)[0]];
    }
  }

  // What lies in front of g after a full pass that does not reach it.
  lemma FullPass(front: seq<Entry>, e: Entry) returns (front': seq<Entry>)
    requires |front| >= BATCH
    ensures Pass(front + [e]) == front' + [e]
    ensures LastingIn(front') == LastingIn(front)
    ensures 0 <= WorkIn(front') <= WorkIn(front) - (BATCH - LastingIn(front))
    ensures forall g :: Holds(front', g) ==> Holds(front, g)
  {
    var tried, rest := front[..BATCH], front[BATCH..];
    front' := Retry(tried) + rest;
    RetryCounts(tried);
    RetryCounts(front');
    CountsSplit(tried, rest);
    CountsSplit(Retry(tried), rest);
    assert front == tried + rest;
    assert (front + [e])[..BATCH] == tried && (front + [e])[BATCH..] == rest + [e];
    HoldsEither(Retry(tried), rest);
    HoldsEither(tried, rest);
  }

  lemma CountsSplit(a: seq<Entry>, b: seq<Entry>)
    ensures LastingIn(a + b) == LastingIn(a) + LastingIn(b) && LastingIn(b) >= 0
    ensures WorkIn(a + b) == WorkIn(a) + WorkIn(b)
  {
    SumConcat(a, b, Lasting());
    SumConcat(a, b, Tries());
    RetryCounts(b);
  }

  lemma HoldsEither(a: seq<Entry>, b: seq<Entry>)
    ensures forall g :: Holds(a + b, g) <==> Holds(a, g) || Holds(b, g)
  {
    forall g ensures Holds(a + b, g) <==> Holds(a, g) || Holds(b, g) {
      if Holds(a, g) {
        var i :| 0 <= i < |a| && a[i].id == g;
        assert (a + b)[i].id == g;
      }
      if Holds(b, g) {
        var i :| 0 <= i < |b| && b[i].id == g;
        assert (a + b)[|a| + i].id == g;
      }
      if Holds(a + b, g) {
        var i :| 0 <= i < |a + b| && (a + b)[i].id == g;
        if i < |a| {
          assert a[i].id == g;
        } else {
          assert b[i - |a|].id == g;
        }
      }
    }
  }

  lemma RetrySnoc(tried: seq<Entry>, e: Entry)
    ensures Retry(tried + [e]) == Retry(tried) + Retried(e)
  {
    assert (tried + [e])[..|tried|] == tried;
  }

  lemma ShortPass(backlog: seq<Entry>)
    requires |backlog| <= BATCH
    ensures Pass(backlog) == Retry(backlog)
  {
    assert backlog[..|backlog|] == backlog && backlog[|backlog|..] == [];
  }

  lemma PassBringsNothing(backlog: seq<Entry>, g: EventId)
    requires !Holds(backlog, g)
    ensures !Holds(Pass(backlog), g)
  {
    var k := Min(BATCH, |backlog|);
    assert backlog == backlog[..k] + backlog[k..];
    HoldsEither(backlog[..k], backlog[k..]);
    RetryCounts(backlog[..k]);
    HoldsEither(Retry(backlog[..k]), backlog[k..]);
  }

  // The backlog before and after each of a number of passes.
  predicate IsRun(trace: seq<seq<Entry>>) {
    |trace| > 0 && forall i :: 0 <= i < |trace| - 1 ==> trace[i + 1] == Pass(trace[i])
  }

  lemma RestOfRun(trace: seq<seq<Entry>>)
    requires IsRun(trace) && |trace| > 1
    ensures IsRun(trace[1..]) && trace[1] == Pass(trace[0])
  {
    assert forall i :: 0 <= i < |trace[1..]| ==> trace[1..][i] == trace[i + 1];
  }

  lemma {:induction false} GoneStaysGone(trace: seq<seq<Entry>>, g: EventId)
    requires IsRun(trace) && !Holds(trace[0], g)
    ensures !Holds(trace[|trace| - 1], g)
  {
    if |trace| > 1 {
      RestOfRun(trace);
      PassBringsNothing(trace[0], g);
      GoneStaysGone(trace[1..], g);
    }
  }

  // n * d, counted one by one so that a pass is one step.
  function Cleared(n: int, d: nat): nat {
    if n <= 0 then 0 else Cleared(n - 1, d) + d
  }

  lemma {:induction false} ClearedIsProduct(n: nat, d: nat)
    ensures Cleared(n, d) == n * d
  {
    if n > 0 {
      ClearedIsProduct(n - 1, d);
      assert (n - 1) * d + d == n * d;
    }
  }

  // n passes do for an event with `left` failures to come behind `work` tries of others: every pass
  // that does not reach it takes at least BATCH - lasting of those.
  predicate Enough(n: nat, left: nat, lasting: int, work: int) {
    lasting < BATCH && Cleared(n - left, BATCH - lasting) > work
  }

  lemma TriedPass(front: seq<Entry>, e: Entry)
    requires |front| < BATCH
    ensures Pass(front + [e]) == Retry(front) + Retried(e)
  {
    ShortPass(front + [e]);
    RetrySnoc(front, e);
  }

  // Once it is within the batch, an event is tried in every pass.
  lemma {:induction false} ReachedSoon(trace: seq<seq<Entry>>, front: seq<Entry>, g: EventId, left: nat)
    requires IsRun(trace) && trace[0] == front + [Entry(g, Times(left))]
    requires !Holds(front, g) && |front| < BATCH && |trace| - 1 > left
    ensures !Holds(trace[|trace| - 1], g)
    decreases left
  {
    RestOfRun(trace);
    RetryCounts(front);
    TriedPass(front, Entry(g, Times(left)));
    if left == 0 {
      assert Retry(front) + [] == Retry(front);
      GoneStaysGone(trace[1..], g);
    } else {
      ReachedSoon(trace[1..], Retry(front), g, left - 1);
    }
  }

  /** With fewer than BATCH always-failing events in front of it, an event is gone after enough passes. */
  lemma {:induction false} ReachedWithin(trace: seq<seq<Entry>>, front: seq<Entry>, g: EventId, left: nat)
    requires IsRun(trace) && trace[0] == front + [Entry(g, Times(left))] && !Holds(front, g)
    requires Enough(|trace| - 1, left, LastingIn(front), WorkIn(front))
    ensures !Holds(trace[|trace| - 1], g)
    decreases |trace|
  {
    RetryCounts(front);
    if |front| < BATCH {
      ReachedSoon(trace, front, g, left);
    } else {
      var front' := FullPass(front, Entry(g, Times(left)));
      RestOfRun(trace);
      ReachedWithin(trace[1..], front', g, left);
    }
  }

  /** Behind BATCH always-failing events an event is never even tried. */
  lemma {:induction false} NeverReached(trace: seq<seq<Entry>>, front: seq<Entry>, e: Entry)
    requires IsRun(trace) && trace[0] == front + [e] && LastingIn(front) >= BATCH
    ensures var last := trace[|trace| - 1];
            |last| > 0 && last[|last| - 1] == e
    decreases |trace|
  {
    RetryCounts(front);
    if |trace| > 1 {
      var front' := FullPass(front, e);
      RestOfRun(trace);
      NeverReached(trace[1..], front', e);
    }
  }

  // Any n passes from this backlog leave it without g.
  ghost predicate GoneAfter(backlog: seq<Entry>, n: nat, g: EventId) {
    forall trace :: IsRun(trace) && |trace| == n + 1 && trace[0] == backlog ==> !Holds(trace[n], g)
  }

  lemma {:induction false} SomeRun(backlog: seq<Entry>, n: nat) returns (trace: seq<seq<Entry>>)
    ensures IsRun(trace) && |trace| == n + 1 && trace[0] == backlog
  {
    if n == 0 {
      trace := [backlog];
    } else {
      var front := SomeRun(backlog, n - 1);
      trace := front + [Pass(front[n - 1])];
    }
  }

  /**
   * An event that fails `left` times first is delivered after some number of passes exactly when
   * fewer than BATCH of the events in front of it always fail, and then any n above the tries the
   * others need plus its own failures does.
   */
  lemma EventuallyReachedIff(front: seq<Entry>, g: EventId, left: nat)
    requires !Holds(front, g)
    ensures (exists n: nat :: GoneAfter(front + [Entry(g, Times(left))], n, g)) <==> LastingIn(front) < BATCH
    ensures forall n: nat :: n > WorkIn(front) + left && LastingIn(front) < BATCH ==>
              GoneAfter(front + [Entry(g, Times(left))], n, g)
  {
    var backlog := front + [Entry(g, Times(left))];
    RetryCounts(front);
    forall n: nat | n > WorkIn(front) + left && LastingIn(front) < BATCH ensures GoneAfter(backlog, n, g) {
      EnoughPasses(front, g, left, n);
    }
    if LastingIn(front) < BATCH {
      assert GoneAfter(backlog, WorkIn(front) + left + 1, g);
    } else {
      forall n: nat ensures !GoneAfter(backlog, n, g) {
        var trace := SomeRun(backlog, n);
        NeverReached(trace, front, Entry(g, Times(left)));
        assert trace[n][|trace[n]| - 1].id == g;
      }
    }
  }

  lemma EnoughPasses(front: seq<Entry>, g: EventId, left: nat, n: nat)
    requires !Holds(front, g) && LastingIn(front) < BATCH && n > WorkIn(front) + left
    ensures GoneAfter(front + [Entry(g, Times(left))], n, g)
  {
    RetryCounts(front);
    AtLeastOnce(n - left, BATCH - LastingIn(front));
    forall trace | IsRun(trace) && |trace| == n + 1 && trace[0] == front + [Entry(g, Times(left))]
      ensures !Holds(trace[n], g)
    {
      ReachedWithin(trace, front, g, left);
    }
  }

  lemma {:induction false} AtLeastOnce(n: nat, d: nat)
    requires d >= 1
    ensures Cleared(n, d) >= n
  {
    if n > 0 {
      AtLeastOnce(n - 1, d);
    }
  }

  // ----- the protocol makes such deliveries -----

  function HandleAll(h: Handlers, p: ProcessorId, events: seq<Row>, answers: nat -> Answer, from: nat): seq<Step> {
    if |events| == 0 then []
    else
      var front, e := events[..|events| - 1], events[|events| - 1];
      HandleAll(h, p, front, answers, from) +
      [Handle(p, Draw(answers, from + AskedBy(h, front), |HandlersOf(h, e.topic)|))]
  }

  lemma RunFromSnoc(h: Handlers, w: World, steps: seq<Step>, step: Step)
    ensures RunFrom(h, w, steps + [step]) == Apply(h, RunFrom(h, w, steps), step)
  {
    assert (steps + [step])[..|steps|] == steps;
  }

  function MidPass(h: Handlers, w: World, p: ProcessorId, events: seq<Row>, k: nat,
                   answers: nat -> Answer, from: nat): World
    requires k <= |events|
  {
    w.(claims := w.claims[p := Claim(events, k, Results(h, events[..k], answers, from))])
  }

  function Answering(h: Handlers, p: ProcessorId, events: seq<Row>, k: nat, answers: nat -> Answer, from: nat): Step
    requires k < |events|
  {
    Handle(p, Draw(answers, from + AskedBy(h, events[..k]), |HandlersOf(h, events[k].topic)|))
  }

  lemma HandledOne(h: Handlers, w: World, p: ProcessorId, c: Claim, answers: seq<Answer>)
    requires c.next < |c.events| && |answers| == |HandlersOf(h, c.events[c.next].topic)|
    ensures var e := c.events[c.next];
            var c' := Claim(c.events, c.next + 1, c.results[e.id := CallsFor(h, e, answers)]);
            Apply(h, w.(claims := w.claims[p := c]), Handle(p, answers)) == w.(claims := w.claims[p := c'])
  {
  }

  lemma HandledNext(h: Handlers, w: World, p: ProcessorId, events: seq<Row>, k: nat, answers: nat -> Answer, from: nat)
    requires k < |events|
    ensures Apply(h, MidPass(h, w, p, events, k, answers, from), Answering(h, p, events, k, answers, from)) ==
            MidPass(h, w, p, events, k + 1, answers, from)
  {
    ResultsSnoc(h, events, k, answers, from);
    HandledOne(h, w, p, Claim(events, k, Results(h, events[..k], answers, from)),
               Answering(h, p, events, k, answers, from).answers);
  }

  lemma HandleAllSnoc(h: Handlers, p: ProcessorId, events: seq<Row>, k: nat, answers: nat -> Answer, from: nat)
    requires k < |events|
    ensures HandleAll(h, p, events[..k + 1], answers, from) ==
            HandleAll(h, p, events[..k], answers, from) + [Answering(h, p, events, k, answers, from)]
  {
    assert events[..k + 1][..k] == events[..k];
  }

  lemma {:induction false} HandledInTurn(h: Handlers, w: World, p: ProcessorId, events: seq<Row>, k: nat,
                                         answers: nat -> Answer, from: nat)
    requires k <= |events| && p in w.claims && w.claims[p] == Claim(events, 0, map[])
    ensures RunFrom(h, w, HandleAll(h, p, events[..k], answers, from)) == MidPass(h, w, p, events, k, answers, from)
  {
    if k > 0 {
      HandledInTurn(h, w, p, events, k - 1, answers, from);
      HandleAllSnoc(h, p, events, k - 1, answers, from);
      HandledNext(h, w, p, events, k - 1, answers, from);
      RunFromSnoc(h, w, HandleAll(h, p, events[..k - 1], answers, from), Answering(h, p, events, k - 1, answers, from));
    } else {
      assert w.claims[p := w.claims[p]] == w.claims;
      assert events[..0] == [];
    }
  }

  lemma ClaimAlone(h: Handlers, w: World, p: ProcessorId)
    requires w.claims == map[]
    ensures Apply(h, w, ClaimBatch(p)) == w.(claims := map[p := Claim(Batch(w.rows), 0, map[])])
  {
    BatchIsClaimable(w.rows);
    assert Locked(w.claims) == {};
  }

  lemma CommitHandled(h: Handlers, w: World, p: ProcessorId, events: seq<Row>, answers: nat -> Answer, from: nat, now: Time)
    ensures Apply(h, MidPass(h, w, p, events, |events|, answers, from), Commit(p, now)).rows ==
            MarkRows(w.rows, Results(h, events, answers, from), now)
  {
    assert events[..|events|] == events;
  }

  /** deliver_batch with no other claim open is the protocol's claim, handle each, commit. */
  lemma DeliveryIsARun(h: Handlers, w: World, p: ProcessorId, answers: nat -> Answer, from: nat, now: Time)
    requires w.claims == map[]
    ensures var events := Batch(w.rows);
            RunFrom(h, w, [ClaimBatch(p)] + HandleAll(h, p, events, answers, from) + [Commit(p, now)]).rows ==
            MarkRows(w.rows, Results(h, events, answers, from), now)
  {
    var events := Batch(w.rows);
    var handles := HandleAll(h, p, events, answers, from);
    var claimed := Apply(h, w, ClaimBatch(p));
    ClaimAlone(h, w, p);
    RunFromSplit(h, w, ClaimBatch(p), handles);
    assert events[..|events|] == events;
    HandledInTurn(h, claimed, p, events, |events|, answers, from);
    RunFromSnoc(h, w, [ClaimBatch(p)] + handles, Commit(p, now));
    CommitHandled(h, claimed, p, events, answers, from, now);
  }

  lemma {:induction false} RunFromSplit(h: Handlers, w: World, first: Step, rest: seq<Step>)
    ensures RunFrom(h, w, [first] + rest) == RunFrom(h, Apply(h, w, first), rest)
  {
    if |rest| == 0 {
      assert [first] + rest == [first];
      assert [first][..0] == [];
      assert RunFrom(h, w, []) == w;
    } else {
      var n := |rest| - 1;
      RunFromSplit(h, w, first, rest[..n]);
      assert [first] + rest == ([first] + rest[..n]) + [rest[n]];
      RunFromSnoc(h, w, [first] + rest[..n], rest[n]);
    }
  }

  // ----- passes over the table -----

  // How often each event fails before it succeeds; None is for ever.
  type Budget = EventId -> Option<nat>

  function FateOf(r: Row, budget: Budget): Fate {
    match budget(r.id)
    case None => Always
    case Some(n) => Times(if r.attempts < n then n - r.attempts else 0)
  }

  function EntryOf(r: Row, budget: Budget): Entry {
    Entry(r.id, FateOf(r, budget))
  }

  function Entries(rows: seq<Row>, budget: Budget): (entries: seq<Entry>)
    ensures |entries| == |rows|
  {
    seq(|rows|, i requires 0 <= i < |rows| => EntryOf(rows[i], budget))
  }

  // The calls of a pass went as the budget says.
  ghost predicate Obeys(rows: seq<Row>, results: map<EventId, seq<Call>>, budget: Budget) {
    forall r :: r in rows && r.id in results ==> (Succeeds(results[r.id]) <==> FateOf(r, budget) == Times(0))
  }

  function Remaining(r: Row, results: map<EventId, seq<Call>>, budget: Budget): seq<Entry> {
    if r.id in results then Retried(EntryOf(r, budget)) else [EntryOf(r, budget)]
  }

  function AllRemaining(rows: seq<Row>, results: map<EventId, seq<Call>>, budget: Budget): seq<Entry> {
    if |rows| == 0 then []
    else AllRemaining(rows[..|rows| - 1], results, budget) + Remaining(rows[|rows| - 1], results, budget)
  }

  lemma EntriesSnoc(rows: seq<Row>, r: Row, budget: Budget)
    ensures Entries(rows + [r], budget) == Entries(rows, budget) + [EntryOf(r, budget)]
  {
  }

  lemma MarkedRemains(r: Row, results: map<EventId, seq<Call>>, budget: Budget, now: Time)
    requires r.id in results ==> r.Pending() && (Succeeds(results[r.id]) <==> FateOf(r, budget) == Times(0))
    ensures var m := Marked(r, results, now);
            if r.Pending() then Remaining(r, results, budget) == if m.Pending() then [EntryOf(m, budget)] else []
            else !m.Pending()
  {
  }

  lemma {:induction false} MarkedEntries(rows: seq<Row>, results: map<EventId, seq<Call>>, budget: Budget, now: Time)
    requires Obeys(rows, results, budget) && forall r :: r in rows && r.id in results ==> r.Pending()
    ensures Entries(PendingRows(MarkRows(rows, results, now)), budget) == AllRemaining(PendingRows(rows), results, budget)
  {
    if |rows| > 0 {
      var n := |rows| - 1;
      var front, m := MarkRows(rows[..n], results, now), Marked(rows[n], results, now);
      assert rows[n] in rows;
      MarkedEntries(rows[..n], results, budget, now);
      MarkedRemains(rows[n], results, budget, now);
      assert MarkRows(rows, results, now) == front + [m];
      FilterSnoc(front, m, Waiting());
      EntriesSnoc(PendingRows(front), m, budget);
      RemainingSnoc(rows, n, results, budget);
      if !m.Pending() {
        assert PendingRows(front) + [] == PendingRows(front);
      }
    }
  }

  lemma RemainingSnoc(rows: seq<Row>, n: nat, results: map<EventId, seq<Call>>, budget: Budget)
    requires n + 1 == |rows|
    ensures AllRemaining(PendingRows(rows), results, budget) ==
            AllRemaining(PendingRows(rows[..n]), results, budget) +
            (if rows[n].Pending() then Remaining(rows[n], results, budget) else [])
  {
    var front := PendingRows(rows[..n]);
    FilterPrefix(rows, n, Waiting());
    assert rows[..n + 1] == rows;
    if rows[n].Pending() {
      assert (front + [rows[n]])[..|front|] == front;
    } else {
      assert front + [] == front;
      assert AllRemaining(front, results, budget) + [] == AllRemaining(front, results, budget);
    }
  }

  lemma {:induction false} AllTried(rows: seq<Row>, results: map<EventId, seq<Call>>, budget: Budget)
    requires forall r :: r in rows ==> r.id in results
    ensures AllRemaining(rows, results, budget) == Retry(Entries(rows, budget))
  {
    if |rows| > 0 {
      var n := |rows| - 1;
      AllTried(rows[..n], results, budget);
      assert rows == rows[..n] + [rows[n]];
      EntriesSnoc(rows[..n], rows[n], budget);
      assert Entries(rows, budget)[..n] == Entries(rows[..n], budget);
    }
  }

  lemma {:induction false} NoneTried(rows: seq<Row>, rest: seq<Row>, results: map<EventId, seq<Call>>, budget: Budget)
    requires forall r :: r in rest ==> r.id !in results
    ensures AllRemaining(rows + rest, results, budget) == AllRemaining(rows, results, budget) + Entries(rest, budget)
  {
    if |rest| == 0 {
      assert rows + rest == rows;
    } else {
      var n := |rest| - 1;
      NoneTried(rows, rest[..n], results, budget);
      assert (rows + rest)[..|rows + rest| - 1] == rows + rest[..n];
      EntriesSnoc(rest[..n], rest[n], budget);
      assert rest == rest[..n] + [rest[n]];
    }
  }

  // The batch is tried, what is behind it is not.
  lemma RemainingAfterPass(pending: seq<Row>, k: nat, results: map<EventId, seq<Call>>, budget: Budget)
    requires Ascending(pending) && k == Min(BATCH, |pending|) && results.Keys == Ids(pending[..k])
    ensures AllRemaining(pending, results, budget) == Pass(Entries(pending, budget))
  {
    var batch, rest := pending[..k], pending[k..];
    forall r | r in rest ensures r.id !in results {
      LaterIdsAreOthers(pending, k, r);
    }
    forall r | r in batch ensures r.id in results {
      assert r.id in Ids(batch);
    }
    assert pending == batch + rest;
    NoneTried(batch, rest, results, budget);
    AllTried(batch, results, budget);
    EntriesSplit(pending, k, budget);
  }

  lemma EntriesSplit(rows: seq<Row>, k: nat, budget: Budget)
    requires k <= |rows|
    ensures Entries(rows, budget)[..k] == Entries(rows[..k], budget)
    ensures Entries(rows, budget)[k..] == Entries(rows[k..], budget)
  {
  }

  /** A pass over the table, when the calls go as the budget says, is a Pass over its backlog. */
  lemma DeliveryIsAPass(rows: seq<Row>, results: map<EventId, seq<Call>>, budget: Budget, now: Time)
    requires Ascending(rows) && results.Keys == Ids(Batch(rows)) && Obeys(rows, results, budget)
    ensures Entries(PendingRows(MarkRows(rows, results, now)), budget) == Pass(Entries(PendingRows(rows), budget))
  {
    BatchRowsArePending(rows, results);
    MarkedEntries(rows, results, budget, now);
    FilterKeepsOrder(rows, Waiting());
    RemainingAfterPass(PendingRows(rows), |Batch(rows)|, results, budget);
  }

  lemma BatchRowsArePending(rows: seq<Row>, results: map<EventId, seq<Call>>)
    requires Ascending(rows) && results.Keys == Ids(Batch(rows))
    ensures forall r :: r in rows && r.id in results ==> r.Pending()
  {
    forall r | r in rows && r.id in results ensures r.Pending() {
      var e :| e in Batch(rows) && e.id == r.id;
      assert e in PendingRows(rows);
      SameIdSameRow(rows, e, r);
    }
  }

  // ----- what lies at and before g -----

  function NotAfter(g: EventId): Row -> bool {
    (r: Row) => r.id <= g
  }

  function WaitingUpTo(g: EventId): Row -> bool {
    (r: Row) => r.Pending() && r.id <= g
  }

  function UpTo(rows: seq<Row>, g: EventId): seq<Row> {
    Filter(rows, NotAfter(g))
  }

  function Backlog(rows: seq<Row>, g: EventId, budget: Budget): seq<Entry> {
    Entries(Filter(rows, WaitingUpTo(g)), budget)
  }

  lemma {:induction false} UpToMarked(rows: seq<Row>, g: EventId, results: map<EventId, seq<Call>>, now: Time)
    ensures UpTo(MarkRows(rows, results, now), g) == MarkRows(UpTo(rows, g), results, now)
  {
    if |rows| > 0 {
      var n := |rows| - 1;
      UpToMarked(rows[..n], g, results, now);
      assert rows == rows[..n] + [rows[n]];
      UpToMarkedSnoc(rows[..n], rows[n], g, results, now);
    }
  }

  lemma UpToMarkedSnoc(rows: seq<Row>, r: Row, g: EventId, results: map<EventId, seq<Call>>, now: Time)
    requires UpTo(MarkRows(rows, results, now), g) == MarkRows(UpTo(rows, g), results, now)
    ensures UpTo(MarkRows(rows + [r], results, now), g) == MarkRows(UpTo(rows + [r], g), results, now)
  {
    var marked, m := MarkRows(rows, results, now), Marked(r, results, now);
    MarkRowsSnoc(rows, r, results, now);
    FilterSnoc(marked, m, NotAfter(g));
    FilterSnoc(rows, r, NotAfter(g));
    if r.id <= g {
      MarkRowsSnoc(UpTo(rows, g), r, results, now);
    } else {
      assert UpTo(marked, g) + [] == UpTo(marked, g);
      assert UpTo(rows, g) + [] == UpTo(rows, g);
    }
  }

  lemma MarkRowsSnoc(rows: seq<Row>, r: Row, results: map<EventId, seq<Call>>, now: Time)
    ensures MarkRows(rows + [r], results, now) == MarkRows(rows, results, now) + [Marked(r, results, now)]
  {
  }

  lemma {:induction false} FilterNone<T(!new)>(s: seq<T>, f: T -> bool)
    requires forall x :: x in s ==> !f(x)
    ensures Filter(s, f) == []
  {
    if |s| > 0 {
      FilterNone(s[..|s| - 1], f);
    }
  }

  // How many leading rows have ids up to g.
  function Reach(rows: seq<Row>, g: EventId): (k: nat)
    ensures k <= |rows|
    ensures forall i :: 0 <= i < k ==> rows[i].id <= g
    ensures k < |rows| ==> rows[k].id > g
  {
    if |rows| == 0 || rows[0].id > g then 0 else 1 + Reach(rows[1..], g)
  }

  lemma UpToIsPrefix(rows: seq<Row>, g: EventId)
    requires Ascending(rows)
    ensures UpTo(rows, g) == rows[..Reach(rows, g)]
    ensures forall i :: Reach(rows, g) <= i < |rows| ==> rows[i].id > g
  {
    var k := Reach(rows, g);
    assert rows == rows[..k] + rows[k..];
    FilterConcat(rows[..k], rows[k..], NotAfter(g));
    FilterAll(rows[..k], NotAfter(g));
    FilterNone(rows[k..], NotAfter(g));
  }

  function Restricted(results: map<EventId, seq<Call>>, g: EventId): map<EventId, seq<Call>> {
    map id | id in results && id <= g :: results[id]
  }

  lemma PendingUpTo(rows: seq<Row>, g: EventId)
    ensures PendingRows(UpTo(rows, g)) == Filter(rows, WaitingUpTo(g)) == UpTo(PendingRows(rows), g)
  {
    FilterTwice(rows, NotAfter(g), Waiting(), WaitingUpTo(g));
    FilterTwice(rows, Waiting(), NotAfter(g), WaitingUpTo(g));
  }

  predicate IdWithin(rows: seq<Row>, n: nat, id: EventId)
    requires n <= |rows|
  {
    exists i :: 0 <= i < n && rows[i].id == id
  }

  lemma IdsWithin(rows: seq<Row>, n: nat, id: EventId)
    requires n <= |rows|
    ensures id in Ids(rows[..n]) <==> IdWithin(rows, n, id)
  {
    if IdWithin(rows, n, id) {
      var i :| 0 <= i < n && rows[i].id == id;
      assert rows[..n][i] == rows[i];
    }
    if id in Ids(rows[..n]) {
      var i :| 0 <= i < n && rows[..n][i].id == id;
      assert rows[i].id == id;
    }
  }

  lemma IdUpTo(pending: seq<Row>, n: nat, g: EventId, id: EventId)
    requires Ascending(pending) && n <= |pending|
    ensures id in Ids(pending[..Min(n, Reach(pending, g))]) <==> id in Ids(pending[..n]) && id <= g
  {
    UpToIsPrefix(pending, g);
    IdsWithin(pending, n, id);
    IdsWithin(pending, Min(n, Reach(pending, g)), id);
  }

  lemma FirstUpTo(rows: seq<Row>, g: EventId)
    requires Ascending(rows)
    ensures Ascending(PendingRows(rows))
    ensures Batch(UpTo(rows, g)) == PendingRows(rows)[..Min(|Batch(rows)|, Reach(PendingRows(rows), g))]
  {
    PendingUpTo(rows, g);
    FilterKeepsOrder(rows, Waiting());
    UpToIsPrefix(PendingRows(rows), g);
  }

  // The batch of the rows up to g is the part of the batch up to g.
  lemma BatchUpTo(rows: seq<Row>, g: EventId, results: map<EventId, seq<Call>>)
    requires Ascending(rows) && results.Keys == Ids(Batch(rows))
    ensures Restricted(results, g).Keys == Ids(Batch(UpTo(rows, g)))
  {
    FirstUpTo(rows, g);
    forall id {
      IdUpTo(PendingRows(rows), |Batch(rows)|, g, id);
    }
  }

  /** Up to g a pass is a Pass, whatever becomes of the events behind it. */
  lemma DeliveryPassesUpTo(rows: seq<Row>, g: EventId, results: map<EventId, seq<Call>>, budget: Budget, now: Time)
    requires Ascending(rows) && results.Keys == Ids(Batch(rows)) && Obeys(UpTo(rows, g), results, budget)
    ensures Backlog(MarkRows(rows, results, now), g, budget) == Pass(Backlog(rows, g, budget))
  {
    var before, within := UpTo(rows, g), Restricted(results, g);
    FilterKeepsOrder(rows, NotAfter(g));
    BatchUpTo(rows, g, results);
    forall r | r in before ensures r.id <= g {
    }
    assert MarkRows(before, results, now) == MarkRows(before, within, now);
    DeliveryIsAPass(before, within, budget, now);
    UpToMarked(rows, g, results, now);
    PendingUpTo(rows, g);
    PendingUpTo(MarkRows(rows, results, now), g);
  }

  // ----- rounds: a pass, then whatever else happens before the next one -----

  datatype Round = Round(answers: nat -> Answer, from: nat, now: Time, others: seq<Step>)

  function PassSteps(h: Handlers, w: World, p: ProcessorId, r: Round): seq<Step> {
    [ClaimBatch(p)] + HandleAll(h, p, Batch(w.rows), r.answers, r.from) + [Commit(p, r.now)]
  }

  function AfterRound(h: Handlers, w: World, p: ProcessorId, r: Round): World {
    RunFrom(h, RunFrom(h, w, PassSteps(h, w, p, r)), r.others)
  }

  function AfterRounds(h: Handlers, w: World, p: ProcessorId, rounds: seq<Round>): World
    decreases |rounds|
  {
    if |rounds| == 0 then w else AfterRounds(h, AfterRound(h, w, p, rounds[0]), p, rounds[1..])
  }

  // Publishing behind g, pruning, claims that crash: anything that delivers nothing and puts nothing before g.
  predicate StaysBehind(step: Step, g: EventId) {
    !step.Commit? && (step.Publish? ==> step.id > g)
  }

  ghost predicate RoundOk(h: Handlers, w: World, p: ProcessorId, r: Round, g: EventId, budget: Budget) {
    Obeys(UpTo(w.rows, g), Results(h, Batch(w.rows), r.answers, r.from), budget) &&
    (forall i :: 0 <= i < |r.others| ==> StaysBehind(r.others[i], g)) &&
    AfterRound(h, w, p, r).claims == map[]
  }

  ghost predicate RoundsOk(h: Handlers, w: World, p: ProcessorId, rounds: seq<Round>, g: EventId, budget: Budget)
    decreases |rounds|
  {
    |rounds| == 0 ||
    (RoundOk(h, w, p, rounds[0], g, budget) && RoundsOk(h, AfterRound(h, w, p, rounds[0]), p, rounds[1..], g, budget))
  }

  lemma {:induction false} InsertBehind(rows: seq<Row>, e: Row, keep: Row -> bool)
    requires !keep(e)
    ensures Filter(InsertRow(rows, e), keep) == Filter(rows, keep)
  {
    if |rows| == 0 || e.id < rows[0].id {
      FilterConcat([e], rows, keep);
      assert Filter([e], keep) == [];
    } else {
      InsertBehind(rows[1..], e, keep);
      FilterConcat([rows[0]], InsertRow(rows[1..], e), keep);
      FilterConcat([rows[0]], rows[1..], keep);
      assert rows == [rows[0]] + rows[1..];
    }
  }

  lemma StepKeepsBacklog(h: Handlers, w: World, step: Step, g: EventId, budget: Budget)
    requires StaysBehind(step, g)
    ensures Backlog(Apply(h, w, step).rows, g, budget) == Backlog(w.rows, g, budget)
  {
    match step
    case Publish(id, topic, payload) =>
      if id !in w.published {
        InsertBehind(w.rows, Row(id, topic, payload, 0, None), WaitingUpTo(g));
      }
    case Prune(now) => FilterTwice(w.rows, Kept(now), WaitingUpTo(g), WaitingUpTo(g));
    case _ =>
  }

  lemma {:induction false} OthersKeepBacklog(h: Handlers, w: World, others: seq<Step>, g: EventId, budget: Budget)
    requires forall i :: 0 <= i < |others| ==> StaysBehind(others[i], g)
    ensures Backlog(RunFrom(h, w, others).rows, g, budget) == Backlog(w.rows, g, budget)
  {
    if |others| > 0 {
      var n := |others| - 1;
      OthersKeepBacklog(h, w, others[..n], g, budget);
      StepKeepsBacklog(h, RunFrom(h, w, others[..n]), others[n], g, budget);
    }
  }

  lemma {:induction false} RunFromKeepsInv(h: Handlers, w: World, steps: seq<Step>)
    requires Inv(h, w)
    ensures Inv(h, RunFrom(h, w, steps))
  {
    if |steps| > 0 {
      RunFromKeepsInv(h, w, steps[..|steps| - 1]);
      StepKeepsInv(h, RunFrom(h, w, steps[..|steps| - 1]), steps[|steps| - 1]);
    }
  }

  lemma RoundIsAPass(h: Handlers, w: World, p: ProcessorId, r: Round, g: EventId, budget: Budget)
    requires Ascending(w.rows) && w.claims == map[] && RoundOk(h, w, p, r, g, budget)
    ensures Backlog(AfterRound(h, w, p, r).rows, g, budget) == Pass(Backlog(w.rows, g, budget))
  {
    var results := Results(h, Batch(w.rows), r.answers, r.from);
    ResultsCover(h, Batch(w.rows), r.answers, r.from);
    DeliveryIsARun(h, w, p, r.answers, r.from, r.now);
    DeliveryPassesUpTo(w.rows, g, results, budget, r.now);
    OthersKeepBacklog(h, RunFrom(h, w, PassSteps(h, w, p, r)), r.others, g, budget);
  }

  lemma RoundKeepsInv(h: Handlers, w: World, p: ProcessorId, r: Round)
    requires Inv(h, w)
    ensures Inv(h, AfterRound(h, w, p, r))
  {
    RunFromKeepsInv(h, w, PassSteps(h, w, p, r));
    RunFromKeepsInv(h, RunFrom(h, w, PassSteps(h, w, p, r)), r.others);
  }

  // The backlog up to g before and after each round.
  function Backlogs(h: Handlers, w: World, p: ProcessorId, rounds: seq<Round>, g: EventId,
                    budget: Budget): (trace: seq<seq<Entry>>)
    ensures |trace| == |rounds| + 1 && trace[0] == Backlog(w.rows, g, budget)
    ensures trace[|rounds|] == Backlog(AfterRounds(h, w, p, rounds).rows, g, budget)
    decreases |rounds|
  {
    var now := Backlog(w.rows, g, budget);
    if |rounds| == 0 then [now]
    else [now] + Backlogs(h, AfterRound(h, w, p, rounds[0]), p, rounds[1..], g, budget)
  }

  lemma ConsIsRun(first: seq<Entry>, trace: seq<seq<Entry>>)
    requires IsRun(trace) && trace[0] == Pass(first)
    ensures IsRun([first] + trace)
  {
  }

  lemma {:induction false} RoundsArePasses(h: Handlers, w: World, p: ProcessorId, rounds: seq<Round>,
                                           g: EventId, budget: Budget)
    requires Inv(h, w) && w.claims == map[] && RoundsOk(h, w, p, rounds, g, budget)
    ensures IsRun(Backlogs(h, w, p, rounds, g, budget))
    decreases |rounds|
  {
    if |rounds| > 0 {
      var next := AfterRound(h, w, p, rounds[0]);
      RoundIsAPass(h, w, p, rounds[0], g, budget);
      RoundKeepsInv(h, w, p, rounds[0]);
      RoundsArePasses(h, next, p, rounds[1..], g, budget);
      ConsIsRun(Backlog(w.rows, g, budget), Backlogs(h, next, p, rounds[1..], g, budget));
    }
  }

  predicate PendingIn(rows: seq<Row>, g: EventId) {
    exists i :: 0 <= i < |rows| && rows[i].id == g && rows[i].Pending()
  }

  lemma BacklogHoldsIff(rows: seq<Row>, g: EventId, budget: Budget)
    ensures Holds(Backlog(rows, g, budget), g) <==> PendingIn(rows, g)
  {
    var waiting := Filter(rows, WaitingUpTo(g));
    if PendingIn(rows, g) {
      var i :| 0 <= i < |rows| && rows[i].id == g && rows[i].Pending();
      assert rows[i] in waiting;
      var j :| 0 <= j < |waiting| && waiting[j] == rows[i];
      assert Backlog(rows, g, budget)[j].id == g;
    }
    if Holds(Backlog(rows, g, budget), g) {
      var j :| 0 <= j < |waiting| && Backlog(rows, g, budget)[j].id == g;
      assert waiting[j] in waiting;
      var i :| 0 <= i < |rows| && rows[i] == waiting[j];
    }
  }

  // The backlog up to a pending event ends with it.
  lemma BacklogEndsWith(rows: seq<Row>, r: Row, budget: Budget) returns (front: seq<Entry>)
    requires Ascending(rows) && r in rows && r.Pending()
    ensures Backlog(rows, r.id, budget) == front + [EntryOf(r, budget)]
    ensures front == Ahead(rows, r.id, budget) && !Holds(front, r.id)
  {
    var waiting := Filter(rows, WaitingUpTo(r.id));
    FilterKeepsOrder(rows, WaitingUpTo(r.id));
    assert r in waiting;
    var i :| 0 <= i < |waiting| && waiting[i] == r;
    var n := |waiting| - 1;
    assert waiting[n] in waiting;
    assert waiting[i].id <= waiting[n].id;
    SameIdSameRow(waiting, waiting[n], r);
    front := Entries(waiting[..n], budget);
    assert waiting == waiting[..n] + [r];
    EntriesSnoc(waiting[..n], r, budget);
  }

  // The pending events in front of g.
  function Ahead(rows: seq<Row>, g: EventId, budget: Budget): seq<Entry> {
    var backlog := Backlog(rows, g, budget);
    if |backlog| == 0 then [] else backlog[..|backlog| - 1]
  }

  /**
   * In any reachable state with no batch open, an event that fails finitely often is delivered by
   * enough rounds of a lone processor, with anything published behind it, if and only if fewer
   * than BATCH of the pending events ahead of it always fail. Enough is more than the tries those
   * others need plus its own failures to come. With BATCH or more it is pending after any rounds.
   */
  lemma DeliveredByRoundsIff(h: Handlers, w: World, p: ProcessorId, rounds: seq<Round>, r: Row, budget: Budget)
    requires Inv(h, w) && w.claims == map[] && RoundsOk(h, w, p, rounds, r.id, budget)
    requires r in w.rows && r.Pending() && FateOf(r, budget).Times?
    ensures LastingIn(Ahead(w.rows, r.id, budget)) >= BATCH ==> PendingIn(AfterRounds(h, w, p, rounds).rows, r.id)
    ensures |rounds| > WorkIn(Ahead(w.rows, r.id, budget)) + FateOf(r, budget).left ==>
              (!PendingIn(AfterRounds(h, w, p, rounds).rows, r.id) <==>
               LastingIn(Ahead(w.rows, r.id, budget)) < BATCH)
  {
    var front := BacklogEndsWith(w.rows, r, budget);
    var trace := Backlogs(h, w, p, rounds, r.id, budget);
    RoundsArePasses(h, w, p, rounds, r.id, budget);
    BacklogHoldsIff(AfterRounds(h, w, p, rounds).rows, r.id, budget);
    TraceHoldsIff(trace, front, r.id, FateOf(r, budget).left, |rounds|);
  }

  lemma TraceHoldsIff(trace: seq<seq<Entry>>, front: seq<Entry>, g: EventId, left: nat, n: nat)
    requires IsRun(trace) && |trace| == n + 1 && trace[0] == front + [Entry(g, Times(left))] && !Holds(front, g)
    ensures LastingIn(front) >= BATCH ==> Holds(trace[n], g)
    ensures n > WorkIn(front) + left ==> (!Holds(trace[n], g) <==> LastingIn(front) < BATCH)
  {
    if LastingIn(front) >= BATCH {
      NeverReached(trace, front, Entry(g, Times(left)));
      assert trace[n][|trace[n]| - 1].id == g;
    } else if n > WorkIn(front) + left {
      EnoughPasses(front, g, left, n);
    }
  }
}
