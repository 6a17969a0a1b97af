/** One outbox processor at work: the delivery loop, the drain, and what a backlog does to an event. */
module OutboxProcessor {
  import opened Base
  import opened Sums
  import opened Outbox

  // ----- what a pass asks of the handlers -----

  function AskedBy(h: Handlers, events: seq<Row>): nat {
    if |events| == 0 then 0
    else AskedBy(h, events[..|events| - 1]) + |HandlersOf(h, events[|events| - 1].topic)|
  }

  function Draw(answers: nat -> Answer, from: nat, n: nat): (drawn: seq<Answer>)
    ensures |drawn| == n
  {
    seq(n, i requires 0 <= i < n => answers(from + i))
  }

  // Handlers may answer anything at any time: answer number k is answers(k).
  function Results(h: Handlers, events: seq<Row>, answers: nat -> Answer, from: nat): map<EventId, seq<Call>> {
    if |events| == 0 then map[]
    else
      var front, e := events[..|events| - 1], events[|events| - 1];
      Results(h, front, answers, from)[
        e.id := CallsFor(h, e, Draw(answers, from + AskedBy(h, front), |HandlersOf(h, e.topic)|))]
  }

  lemma ResultsSnoc(h: Handlers, events: seq<Row>, i: nat, answers: nat -> Answer, from: nat)
    requires i < |events|
    ensures var e, asked := events[i], AskedBy(h, events[..i]);
            AskedBy(h, events[..i + 1]) == asked + |HandlersOf(h, e.topic)| &&
            Results(h, events[..i + 1], answers, from) == Results(h, events[..i], answers, from)[
              e.id := CallsFor(h, e, Draw(answers, from + asked, |HandlersOf(h, e.topic)|))]
  {
    assert events[..i + 1][..i] == events[..i];
  }

  lemma {:induction false} ResultsCover(h: Handlers, events: seq<Row>, answers: nat -> Answer, from: nat)
    ensures Results(h, events, answers, from).Keys == Ids(events)
  {
    if |events| > 0 {
      var front, e := events[..|events| - 1], events[|events| - 1];
      ResultsCover(h, front, answers, from);
      assert events == front + [e];
      assert Ids(events) == Ids(front) + {e.id};
    }
  }

  function Won(results: map<EventId, seq<Call>>): Row -> bool {
    (r: Row) => r.id in results && Succeeds(results[r.id])
  }

  function Waiting(): Row -> bool {
    (r: Row) => r.Pending()
  }

  function PendingRows(rows: seq<Row>): seq<Row> {
    Filter(rows, Waiting())
  }

  function Batch(rows: seq<Row>): (batch: seq<Row>)
    ensures |batch| <= |PendingRows(rows)|
  {
    PendingRows(rows)[..Min(BATCH, |PendingRows(rows)|)]
  }

  lemma {:induction false} FilterSame<T(!new)>(s: seq<T>, f: T -> bool, g: T -> bool)
    requires forall x :: x in s ==> f(x) == g(x)
    ensures Filter(s, f) == Filter(s, g)
  {
    if |s| > 0 {
      FilterSame(s[..|s| - 1], f, g);
    }
  }

  lemma BatchIsClaimable(rows: seq<Row>)
    ensures Batch(rows) == Claimable(rows, {})
  {
    FilterSame(rows, Waiting(), Free({}));
  }

  // ----- the two UPDATEs amount to MarkRows -----

  function SetProcessed(rows: seq<Row>, ids: seq<EventId>, now: Time): (r: seq<Row>)
    ensures |r| == |rows|
  {
    seq(|rows|, i requires 0 <= i < |rows| =>
      if rows[i].id in ids then rows[i].(processedAt := Some(now)) else rows[i])
  }

  function BumpAttempts(rows: seq<Row>, ids: seq<EventId>): (r: seq<Row>)
    ensures |r| == |rows|
  {
    seq(|rows|, i requires 0 <= i < |rows| =>
      if rows[i].id in ids then rows[i].(attempts := rows[i].attempts + 1) else rows[i])
  }

  ghost predicate Sorted(results: map<EventId, seq<Call>>, delivered: seq<EventId>, failed: seq<EventId>) {
    (forall id :: id in delivered <==> id in results && Succeeds(results[id])) &&
    (forall id :: id in failed <==> id in results && !Succeeds(results[id]))
  }

  function Updated(rows: seq<Row>, delivered: seq<EventId>, failed: seq<EventId>, now: Time): seq<Row> {
    var marked := if |delivered| > 0 then SetProcessed(rows, delivered, now) else rows;
    if |failed| > 0 then BumpAttempts(marked, failed) else marked
  }

  lemma UpdatesMarkRows(rows: seq<Row>, results: map<EventId, seq<Call>>,
                        delivered: seq<EventId>, failed: seq<EventId>, now: Time)
    requires Sorted(results, delivered, failed)
    ensures Updated(rows, delivered, failed, now) == MarkRows(rows, results, now)
  {
  }

  // ----- what a pass leaves pending -----

  function Lost(results: map<EventId, seq<Call>>): Row -> bool {
    (r: Row) => !(r.id in results && Succeeds(results[r.id]))
  }

  function WaitingLost(results: map<EventId, seq<Call>>): Row -> bool {
    (r: Row) => r.Pending() && !(r.id in results && Succeeds(results[r.id]))
  }

  function IdsInOrder(rows: seq<Row>): (ids: seq<EventId>)
    ensures |ids| == |rows|
  {
    seq(|rows|, i requires 0 <= i < |rows| => rows[i].id)
  }

  lemma IdsConcat(a: seq<Row>, b: seq<Row>)
    ensures IdsInOrder(a + b) == IdsInOrder(a) + IdsInOrder(b)
  {
  }

  lemma {:induction false} MarkedStillPending(rows: seq<Row>, results: map<EventId, seq<Call>>, now: Time)
    ensures IdsInOrder(PendingRows(MarkRows(rows, results, now))) == IdsInOrder(Filter(rows, WaitingLost(results)))
  {
    if |rows| > 0 {
      var n := |rows| - 1;
      var front, last := MarkRows(rows[..n], results, now), Marked(rows[n], results, now);
      MarkedStillPending(rows[..n], results, now);
      assert MarkRows(rows, results, now) == front + [last];
      FilterSnoc(front, last, Waiting());
      if WaitingLost(results)(rows[n]) {
        IdsConcat(PendingRows(front), [last]);
        IdsConcat(Filter(rows[..n], WaitingLost(results)), [rows[n]]);
      } else {
        assert PendingRows(front) + [] == PendingRows(front);
      }
    }
  }

  lemma {:induction false} FilterTwice<T(!new)>(s: seq<T>, f: T -> bool, g: T -> bool, both: T -> bool)
    requires forall x :: both(x) == (f(x) && g(x))
    ensures Filter(Filter(s, f), g) == Filter(s, both)
  {
    if |s| > 0 {
      var n := |s| - 1;
      FilterTwice(s[..n], f, g, both);
      if f(s[n]) {
        FilterSnoc(Filter(s[..n], f), s[n], g);
      }
    }
  }

  lemma {:induction false} FilterAll<T(!new)>(s: seq<T>, f: T -> bool)
    requires forall x :: x in s ==> f(x)
    ensures Filter(s, f) == s
  {
    if |s| > 0 {
      FilterAll(s[..|s| - 1], f);
    }
  }

  lemma LaterIdsAreOthers(rows: seq<Row>, k: nat, r: Row)
    requires Ascending(rows) && k <= |rows| && r in rows[k..]
    ensures r.id !in Ids(rows[..k])
  {
    var j :| 0 <= j < |rows[k..]| && rows[k..][j] == r;
    assert r == rows[k + j];
  }

  lemma BehindTheBatch(pending: seq<Row>, k: nat, results: map<EventId, seq<Call>>)
    requires Ascending(pending) && k <= |pending| && results.Keys == Ids(pending[..k])
    ensures Filter(pending, Lost(results)) == Filter(pending[..k], Lost(results)) + pending[k..]
  {
    var batch, rest := pending[..k], pending[k..];
    assert pending == batch + rest;
    FilterConcat(batch, rest, Lost(results));
    forall r | r in rest ensures Lost(results)(r) {
      LaterIdsAreOthers(pending, k, r);
    }
    FilterAll(rest, Lost(results));
  }

  // After a pass: the batch's failures, then everything behind the batch.
  lemma PassLeaves(rows: seq<Row>, results: map<EventId, seq<Call>>, now: Time)
    requires Ascending(rows) && results.Keys == Ids(Batch(rows))
    ensures var batch := Batch(rows);
            IdsInOrder(PendingRows(MarkRows(rows, results, now))) ==
            IdsInOrder(Filter(batch, Lost(results))) + IdsInOrder(PendingRows(rows)[|batch|..])
  {
    MarkedStillPending(rows, results, now);
    FilterTwice(rows, Waiting(), Lost(results), WaitingLost(results));
    FilterKeepsOrder(rows, Waiting());
    BehindTheBatch(PendingRows(rows), |Batch(rows)|, results);
    IdsConcat(Filter(Batch(rows), Lost(results)), PendingRows(rows)[|Batch(rows)|..]);
  }

  lemma {:induction false} WonAndLost(events: seq<Row>, results: map<EventId, seq<Call>>)
    ensures |Filter(events, Won(results))| + |Filter(events, Lost(results))| == |events|
  {
    if |events| > 0 {
      WonAndLost(events[..|events| - 1], results);
    }
  }

  // How a table may change over passes: rows keep their identity, processed rows do not change.
  predicate Advances(before: seq<Row>, after: seq<Row>) {
    |before| == |after| &&
    forall i :: 0 <= i < |before| ==>
      after[i].id == before[i].id && after[i].topic == before[i].topic && after[i].payload == before[i].payload &&
      before[i].attempts <= after[i].attempts && (!before[i].Pending() ==> after[i] == before[i])
  }

  predicate FailedBetween(before: seq<Row>, after: seq<Row>) {
    |before| == |after| &&
    exists i :: 0 <= i < |before| && after[i].Pending() && before[i].attempts < after[i].attempts
  }

  lemma PassAdvances(rows: seq<Row>, results: map<EventId, seq<Call>>, now: Time)
    requires Ascending(rows) && results.Keys == Ids(Batch(rows))
    ensures Advances(rows, MarkRows(rows, results, now))
  {
    forall i | 0 <= i < |rows| && rows[i].id in results ensures rows[i].Pending() {
      var e :| e in Batch(rows) && e.id == rows[i].id;
      assert e in PendingRows(rows);
      SameIdSameRow(rows, e, rows[i]);
    }
  }

  lemma LostRowFails(rows: seq<Row>, results: map<EventId, seq<Call>>, now: Time, e: Row)
    requires results.Keys == Ids(Batch(rows)) && e in Filter(Batch(rows), Lost(results))
    ensures FailedBetween(rows, MarkRows(rows, results, now))
  {
    assert e in Batch(rows);
    assert e in PendingRows(rows) && e.id in Ids(Batch(rows));
    var i :| 0 <= i < |rows| && rows[i] == e;
    assert MarkRows(rows, results, now)[i] == Marked(e, results, now);
  }

  // Counting what a pass delivered, and what an incomplete one means.
  lemma PassCounts(rows: seq<Row>, results: map<EventId, seq<Call>>, now: Time)
    requires Ascending(rows) && results.Keys == Ids(Batch(rows))
    ensures var after, won := MarkRows(rows, results, now), |Filter(Batch(rows), Won(results))|;
            won == |PendingRows(rows)| - |PendingRows(after)| && won <= BATCH &&
            (won < BATCH ==> PendingRows(after) == [] || FailedBetween(rows, after))
  {
    PassLeaves(rows, results, now);
    WonAndLost(Batch(rows), results);
    var lost := Filter(Batch(rows), Lost(results));
    if lost != [] {
      assert lost[0] in lost;
      LostRowFails(rows, results, now, lost[0]);
    }
  }

  lemma WonOneMore(events: seq<Row>, i: nat, results: map<EventId, seq<Call>>, calls: seq<Call>)
    requires Ascending(events) && i < |events| && results.Keys == Ids(events[..i])
    ensures events[i].id !in results
    ensures |Filter(events[..i + 1], Won(results[events[i].id := calls]))| ==
            |Filter(events[..i], Won(results))| + (if Succeeds(calls) then 1 else 0)
  {
    var after := results[events[i].id := calls];
    FilterPrefix(events, i, Won(after));
    assert forall x :: x in events[..i] ==> x.id < events[i].id;
    FilterSame(events[..i], Won(after), Won(results));
  }

  lemma SortedOneMore(results: map<EventId, seq<Call>>, delivered: seq<EventId>, failed: seq<EventId>,
                      id: EventId, calls: seq<Call>)
    requires Sorted(results, delivered, failed) && id !in results
    ensures Sorted(results[id := calls], if Succeeds(calls) then delivered + [id] else delivered,
                   if Succeeds(calls) then failed else failed + [id])
  {
  }

  ghost predicate Handled(h: Handlers, events: seq<Row>, answers: nat -> Answer, from: nat,
                          delivered: seq<EventId>, failed: seq<EventId>, results: map<EventId, seq<Call>>) {
    results == Results(h, events, answers, from) && Sorted(results, delivered, failed) &&
    |delivered| == |Filter(events, Won(results))|
  }

  lemma HandledOneMore(h: Handlers, events: seq<Row>, i: nat, answers: nat -> Answer, from: nat,
                       delivered: seq<EventId>, failed: seq<EventId>, results: map<EventId, seq<Call>>, calls: seq<Call>)
    requires Ascending(events) && i < |events|
    requires Handled(h, events[..i], answers, from, delivered, failed, results)
    requires var e := events[i];
             calls == CallsFor(h, e, Draw(answers, from + AskedBy(h, events[..i]), |HandlersOf(h, e.topic)|))
    ensures AskedBy(h, events[..i + 1]) == AskedBy(h, events[..i]) + |HandlersOf(h, events[i].topic)|
    ensures var id, ok := events[i].id, Succeeds(calls);
            Handled(h, events[..i + 1], answers, from, if ok then delivered + [id] else delivered,
                    if ok then failed else failed + [id], results[id := calls])
  {
    var front := events[..i];
    ResultsSnoc(h, events, i, answers, from);
    ResultsCover(h, front, answers, from);
    WonOneMore(events, i, results, calls);
    SortedOneMore(results, delivered, failed, events[i].id, calls);
  }

  // Each handler registered for the event's topic is given its payload and answers once, in order;
  // the event is delivered if all of them took it or found it undecodable.
  predicate AskedEach(h: Handlers, e: Row, answers: nat -> Answer, from: nat, calls: seq<Call>, ok: bool) {
    (if e.topic in h then CalledEach(h[e.topic], e.payload, calls) else calls == []) &&
    (forall k :: 0 <= k < |calls| ==> calls[k].answer == answers(from + k)) && (ok <==> AllTook(calls))
  }

  class Processor {
    const handlers: Handlers
    // outbox_events, in id order
    var rows: seq<Row>
    // handler calls made so far
    var asked: nat

    constructor (handlers: Handlers, rows: seq<Row>)
      ensures this.handlers == handlers && this.rows == rows && asked == 0
    {
      this.handlers, this.rows, asked := handlers, rows, 0;
    }

    // One event to each of its handlers; a failure does not stop the others from being called.
    method HandleEvent(e: Row, answers: nat -> Answer) returns (ok: bool, ghost calls: seq<Call>)
      modifies this`asked
      ensures asked == old(asked) + |HandlersOf(handlers, e.topic)|
      ensures calls == CallsFor(handlers, e, Draw(answers, old(asked), |HandlersOf(handlers, e.topic)|))
      ensures ok == Succeeds(calls)
      ensures AskedEach(handlers, e, answers, old(asked), calls, ok)
    {
      ok, calls := true, [];
      var registered := HandlersOf(handlers, e.topic);
      for i := 0 to |registered|
        invariant asked == old(asked) + i && |calls| == i
        invariant forall k :: 0 <= k < i ==> calls[k] == Call(registered[k], e.payload, answers(old(asked) + k))
        invariant ok == Succeeds(calls)
      {
        var answer := answers(asked);
        asked := asked + 1;
        calls := calls + [Call(registered[i], e.payload, answer)];
        match answer
        case Done =>
        case Undecodable =>
        case Failed => ok := false;
      }
    }

    method HandleBatch(events: seq<Row>, answers: nat -> Answer)
      returns (delivered: seq<EventId>, failed: seq<EventId>, ghost results: map<EventId, seq<Call>>)
      requires Ascending(events)
      modifies this`asked
      ensures asked == old(asked) + AskedBy(handlers, events)
      ensures Handled(handlers, events, answers, old(asked), delivered, failed, results)
    {
      delivered, failed, results := [], [], map[];
      for i := 0 to |events|
        invariant asked == old(asked) + AskedBy(handlers, events[..i])
        invariant Handled(handlers, events[..i], answers, old(asked), delivered, failed, results)
      {
        var ok, calls := HandleEvent(events[i], answers);
        HandledOneMore(handlers, events, i, answers, old(asked), delivered, failed, results, calls);
        if ok {
          delivered := delivered + [events[i].id];
        } else {
          failed := failed + [events[i].id];
        }
        results := results[events[i].id := calls];
      }
      assert events[..|events|] == events;
    }

    /** deliver_batch: exactly the rows of the oldest pending batch change, each as its calls went. */
    method DeliverBatch(answers: nat -> Answer, now: Time) returns (count: nat)
      requires Ascending(rows)
      modifies this
      ensures rows == MarkRows(old(rows), Results(handlers, Batch(old(rows)), answers, old(asked)), now)
      ensures asked == old(asked) + AskedBy(handlers, Batch(old(rows)))
      ensures count == |PendingRows(old(rows))| - |PendingRows(rows)| && count <= BATCH
      ensures Ascending(rows) && Advances(old(rows), rows)
      ensures count < BATCH ==> PendingRows(rows) == [] || FailedBetween(old(rows), rows)
    {
      var events := Batch(rows);
      FilterKeepsOrder(rows, Waiting());
      var delivered, failed, results := HandleBatch(events, answers);
      ResultsCover(handlers, events, answers, old(asked));
      UpdatesMarkRows(rows, results, delivered, failed, now);
      PassAdvances(rows, results, now);
      PassCounts(rows, results, now);
      if |delivered| > 0 {
        rows := SetProcessed(rows, delivered, now);
      }
      if |failed| > 0 {
        rows := BumpAttempts(rows, failed);
      }
      count := |delivered|;
    }

    /** drain: passes repeat while full, and stop with the backlog empty or some delivery failed. */
    method Drain(answers: nat -> Answer, now: Time)
      requires Ascending(rows)
      modifies this
      ensures Ascending(rows) && Advances(old(rows), rows)
      ensures PendingRows(rows) == [] || FailedBetween(old(rows), rows)
    {
      while true
        invariant Ascending(rows) && Advances(old(rows), rows)
        decreases |PendingRows(rows)|
      {
        ghost var before := rows;
        var delivered := DeliverBatch(answers, now);
        AdvancesFurther(old(rows), before, rows);
        if delivered != BATCH {
          break;
        }
      }
    }
  }

  lemma AdvancesFurther(a: seq<Row>, b: seq<Row>, c: seq<Row>)
    requires Advances(a, b) && Advances(b, c)
    ensures Advances(a, c)
    ensures FailedBetween(b, c) ==> FailedBetween(a, c)
  {
  }
}
