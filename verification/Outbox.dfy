/**
 * The transactional outbox (crates/infrastructure/src/events/outbox.rs): publishers, any number of
 * processors claiming batches with FOR UPDATE SKIP LOCKED, handlers that fail, crashes and pruning.
 */
module Outbox {
  import opened Base
  import opened Sums

  type Topic = nat
  type Payload = nat
  type HandlerId = nat
  type ProcessorId = nat

  // Registration: a topic's handlers, in the order they were added.
  type Handlers = map<Topic, seq<HandlerId>>

  const BATCH: nat := 100
  const SHELF_LIFE: int := 86_400

  // A row of outbox_events.
  datatype Row = Row(id: EventId, topic: Topic, payload: Payload, attempts: nat, processedAt: Option<Time>) {
    predicate Pending() {
      processedAt.None?
    }
  }

  datatype Answer = Done | Undecodable | Failed

  datatype Call = Call(handler: HandlerId, payload: Payload, answer: Answer)

  function HandlersOf(h: Handlers, topic: Topic): seq<HandlerId> {
    if topic in h then h[topic] else []
  }

  // An undecodable payload counts as delivered: it can never succeed.
  predicate Succeeds(calls: seq<Call>) {
    forall i :: 0 <= i < |calls| ==> calls[i].answer != Failed
  }

  // One delivery of an event: each handler registered for its topic, once and in order, is given its payload.
  predicate IsPass(h: Handlers, topic: Topic, payload: Payload, calls: seq<Call>) {
    if topic in h then
      |calls| == |h[topic]| &&
      forall i :: 0 <= i < |calls| ==> calls[i].handler == h[topic][i] && calls[i].payload == payload
    else calls == []
  }

  // ----- the table, in id order -----

  predicate Ascending(rows: seq<Row>) {
    forall i, j :: 0 <= i < j < |rows| ==> rows[i].id < rows[j].id
  }

  function InsertRow(rows: seq<Row>, r: Row): seq<Row> {
    if |rows| == 0 || r.id < rows[0].id then [r] + rows else [rows[0]] + InsertRow(rows[1..], r)
  }

  function Ids(rows: seq<Row>): set<EventId> {
    set r | r in rows :: r.id
  }

  function Free(locked: set<EventId>): Row -> bool {
    (r: Row) => r.Pending() && r.id !in locked
  }

  // WHERE processed_at IS NULL ORDER BY id LIMIT 100 FOR UPDATE SKIP LOCKED
  function Claimable(rows: seq<Row>, locked: set<EventId>): seq<Row> {
    var free := Filter(rows, Free(locked));
    free[..Min(BATCH, |free|)]
  }

  // The two UPDATEs at the end of a pass, over the rows that were handled in it.
  function Marked(r: Row, results: map<EventId, seq<Call>>, now: Time): Row {
    if r.id !in results then r
    else if Succeeds(results[r.id]) then r.(processedAt := Some(now))
    else r.(attempts := r.attempts + 1)
  }

  function MarkRows(rows: seq<Row>, results: map<EventId, seq<Call>>, now: Time): (r: seq<Row>)
    ensures |r| == |rows|
  {
    seq(|rows|, i requires 0 <= i < |rows| => Marked(rows[i], results, now))
  }

  // DELETE ... WHERE processed_at < now() - INTERVAL '1 day'
  function Kept(now: Time): Row -> bool {
    (r: Row) => r.Pending() || r.processedAt.value >= now - SHELF_LIFE
  }

  // ----- the protocol -----

  // An open delivery transaction: events[..next] have been handled.
  datatype Claim = Claim(events: seq<Row>, next: nat, results: map<EventId, seq<Call>>)

  // Everything ever published, with the calls of each committed pass over it.
  datatype Published = Published(topic: Topic, payload: Payload, passes: seq<seq<Call>>)

  datatype World = World(rows: seq<Row>, claims: map<ProcessorId, Claim>, published: map<EventId, Published>)

  const START: World := World([], map[], map[])

  datatype Step =
    | Publish(id: EventId, topic: Topic, payload: Payload)
    | ClaimBatch(processor: ProcessorId)
    | Handle(processor: ProcessorId, answers: seq<Answer>)
    | Commit(processor: ProcessorId, now: Time)
    | Crash(processor: ProcessorId)
    | Prune(now: Time)

  function Locked(claims: map<ProcessorId, Claim>): set<EventId> {
    set p, e | p in claims && e in claims[p].events :: e.id
  }

  function CallsFor(h: Handlers, e: Row, answers: seq<Answer>): (calls: seq<Call>)
    requires |answers| == |HandlersOf(h, e.topic)|
    ensures IsPass(h, e.topic, e.payload, calls)
  {
    seq(|answers|, i requires 0 <= i < |answers| => Call(HandlersOf(h, e.topic)[i], e.payload, answers[i]))
  }

  function Recorded(published: map<EventId, Published>, results: map<EventId, seq<Call>>): map<EventId, Published> {
    map id | id in published ::
      if id in results then published[id].(passes := published[id].passes + [results[id]]) else published[id]
  }

  // Ids come from a sequence and become visible in any order; a step that is not enabled does nothing.
  function Apply(h: Handlers, w: World, step: Step): World {
    match step
    case Publish(id, topic, payload) =>
      if id in w.published then w
      else w.(rows := InsertRow(w.rows, Row(id, topic, payload, 0, None)),
              published := w.published[id := Published(topic, payload, [])])
    case ClaimBatch(p) =>
      if p in w.claims then w
      else w.(claims := w.claims[p := Claim(Claimable(w.rows, Locked(w.claims)), 0, map[])])
    case Handle(p, answers) =>
      if p !in w.claims || w.claims[p].next >= |w.claims[p].events| then w
      else HandleNext(h, w, p, answers)
    case Commit(p, now) =>
      if p !in w.claims || w.claims[p].next != |w.claims[p].events| then w
      else
        var results := w.claims[p].results;
        World(MarkRows(w.rows, results, now), w.claims - {p}, Recorded(w.published, results))
    case Crash(p) => w.(claims := w.claims - {p})
    case Prune(now) => w.(rows := Filter(w.rows, Kept(now)))
  }

  function HandleNext(h: Handlers, w: World, p: ProcessorId, answers: seq<Answer>): World
    requires p in w.claims && w.claims[p].next < |w.claims[p].events|
  {
    var c := w.claims[p];
    var e := c.events[c.next];
    if |answers| != |HandlersOf(h, e.topic)| then w
    else w.(claims := w.claims[p := Claim(c.events, c.next + 1, c.results[e.id := CallsFor(h, e, answers)])])
  }

  function RunFrom(h: Handlers, w: World, steps: seq<Step>): World {
    if |steps| == 0 then w else Apply(h, RunFrom(h, w, steps[..|steps| - 1]), steps[|steps| - 1])
  }

  function Run(h: Handlers, steps: seq<Step>): World {
    RunFrom(h, START, steps)
  }

  // ----- what holds in every run -----

  // The passes over an event: all failures, then at most one success, as the row's counters say.
  predicate Tells(passes: seq<seq<Call>>, failures: nat, succeeded: bool) {
    |passes| == failures + (if succeeded then 1 else 0) &&
    (forall i :: 0 <= i < failures ==> !Succeeds(passes[i])) &&
    (succeeded ==> Succeeds(passes[failures]))
  }

  predicate PassesOk(h: Handlers, e: Published) {
    forall i :: 0 <= i < |e.passes| ==> IsPass(h, e.topic, e.payload, e.passes[i])
  }

  predicate Mirrors(r: Row, published: map<EventId, Published>) {
    r.id in published && r.topic == published[r.id].topic && r.payload == published[r.id].payload &&
    Tells(published[r.id].passes, r.attempts, !r.Pending())
  }

  // Delivered for good: every earlier pass failed, the last one did not.
  predicate Delivered(e: Published) {
    |e.passes| > 0 && Tells(e.passes, |e.passes| - 1, true)
  }

  predicate Accounted(h: Handlers, rows: seq<Row>, published: map<EventId, Published>) {
    Ascending(rows) && (forall r :: r in rows ==> Mirrors(r, published)) &&
    (forall id :: id in published ==> PassesOk(h, published[id]) && (id in Ids(rows) || Delivered(published[id])))
  }

  predicate ClaimOk(h: Handlers, rows: seq<Row>, c: Claim) {
    Ascending(c.events) && c.next <= |c.events| <= BATCH &&
    (forall e :: e in c.events ==> e in rows && e.Pending()) &&
    c.results.Keys == Ids(c.events[..c.next]) &&
    (forall e :: e in c.events[..c.next] && e.id in c.results ==> IsPass(h, e.topic, e.payload, c.results[e.id]))
  }

  predicate Disjoint(claims: map<ProcessorId, Claim>) {
    forall p, q :: p in claims && q in claims && p != q ==> Ids(claims[p].events) !! Ids(claims[q].events)
  }

  predicate Inv(h: Handlers, w: World) {
    Accounted(h, w.rows, w.published) && Disjoint(w.claims) &&
    forall p :: p in w.claims ==> ClaimOk(h, w.rows, w.claims[p])
  }

  lemma ConsKeepsOrder(r: Row, rows: seq<Row>)
    requires Ascending(rows) && forall x :: x in rows ==> r.id < x.id
    ensures Ascending([r] + rows)
  {
  }

  lemma {:induction false} InsertRowMembers(rows: seq<Row>, e: Row)
    ensures forall x :: x in InsertRow(rows, e) <==> x == e || x in rows
  {
    if |rows| > 0 && !(e.id < rows[0].id) {
      assert rows == [rows[0]] + rows[1..];
      InsertRowMembers(rows[1..], e);
    }
  }

  lemma OldestFirst(rows: seq<Row>)
    requires Ascending(rows) && |rows| > 0
    ensures forall x :: x in rows[1..] ==> rows[0].id < x.id
    ensures forall x :: x in rows ==> rows[0].id <= x.id
  {
    assert rows == [rows[0]] + rows[1..];
  }

  lemma {:induction false} InsertRowKeepsOrder(rows: seq<Row>, r: Row)
    requires Ascending(rows) && r.id !in Ids(rows)
    ensures Ascending(InsertRow(rows, r))
    ensures forall x :: x in InsertRow(rows, r) <==> x == r || x in rows
  {
    InsertRowMembers(rows, r);
    if |rows| > 0 {
      OldestFirst(rows);
      if r.id < rows[0].id {
        ConsKeepsOrder(r, rows);
      } else {
        var rest := rows[1..];
        assert rows[0].id in Ids(rows) && Ids(rest) <= Ids(rows);
        InsertRowKeepsOrder(rest, r);
        ConsKeepsOrder(rows[0], InsertRow(rest, r));
      }
    }
  }

  lemma {:induction false} FilterKeepsOrder(rows: seq<Row>, keep: Row -> bool)
    requires Ascending(rows)
    ensures Ascending(Filter(rows, keep))
  {
    if |rows| > 0 {
      var n := |rows| - 1;
      FilterKeepsOrder(rows[..n], keep);
      var kept := Filter(rows[..n], keep);
      forall i | 0 <= i < |kept| ensures kept[i].id < rows[n].id {
        assert kept[i] in rows[..n];
      }
    }
  }

  lemma SameIdSameRow(rows: seq<Row>, a: Row, b: Row)
    requires Ascending(rows) && a in rows && b in rows && a.id == b.id
    ensures a == b
  {
  }

  lemma PublishKeepsAccounts(h: Handlers, rows: seq<Row>, published: map<EventId, Published>, e: Row)
    requires Accounted(h, rows, published) && e.id !in published && e.attempts == 0 && e.Pending()
    ensures Accounted(h, InsertRow(rows, e), published[e.id := Published(e.topic, e.payload, [])])
  {
    var rows', published' := InsertRow(rows, e), published[e.id := Published(e.topic, e.payload, [])];
    assert e.id !in Ids(rows);
    InsertRowKeepsOrder(rows, e);
    assert e in rows';
    forall k | k in published' ensures PassesOk(h, published'[k]) && (k in Ids(rows') || Delivered(published'[k])) {
      if k != e.id && k in Ids(rows) {
        var x :| x in rows && x.id == k;
        assert x in rows';
      }
    }
  }

  lemma PublishKeepsInv(h: Handlers, w: World, id: EventId, topic: Topic, payload: Payload)
    requires Inv(h, w) && id !in w.published
    ensures Inv(h, Apply(h, w, Publish(id, topic, payload)))
  {
    var e := Row(id, topic, payload, 0, None);
    PublishKeepsAccounts(h, w.rows, w.published, e);
    assert e.id !in Ids(w.rows);
    InsertRowKeepsOrder(w.rows, e);
    forall p | p in w.claims ensures ClaimOk(h, InsertRow(w.rows, e), w.claims[p]) {
      assert ClaimOk(h, w.rows, w.claims[p]);
    }
  }

  // SKIP LOCKED: what a processor claims is pending, unlocked and older than what it leaves.
  lemma ClaimTakesOldestFree(rows: seq<Row>, locked: set<EventId>)
    requires Ascending(rows)
    ensures var taken, free := Claimable(rows, locked), Filter(rows, Free(locked));
            Ascending(taken) && |taken| == Min(BATCH, |free|) &&
            (forall e :: e in taken ==> e in rows && e.Pending() && e.id !in locked) &&
            (forall e, r :: e in taken && r in rows && r.Pending() && r.id !in locked && r !in taken ==> e.id < r.id)
  {
    var taken, free := Claimable(rows, locked), Filter(rows, Free(locked));
    FilterKeepsOrder(rows, Free(locked));
    forall e | e in taken ensures e in free {
    }
    forall e, r | e in taken && r in rows && r.Pending() && r.id !in locked && r !in taken
      ensures e.id < r.id
    {
      assert r in free;
      var i :| 0 <= i < |taken| && taken[i] == e;
      var j :| 0 <= j < |free| && free[j] == r;
      assert forall k :: 0 <= k < |taken| ==> free[k] == taken[k] && taken[k] in taken;
    }
  }

  lemma ClaimKeepsInv(h: Handlers, w: World, p: ProcessorId)
    requires Inv(h, w) && p !in w.claims
    ensures Inv(h, Apply(h, w, ClaimBatch(p)))
  {
    var taken := Claimable(w.rows, Locked(w.claims));
    ClaimTakesOldestFree(w.rows, Locked(w.claims));
    var c := Claim(taken, 0, map[]);
    assert taken[..0] == [] && Ids(taken[..0]) == {};
    assert ClaimOk(h, w.rows, c);
    forall q | q in w.claims ensures Ids(w.claims[q].events) !! Ids(taken) {
      forall e | e in w.claims[q].events ensures e.id in Locked(w.claims) {
      }
    }
  }

  lemma HandledResults(h: Handlers, before: seq<Row>, e: Row, results: map<EventId, seq<Call>>, calls: seq<Call>)
    requires results.Keys == Ids(before) && IsPass(h, e.topic, e.payload, calls)
    requires forall x :: x in before ==> x.id != e.id
    requires forall x :: x in before && x.id in results ==> IsPass(h, x.topic, x.payload, results[x.id])
    ensures var after, results' := before + [e], results[e.id := calls];
            results'.Keys == Ids(after) &&
            forall x :: x in after && x.id in results' ==> IsPass(h, x.topic, x.payload, results'[x.id])
  {
    assert Ids(before + [e]) == Ids(before) + {e.id};
  }

  lemma HandledKeepsClaim(h: Handlers, rows: seq<Row>, c: Claim, answers: seq<Answer>)
    requires ClaimOk(h, rows, c) && c.next < |c.events|
    requires |answers| == |HandlersOf(h, c.events[c.next].topic)|
    ensures var e := c.events[c.next];
            ClaimOk(h, rows, Claim(c.events, c.next + 1, c.results[e.id := CallsFor(h, e, answers)]))
  {
    var e := c.events[c.next];
    assert c.events[..c.next + 1] == c.events[..c.next] + [e];
    HandledResults(h, c.events[..c.next], e, c.results, CallsFor(h, e, answers));
  }

  lemma ClaimMovesOn(h: Handlers, w: World, p: ProcessorId, c: Claim)
    requires Inv(h, w) && p in w.claims && c.events == w.claims[p].events && ClaimOk(h, w.rows, c)
    ensures Inv(h, w.(claims := w.claims[p := c]))
  {
  }

  lemma HandleKeepsInv(h: Handlers, w: World, p: ProcessorId, answers: seq<Answer>)
    requires Inv(h, w) && p in w.claims && w.claims[p].next < |w.claims[p].events|
    ensures Inv(h, HandleNext(h, w, p, answers))
  {
    var c := w.claims[p];
    var e := c.events[c.next];
    if |answers| == |HandlersOf(h, e.topic)| {
      HandledKeepsClaim(h, w.rows, c, answers);
      ClaimMovesOn(h, w, p, Claim(c.events, c.next + 1, c.results[e.id := CallsFor(h, e, answers)]));
    }
  }

  // The row and the record of its event move together.
  lemma MarkMirrors(h: Handlers, r: Row, published: map<EventId, Published>, results: map<EventId, seq<Call>>, now: Time)
    requires Mirrors(r, published) && PassesOk(h, published[r.id])
    requires r.id in results ==> r.Pending() && IsPass(h, r.topic, r.payload, results[r.id])
    ensures Mirrors(Marked(r, results, now), Recorded(published, results))
    ensures PassesOk(h, Recorded(published, results)[r.id])
  {
  }

  lemma HandledRowsArePending(h: Handlers, rows: seq<Row>, c: Claim, r: Row)
    requires Ascending(rows) && ClaimOk(h, rows, c) && r in rows && r.id in c.results
    ensures r in c.events && r.Pending() && IsPass(h, r.topic, r.payload, c.results[r.id])
  {
    assert r.id in Ids(c.events[..c.next]);
    var e :| e in c.events[..c.next] && e.id == r.id;
    assert e in c.events;
    SameIdSameRow(rows, e, r);
  }

  lemma HandledIdsHaveRows(h: Handlers, rows: seq<Row>, c: Claim)
    requires ClaimOk(h, rows, c)
    ensures c.results.Keys <= Ids(rows)
  {
    forall id | id in Ids(c.events[..c.next]) ensures id in Ids(rows) {
      var e :| e in c.events[..c.next] && e.id == id;
      assert e in c.events;
    }
  }

  lemma CommitKeepsAccounts(h: Handlers, w: World, c: Claim, now: Time)
    requires Accounted(h, w.rows, w.published) && ClaimOk(h, w.rows, c)
    ensures Accounted(h, MarkRows(w.rows, c.results, now), Recorded(w.published, c.results))
  {
    var rows', published' := MarkRows(w.rows, c.results, now), Recorded(w.published, c.results);
    HandledIdsHaveRows(h, w.rows, c);
    forall i | 0 <= i < |w.rows|
      ensures rows'[i].id == w.rows[i].id && Mirrors(rows'[i], published') && PassesOk(h, published'[w.rows[i].id])
    {
      assert w.rows[i] in w.rows;
      if w.rows[i].id in c.results {
        HandledRowsArePending(h, w.rows, c, w.rows[i]);
      }
      MarkMirrors(h, w.rows[i], w.published, c.results, now);
    }
    forall id | id in published'
      ensures PassesOk(h, published'[id]) && (id in Ids(rows') || Delivered(published'[id]))
    {
      if id in Ids(w.rows) {
        var i :| 0 <= i < |w.rows| && w.rows[i].id == id;
        assert rows'[i] in rows';
      }
    }
  }

  lemma OtherClaimsUnmoved(h: Handlers, w: World, p: ProcessorId, q: ProcessorId, now: Time)
    requires Inv(h, w) && p in w.claims && q in w.claims && p != q
    ensures ClaimOk(h, MarkRows(w.rows, w.claims[p].results, now), w.claims[q])
  {
    var results := w.claims[p].results;
    var rows' := MarkRows(w.rows, results, now);
    assert ClaimOk(h, w.rows, w.claims[p]) && ClaimOk(h, w.rows, w.claims[q]);
    forall e | e in w.claims[q].events ensures e in rows' {
      var i :| 0 <= i < |w.rows| && w.rows[i] == e;
      assert e.id in Ids(w.claims[q].events);
      assert Ids(w.claims[p].events[..w.claims[p].next]) <= Ids(w.claims[p].events);
      assert rows'[i] == e;
    }
  }

  lemma CommitKeepsInv(h: Handlers, w: World, p: ProcessorId, now: Time)
    requires Inv(h, w) && p in w.claims && w.claims[p].next == |w.claims[p].events|
    ensures Inv(h, Apply(h, w, Commit(p, now)))
  {
    CommitKeepsAccounts(h, w, w.claims[p], now);
    forall q | q in w.claims && q != p
      ensures ClaimOk(h, MarkRows(w.rows, w.claims[p].results, now), w.claims[q])
    {
      OtherClaimsUnmoved(h, w, p, q, now);
    }
  }

  lemma PruneKeepsInv(h: Handlers, w: World, now: Time)
    requires Inv(h, w)
    ensures Inv(h, Apply(h, w, Prune(now)))
  {
    var rows' := Filter(w.rows, Kept(now));
    FilterKeepsOrder(w.rows, Kept(now));
    forall id | id in w.published ensures id in Ids(rows') || Delivered(w.published[id]) {
      if id in Ids(w.rows) {
        var r :| r in w.rows && r.id == id;
        assert Mirrors(r, w.published);
        if r.Pending() {
          assert r in rows';
        }
      }
    }
    forall p | p in w.claims ensures ClaimOk(h, rows', w.claims[p]) {
      assert ClaimOk(h, w.rows, w.claims[p]);
    }
  }

  lemma StepKeepsInv(h: Handlers, w: World, step: Step)
    requires Inv(h, w)
    ensures Inv(h, Apply(h, w, step))
  {
    match step
    case Publish(id, topic, payload) =>
      if id !in w.published {
        PublishKeepsInv(h, w, id, topic, payload);
      }
    case ClaimBatch(p) =>
      if p !in w.claims {
        ClaimKeepsInv(h, w, p);
      }
    case Handle(p, answers) =>
      if p in w.claims && w.claims[p].next < |w.claims[p].events| {
        HandleKeepsInv(h, w, p, answers);
      }
    case Commit(p, now) =>
      if p in w.claims && w.claims[p].next == |w.claims[p].events| {
        CommitKeepsInv(h, w, p, now);
      }
    case Crash(p) =>
    case Prune(now) => PruneKeepsInv(h, w, now);
  }

  lemma {:induction false} RunsKeepInv(h: Handlers, steps: seq<Step>)
    ensures Inv(h, Run(h, steps))
  {
    if |steps| > 0 {
      RunsKeepInv(h, steps[..|steps| - 1]);
      StepKeepsInv(h, Run(h, steps[..|steps| - 1]), steps[|steps| - 1]);
    }
  }

  /** In every run, no event is in two open batches, and every event in one is still a pending row. */
  lemma ClaimsAreExclusive(h: Handlers, steps: seq<Step>, p: ProcessorId, q: ProcessorId)
    requires p in Run(h, steps).claims && q in Run(h, steps).claims && p != q
    ensures var w := Run(h, steps);
            Ids(w.claims[p].events) !! Ids(w.claims[q].events) &&
            |w.claims[p].events| <= BATCH &&
            forall e :: e in w.claims[p].events ==> e in w.rows && e.Pending()
  {
    RunsKeepInv(h, steps);
    var w := Run(h, steps);
    assert ClaimOk(h, w.rows, w.claims[p]);
  }

  predicate CalledEach(handlers: seq<HandlerId>, payload: Payload, calls: seq<Call>) {
    |calls| == |handlers| &&
    forall k :: 0 <= k < |calls| ==> calls[k].handler == handlers[k] && calls[k].payload == payload
  }

  predicate AllTook(calls: seq<Call>) {
    forall k :: 0 <= k < |calls| ==> calls[k].answer == Done || calls[k].answer == Undecodable
  }

  predicate SomeFailed(calls: seq<Call>) {
    exists k :: 0 <= k < |calls| && calls[k].answer == Failed
  }

  /**
   * Nothing published is lost or delivered for good twice: an event is a pending row all of whose
   * committed passes failed, or its last pass, and only that one, had every handler of its topic
   * take the payload or find it undecodable. Every pass called each handler registered for the topic.
   */
  lemma PublishedEventsAreAccountedFor(h: Handlers, steps: seq<Step>, id: EventId)
    requires id in Run(h, steps).published
    ensures var w := Run(h, steps); var e := w.published[id];
            (forall i :: 0 <= i < |e.passes| ==>
              if e.topic in h then CalledEach(h[e.topic], e.payload, e.passes[i]) else e.passes[i] == []) &&
            (Delivered(e) <==> forall r :: r in w.rows && r.id == id ==> !r.Pending()) &&
            (Delivered(e) ==>
              |e.passes| > 0 && AllTook(e.passes[|e.passes| - 1]) &&
              forall i :: 0 <= i < |e.passes| - 1 ==> SomeFailed(e.passes[i])) &&
            (!Delivered(e) ==>
              Row(id, e.topic, e.payload, |e.passes|, None) in w.rows &&
              forall i :: 0 <= i < |e.passes| ==> SomeFailed(e.passes[i]))
  {
    RunsKeepInv(h, steps);
    var w := Run(h, steps);
    var e := w.published[id];
    if id in Ids(w.rows) {
      var r :| r in w.rows && r.id == id;
      assert Mirrors(r, w.published);
      forall x | x in w.rows && x.id == id ensures x == r {
        SameIdSameRow(w.rows, x, r);
      }
      if r.Pending() {
        assert r == Row(id, e.topic, e.payload, |e.passes|, None);
      }
    } else {
      assert forall r :: r in w.rows ==> r.id in Ids(w.rows);
    }
  }

  /** A new event is a pending row with its payload, and disturbs no other row. */
  lemma PublishedIsPending(h: Handlers, steps: seq<Step>, id: EventId, topic: Topic, payload: Payload)
    requires id !in Run(h, steps).published
    ensures var w, after := Run(h, steps), Run(h, steps + [Publish(id, topic, payload)]);
            after.published == w.published[id := Published(topic, payload, [])] && after.claims == w.claims &&
            (forall r :: r in after.rows <==> r == Row(id, topic, payload, 0, None) || r in w.rows)
  {
    assert (steps + [Publish(id, topic, payload)])[..|steps|] == steps;
    InsertRowMembers(Run(h, steps).rows, Row(id, topic, payload, 0, None));
  }

  /** A crash frees the batch: its events are still pending, as they were, and no open claim holds them. */
  lemma CrashFreesBatch(h: Handlers, steps: seq<Step>, p: ProcessorId, e: Row)
    requires p in Run(h, steps).claims && e in Run(h, steps).claims[p].events
    ensures var w, after := Run(h, steps), Run(h, steps + [Crash(p)]);
            after.rows == w.rows && after.published == w.published && e in after.rows && e.Pending() &&
            e.id !in Locked(after.claims)
  {
    assert (steps + [Crash(p)])[..|steps|] == steps;
    RunsKeepInv(h, steps);
    var w := Run(h, steps);
    assert ClaimOk(h, w.rows, w.claims[p]) && e.id in Ids(w.claims[p].events);
    forall q, x | q in w.claims && q != p && x in w.claims[q].events ensures x.id != e.id {
      assert x.id in Ids(w.claims[q].events);
    }
  }

  // ----- when a row leaves the table -----

  // Step i is the commit, at time t, of the pass that delivered the event.
  ghost predicate DeliveredAt(h: Handlers, steps: seq<Step>, i: nat, id: EventId, t: Time) {
    i < |steps| && steps[i].Commit? && steps[i].now == t &&
    IsDelivered(Run(h, steps[..i + 1]), id) && !IsDelivered(Run(h, steps[..i]), id)
  }

  predicate IsDelivered(w: World, id: EventId) {
    id in w.published && Delivered(w.published[id])
  }

  ghost predicate WasDelivered(h: Handlers, steps: seq<Step>, id: EventId, t: Time) {
    exists i: nat :: DeliveredAt(h, steps, i, id, t)
  }

  ghost predicate Stamped(h: Handlers, steps: seq<Step>, rows: seq<Row>) {
    forall r :: r in rows && !r.Pending() ==> WasDelivered(h, steps, r.id, r.processedAt.value)
  }

  lemma RunFront(h: Handlers, steps: seq<Step>, n: nat)
    requires n < |steps|
    ensures Run(h, steps[..n + 1]) == Apply(h, Run(h, steps[..n]), steps[n])
  {
    assert steps[..n + 1][..n] == steps[..n];
  }

  lemma DeliveredStays(h: Handlers, steps: seq<Step>, n: nat, id: EventId, t: Time)
    requires n <= |steps| && WasDelivered(h, steps[..n], id, t)
    ensures WasDelivered(h, steps, id, t)
  {
    var i: nat :| DeliveredAt(h, steps[..n], i, id, t);
    assert steps[..n][..i] == steps[..i] && steps[..n][..i + 1] == steps[..i + 1];
    assert DeliveredAt(h, steps, i, id, t);
  }

  // A row that was pending before a step and is not afterwards was delivered by it.
  lemma RowIsStamped(h: Handlers, steps: seq<Step>, n: nat, before: Row, r: Row)
    requires n < |steps| && before in Run(h, steps[..n]).rows && r in Run(h, steps[..n + 1]).rows
    requires before.id == r.id && before.Pending() && !r.Pending() && steps[n].Commit? && r.processedAt.value == steps[n].now
    ensures DeliveredAt(h, steps, n, r.id, steps[n].now)
  {
    RunsKeepInv(h, steps[..n]);
    RunsKeepInv(h, steps[..n + 1]);
    var w, w' := Run(h, steps[..n]), Run(h, steps[..n + 1]);
    assert Mirrors(before, w.published) && Mirrors(r, w'.published);
    assert |w'.published[r.id].passes| == r.attempts + 1;
    PendingIsUndelivered(before, w.published);
  }

  lemma StepStampsRow(h: Handlers, w: World, step: Step, r: Row)
    requires Inv(h, w) && r in Apply(h, w, step).rows && !r.Pending()
    ensures r in w.rows ||
            (step.Commit? && r.processedAt.value == step.now && exists b :: b in w.rows && b.id == r.id && b.Pending())
  {
    match step
    case Publish(id, topic, payload) =>
      if id !in w.published {
        InsertRowMembers(w.rows, Row(id, topic, payload, 0, None));
      }
    case Commit(p, now) =>
      if p in w.claims && w.claims[p].next == |w.claims[p].events| {
        var i :| 0 <= i < |w.rows| && MarkRows(w.rows, w.claims[p].results, now)[i] == r;
        assert w.rows[i] in w.rows && w.rows[i].id == r.id;
        if r.id in w.claims[p].results {
          HandledRowsArePending(h, w.rows, w.claims[p], w.rows[i]);
        }
      }
    case _ =>
  }

  lemma {:induction false} RowsAreStamped(h: Handlers, steps: seq<Step>)
    ensures Stamped(h, steps, Run(h, steps).rows)
  {
    if |steps| > 0 {
      var n := |steps| - 1;
      RowsAreStamped(h, steps[..n]);
      RunsKeepInv(h, steps[..n]);
      RunFront(h, steps, n);
      assert steps[..n + 1] == steps;
      forall r | r in Run(h, steps).rows && !r.Pending() ensures WasDelivered(h, steps, r.id, r.processedAt.value) {
        StepStampsRow(h, Run(h, steps[..n]), steps[n], r);
        if r in Run(h, steps[..n]).rows {
          DeliveredStays(h, steps, n, r.id, r.processedAt.value);
        } else {
          var b :| b in Run(h, steps[..n]).rows && b.id == r.id && b.Pending();
          RowIsStamped(h, steps, n, b, r);
        }
      }
    }
  }

  lemma PendingIsUndelivered(r: Row, published: map<EventId, Published>)
    requires Mirrors(r, published) && r.Pending()
    ensures !Delivered(published[r.id])
  {
  }

  lemma NotHandledAgain(h: Handlers, w: World, c: Claim, id: EventId)
    requires Accounted(h, w.rows, w.published) && ClaimOk(h, w.rows, c) && IsDelivered(w, id)
    ensures id !in c.results
  {
    HandledIdsHaveRows(h, w.rows, c);
    forall r | r in w.rows && r.id in c.results ensures r.id != id {
      HandledRowsArePending(h, w.rows, c, r);
      PendingIsUndelivered(r, w.published);
    }
  }

  predicate StaysDelivered(h: Handlers, w: World, step: Step, id: EventId) {
    IsDelivered(Apply(h, w, step), id)
  }

  lemma StepKeepsDelivered(h: Handlers, w: World, step: Step, id: EventId)
    requires Inv(h, w) && IsDelivered(w, id)
    ensures StaysDelivered(h, w, step, id)
  {
    if step.Commit? && step.processor in w.claims {
      NotHandledAgain(h, w, w.claims[step.processor], id);
    }
  }

  lemma {:induction false} DeliveredForGood(h: Handlers, steps: seq<Step>, n: nat, id: EventId)
    requires n <= |steps| && IsDelivered(Run(h, steps[..n]), id)
    ensures IsDelivered(Run(h, steps), id)
    decreases |steps| - n
  {
    if n == |steps| {
      assert steps[..n] == steps;
    } else {
      RunsKeepInv(h, steps[..n]);
      StepKeepsDelivered(h, Run(h, steps[..n]), steps[n], id);
      RunFront(h, steps, n);
      DeliveredForGood(h, steps, n + 1, id);
    }
  }

  lemma DeliveredOnce(h: Handlers, steps: seq<Step>, i: nat, j: nat, id: EventId, t: Time, u: Time)
    requires DeliveredAt(h, steps, i, id, t) && DeliveredAt(h, steps, j, id, u)
    ensures t == u
  {
    if i < j {
      assert steps[..j][..i + 1] == steps[..i + 1];
      DeliveredForGood(h, steps[..j], i + 1, id);
    } else if j < i {
      assert steps[..i][..j + 1] == steps[..j + 1];
      DeliveredForGood(h, steps[..i], j + 1, id);
    }
  }

  lemma DeliveredRowIsStamped(h: Handlers, steps: seq<Step>, r: Row, t: Time)
    requires r in Run(h, steps).rows && WasDelivered(h, steps, r.id, t)
    ensures r.processedAt == Some(t)
  {
    var i: nat :| DeliveredAt(h, steps, i, r.id, t);
    DeliveredForGood(h, steps, i + 1, r.id);
    PublishedEventsAreAccountedFor(h, steps, r.id);
    RowsAreStamped(h, steps);
    var j: nat :| DeliveredAt(h, steps, j, r.id, r.processedAt.value);
    DeliveredOnce(h, steps, i, j, r.id, t, r.processedAt.value);
  }

  /**
   * In every run a prune drops a row if and only if a pass that delivered its event was committed
   * more than a day before: nothing undelivered, and nothing delivered since, ever leaves the table.
   */
  lemma PruneDropsIff(h: Handlers, steps: seq<Step>, now: Time, r: Row)
    requires r in Run(h, steps).rows
    ensures r !in Run(h, steps + [Prune(now)]).rows <==>
            exists t :: t < now - SHELF_LIFE && WasDelivered(h, steps, r.id, t)
  {
    assert (steps + [Prune(now)])[..|steps|] == steps;
    RowsAreStamped(h, steps);
    if t :| t < now - SHELF_LIFE && WasDelivered(h, steps, r.id, t) {
      DeliveredRowIsStamped(h, steps, r, t);
    }
  }
}
