/**
 * Live broadcasts: a committed change leaves an outbox event that names only what changed; a handler
 * re-reads the stored value and publishes it. Prices and reaction counts both work this way, so
 * the stored thing is a value V under a key K (crates/application/src/broadcasters).
 */
module Broadcast {
  import opened Base
  import opened Throughout

  type ProcessorId = nat
  type ClientId = nat

  // A handler between its read and its publish.
  datatype Reading<V> = Reading(event: EventId, value: V)

  datatype Turn<V> = Turn(batch: set<EventId>, handled: set<EventId>, reading: Option<Reading<V>>)

  // A joined client: the snapshot it was sent, then every frame broadcast since it subscribed.
  datatype Client<K, V> = Client(key: K, snapshot: Option<V>, frames: seq<V>) {
    function Shown(): Option<V> {
      if |frames| > 0 then Some(frames[|frames| - 1]) else snapshot
    }
  }

  datatype World<K(==), V> = World(store: map<K, V>, written: set<K>, events: map<EventId, K>, pending: set<EventId>,
                                   turns: map<ProcessorId, Turn<V>>, last: map<K, V>,
                                   clients: map<ClientId, Client<K, V>>)

  datatype Step<K, V> =
    | Create(key: K, value: V)
    | Write(key: K, value: V, event: EventId)
    | ClaimBatch(processor: ProcessorId, ids: set<EventId>)
    | Read(processor: ProcessorId, event: EventId)
    | Publish(processor: ProcessorId, ok: bool)
    | GiveUp(processor: ProcessorId)
    | Commit(processor: ProcessorId)
    | Crash(processor: ProcessorId)
    | Subscribe(client: ClientId, key: K)
    | Snapshot(client: ClientId)

  function Claimed<V>(turns: map<ProcessorId, Turn<V>>): set<EventId> {
    set p, id | p in turns && id in turns[p].batch :: id
  }

  function HandledIn<V>(turns: map<ProcessorId, Turn<V>>): set<EventId> {
    set p, id | p in turns && id in turns[p].handled :: id
  }

  function Sent<K(==), V>(clients: map<ClientId, Client<K, V>>, key: K, value: V): map<ClientId, Client<K, V>> {
    map c | c in clients ::
      if clients[c].key == key then clients[c].(frames := clients[c].frames + [value]) else clients[c]
  }

  // A step that is not enabled does nothing.
  function Apply<K(==), V>(w: World<K, V>, step: Step<K, V>): World<K, V> {
    match step
    case Create(k, v) => if k in w.store then w else w.(store := w.store[k := v])
    case Write(k, v, id) =>
      if id in w.events then w
      else w.(store := w.store[k := v], written := w.written + {k},
              events := w.events[id := k], pending := w.pending + {id})
    case ClaimBatch(p, ids) =>
      if p in w.turns || !(ids <= w.pending - Claimed(w.turns)) then w
      else w.(turns := w.turns[p := Turn(ids, {}, None)])
    case Read(p, id) =>
      if p !in w.turns || w.turns[p].reading.Some? || id !in w.turns[p].batch - w.turns[p].handled || id !in w.events
      then w
      else ReadStored(w, p, id)
    case Publish(p, ok) =>
      if p !in w.turns || w.turns[p].reading.None? || w.turns[p].reading.value.event !in w.events then w
      else PublishRead(w, p, ok)
    case GiveUp(p) =>
      if p !in w.turns then w else w.(turns := w.turns[p := w.turns[p].(reading := None)])
    case Commit(p) =>
      if p !in w.turns || w.turns[p].reading.Some? then w
      else w.(pending := w.pending - w.turns[p].handled, turns := w.turns - {p})
    case Crash(p) => w.(turns := w.turns - {p})
    case Subscribe(c, k) =>
      if c in w.clients then w else w.(clients := w.clients[c := Client(k, None, [])])
    case Snapshot(c) =>
      if c !in w.clients || w.clients[c].snapshot.Some? || w.clients[c].key !in w.store then w
      else w.(clients := w.clients[c := w.clients[c].(snapshot := Some(w.store[w.clients[c].key]))])
  }

  // The handler loads the stored value; with nothing stored there is nothing to publish.
  function ReadStored<K(==), V>(w: World<K, V>, p: ProcessorId, id: EventId): World<K, V>
    requires p in w.turns && id in w.events
  {
    var turn, k := w.turns[p], w.events[id];
    if k in w.store
    then w.(turns := w.turns[p := turn.(reading := Some(Reading(id, w.store[k])))])
    else w.(turns := w.turns[p := turn.(handled := turn.handled + {id})])
  }

  // Publishing may reach subscribers and still leave the event to be retried.
  function PublishRead<K(==), V>(w: World<K, V>, p: ProcessorId, ok: bool): World<K, V>
    requires p in w.turns && w.turns[p].reading.Some? && w.turns[p].reading.value.event in w.events
  {
    var turn, r := w.turns[p], w.turns[p].reading.value;
    var k := w.events[r.event];
    w.(last := w.last[k := r.value], clients := Sent(w.clients, k, r.value),
       turns := w.turns[p := turn.(reading := None, handled := turn.handled + (if ok then {r.event} else {}))])
  }

  function Start<K(==), V>(): World<K, V> {
    World(map[], {}, map[], {}, map[], map[], map[])
  }

  function Run<K(==), V>(steps: seq<Step<K, V>>): World<K, V> {
    if |steps| == 0 then Start() else Apply(Run(steps[..|steps| - 1]), steps[|steps| - 1])
  }

  lemma RunThen<K(!new), V>(steps: seq<Step<K, V>>, step: Step<K, V>)
    ensures Run(steps + [step]) == Apply(Run(steps), step)
  {
    assert (steps + [step])[..|steps|] == steps;
  }

  lemma RunThenTwo<K(!new), V>(steps: seq<Step<K, V>>, first: Step<K, V>, second: Step<K, V>)
    ensures Run(steps + [first] + [second]) == Apply(Apply(Run(steps), first), second)
  {
    RunThen(steps, first);
    RunThen(steps + [first], second);
  }

  // What a store's own step, if it has one here, makes of the feed.
  function AfterCaused<K(==), V>(w: World<K, V>, caused: Option<Step<K, V>>): World<K, V> {
    match caused
    case Some(step) => Apply(w, step)
    case None => w
  }

  lemma DeliveryLeavesStore<K(!new), V>(w: World<K, V>, step: Step<K, V>)
    requires !step.Create? && !step.Write?
    ensures Apply(w, step).store == w.store && Apply(w, step).written == w.written && Apply(w, step).events == w.events
  {
  }

  // ----- runs in which two handlers are never between read and publish for one key -----

  predicate Alone<K(==), V>(w: World<K, V>, step: Step<K, V>) {
    step.Read? && step.event in w.events ==>
      forall q :: q in w.turns && q != step.processor && w.turns[q].reading.Some? ==>
        w.turns[q].reading.value.event in w.events &&
        w.events[w.turns[q].reading.value.event] != w.events[step.event]
  }

  predicate AllAlone<K(==), V>(steps: seq<Step<K, V>>) {
    forall i :: 0 <= i < |steps| ==> Alone(Run(steps[..i]), steps[i])
  }

  // An event for k that is still to be delivered.
  predicate IsOwed<K(==), V>(w: World<K, V>, k: K, id: EventId) {
    id in w.pending && id in w.events && w.events[id] == k && id !in HandledIn(w.turns)
  }

  ghost predicate Owed<K(!new), V>(w: World<K, V>, k: K) {
    exists id :: IsOwed(w, k, id)
  }

  ghost predicate OwedBeside<K(!new), V>(w: World<K, V>, k: K, other: EventId) {
    exists id :: id != other && IsOwed(w, k, id)
  }

  predicate TurnsOk<K(==), V>(w: World<K, V>) {
    (forall id :: id in w.pending ==> id in w.events) &&
    (forall id :: id in w.events ==> w.events[id] in w.store && w.events[id] in w.written) &&
    (forall p :: p in w.turns ==> TurnOk(w, w.turns[p])) &&
    (forall p, q :: p in w.turns && q in w.turns && p != q ==> w.turns[p].batch !! w.turns[q].batch)
  }

  predicate TurnOk<K(==), V>(w: World<K, V>, turn: Turn<V>) {
    turn.batch <= w.pending && turn.handled <= turn.batch &&
    (turn.reading.Some? ==> turn.reading.value.event in turn.batch - turn.handled)
  }

  predicate ReadersApart<K(==), V>(w: World<K, V>) {
    forall p, q :: p in w.turns && q in w.turns && p != q && w.turns[p].reading.Some? && w.turns[q].reading.Some? ==>
      w.turns[p].reading.value.event in w.events && w.turns[q].reading.value.event in w.events &&
      w.events[w.turns[p].reading.value.event] != w.events[w.turns[q].reading.value.event]
  }

  ghost predicate KeyOk<K(!new), V>(w: World<K, V>, k: K) {
    k in w.store && ((k in w.last && w.last[k] == w.store[k]) || Owed(w, k))
  }

  ghost predicate ReadingOk<K(!new), V>(w: World<K, V>, r: Reading<V>) {
    r.event in w.events && w.events[r.event] in w.store &&
    (r.value == w.store[w.events[r.event]] || OwedBeside(w, w.events[r.event], r.event))
  }

  ghost predicate ClientOk<K(!new), V>(w: World<K, V>, c: Client<K, V>) {
    if |c.frames| > 0 then c.key in w.written && c.key in w.last && c.frames[|c.frames| - 1] == w.last[c.key]
    else c.snapshot.Some? ==> c.key in w.store && (c.snapshot.value == w.store[c.key] || Owed(w, c.key))
  }

  ghost predicate Inv<K(!new), V>(w: World<K, V>) {
    TurnsOk(w) && ReadersApart(w) &&
    (forall k :: k in w.written ==> KeyOk(w, k)) &&
    (forall p :: p in w.turns && w.turns[p].reading.Some? ==> ReadingOk(w, w.turns[p].reading.value)) &&
    (forall c :: c in w.clients ==> ClientOk(w, w.clients[c]))
  }

  // What stays owed when the store and the event log do not change.
  ghost predicate StillOwed<K(!new), V>(w: World<K, V>, after: World<K, V>) {
    after.store == w.store && after.written == w.written && after.events == w.events && after.last == w.last &&
    forall id :: id in w.pending - HandledIn(w.turns) ==> id in after.pending - HandledIn(after.turns)
  }

  lemma OwedStays<K(!new), V>(w: World<K, V>, after: World<K, V>, k: K)
    requires StillOwed(w, after)
    ensures Owed(w, k) ==> Owed(after, k)
    ensures forall x :: OwedBeside(w, k, x) ==> OwedBeside(after, k, x)
  {
    forall id | IsOwed(w, k, id) ensures IsOwed(after, k, id) {
      assert id in w.pending - HandledIn(w.turns);
    }
  }

  lemma StillOwedKeepsInv<K(!new), V>(w: World<K, V>, after: World<K, V>)
    requires Inv(w) && StillOwed(w, after) && TurnsOk(after) && ReadersApart(after)
    requires forall p :: p in after.turns && after.turns[p].reading.Some? ==>
               (p in w.turns && w.turns[p].reading == after.turns[p].reading) || ReadingOk(w, after.turns[p].reading.value)
    requires forall c :: c in after.clients ==> ClientOk(w, after.clients[c])
    ensures Inv(after)
  {
    forall k ensures (Owed(w, k) ==> Owed(after, k)) && (forall x :: OwedBeside(w, k, x) ==> OwedBeside(after, k, x)) {
      OwedStays(w, after, k);
    }
    forall k | k in after.written ensures KeyOk(after, k) {
      assert KeyOk(w, k);
    }
    forall p | p in after.turns && after.turns[p].reading.Some? ensures ReadingOk(after, after.turns[p].reading.value) {
      assert ReadingOk(w, after.turns[p].reading.value);
    }
    forall c | c in after.clients ensures ClientOk(after, after.clients[c]) {
      assert ClientOk(w, after.clients[c]);
    }
  }

  lemma HandledAreLogged<K(!new), V>(w: World<K, V>)
    requires TurnsOk(w)
    ensures HandledIn(w.turns) <= w.pending
  {
    forall p | p in w.turns ensures w.turns[p].handled <= w.pending {
      assert TurnOk(w, w.turns[p]);
    }
  }

  // ----- turns stay in order in every run, overlapping or not -----

  lemma WriteKeepsTurnsOk<K(!new), V>(w: World<K, V>, k: K, v: V, id: EventId)
    requires TurnsOk(w) && id !in w.events
    ensures TurnsOk(Apply(w, Write(k, v, id)))
  {
    var after := Apply(w, Write(k, v, id));
    forall p | p in after.turns ensures TurnOk(after, after.turns[p]) {
      assert TurnOk(w, w.turns[p]);
    }
  }

  lemma CreateKeepsTurnsOk<K(!new), V>(w: World<K, V>, k: K, v: V)
    requires TurnsOk(w) && k !in w.store
    ensures TurnsOk(Apply(w, Create(k, v)))
  {
    var after := Apply(w, Create(k, v));
    forall p | p in after.turns ensures TurnOk(after, after.turns[p]) {
      assert TurnOk(w, w.turns[p]);
    }
  }

  lemma ClaimKeepsTurnsOk<K(!new), V>(w: World<K, V>, p: ProcessorId, ids: set<EventId>)
    requires TurnsOk(w) && p !in w.turns && ids <= w.pending - Claimed(w.turns)
    ensures TurnsOk(Apply(w, ClaimBatch(p, ids)))
  {
    var after := Apply(w, ClaimBatch(p, ids));
    forall q | q in after.turns ensures TurnOk(after, after.turns[q]) {
      assert q != p ==> TurnOk(w, w.turns[q]);
    }
    forall q | q in w.turns ensures w.turns[q].batch !! ids {
      assert forall x :: x in w.turns[q].batch ==> x in Claimed(w.turns);
    }
  }

  // A turn that keeps its batch may move on within it.
  lemma TurnMovesOn<K(!new), V>(w: World<K, V>, p: ProcessorId, turn: Turn<V>, last: map<K, V>,
                                clients: map<ClientId, Client<K, V>>)
    requires TurnsOk(w) && p in w.turns && turn.batch == w.turns[p].batch && TurnOk(w, turn)
    ensures TurnsOk(w.(last := last, clients := clients, turns := w.turns[p := turn]))
  {
    var after := w.(last := last, clients := clients, turns := w.turns[p := turn]);
    forall q | q in after.turns ensures TurnOk(after, after.turns[q]) {
      assert TurnOk(w, w.turns[q]);
    }
  }

  // A commit drops what was handled; a crash drops nothing and forgets what was handled.
  lemma EndOfTurnKeepsTurnsOk<K(!new), V>(w: World<K, V>, p: ProcessorId, dropped: set<EventId>)
    requires TurnsOk(w) && p in w.turns && (dropped == {} || dropped == w.turns[p].handled)
    ensures TurnsOk(w.(pending := w.pending - dropped, turns := w.turns - {p}))
  {
    var after := w.(pending := w.pending - dropped, turns := w.turns - {p});
    assert TurnOk(w, w.turns[p]);
    forall q | q in after.turns ensures TurnOk(after, after.turns[q]) {
      assert TurnOk(w, w.turns[q]) && w.turns[p].batch !! w.turns[q].batch;
    }
  }

  predicate TurnsOkAfter<K(==), V>(w: World<K, V>, step: Step<K, V>) {
    TurnsOk(Apply(w, step))
  }

  lemma ReadKeepsTurnsOk<K(!new), V>(w: World<K, V>, p: ProcessorId, id: EventId)
    requires TurnsOk(w)
    ensures TurnsOkAfter(w, Read(p, id))
  {
    if p in w.turns && w.turns[p].reading.None? && id in w.turns[p].batch - w.turns[p].handled && id in w.events {
      assert TurnOk(w, w.turns[p]) && w.events[id] in w.store;
      TurnMovesOn(w, p, w.turns[p].(reading := Some(Reading(id, w.store[w.events[id]]))), w.last, w.clients);
    }
  }

  lemma PublishKeepsTurnsOk<K(!new), V>(w: World<K, V>, p: ProcessorId, ok: bool)
    requires TurnsOk(w)
    ensures TurnsOkAfter(w, Publish(p, ok))
  {
    if p in w.turns && w.turns[p].reading.Some? && w.turns[p].reading.value.event in w.events {
      var after := PublishRead(w, p, ok);
      assert TurnOk(w, w.turns[p]);
      TurnMovesOn(w, p, after.turns[p], after.last, after.clients);
    }
  }

  lemma StepKeepsTurnsOk<K(!new), V>(w: World<K, V>, step: Step<K, V>)
    requires TurnsOk(w)
    ensures TurnsOkAfter(w, step)
  {
    match step
    case Create(k, v) =>
      if k !in w.store {
        CreateKeepsTurnsOk(w, k, v);
      }
    case Write(k, v, id) =>
      if id !in w.events {
        WriteKeepsTurnsOk(w, k, v, id);
      }
    case ClaimBatch(p, ids) =>
      if p !in w.turns && ids <= w.pending - Claimed(w.turns) {
        ClaimKeepsTurnsOk(w, p, ids);
      }
    case Read(p, id) => ReadKeepsTurnsOk(w, p, id);
    case Publish(p, ok) => PublishKeepsTurnsOk(w, p, ok);
    case GiveUp(p) =>
      if p in w.turns {
        assert TurnOk(w, w.turns[p]);
        TurnMovesOn(w, p, w.turns[p].(reading := None), w.last, w.clients);
      }
    case Commit(p) =>
      if p in w.turns && w.turns[p].reading.None? {
        EndOfTurnKeepsTurnsOk(w, p, w.turns[p].handled);
      }
    case Crash(p) =>
      if p in w.turns {
        EndOfTurnKeepsTurnsOk(w, p, {});
        assert w.pending - {} == w.pending;
      } else {
        assert w.turns - {p} == w.turns;
      }
    case Subscribe(_, _) => SameTurnsStayOk(w, Apply(w, step));
    case Snapshot(_) => SameTurnsStayOk(w, Apply(w, step));
  }

  lemma SameTurnsStayOk<K(!new), V>(w: World<K, V>, after: World<K, V>)
    requires TurnsOk(w) && after == w.(clients := after.clients)
    ensures TurnsOk(after)
  {
    forall p | p in after.turns ensures TurnOk(after, after.turns[p]) {
      assert TurnOk(w, w.turns[p]);
    }
  }

  lemma {:induction false} TurnsOkInEveryRun<K(!new), V>(steps: seq<Step<K, V>>)
    ensures TurnsOk(Run(steps))
  {
    if |steps| > 0 {
      TurnsOkInEveryRun(steps[..|steps| - 1]);
      StepKeepsTurnsOk(Run(steps[..|steps| - 1]), steps[|steps| - 1]);
    }
  }

  // ----- only publishing and storing change what is owed -----

  lemma HandledWith<V>(turns: map<ProcessorId, Turn<V>>, p: ProcessorId, turn: Turn<V>)
    requires p in turns ==> turns[p].handled <= turn.handled
    ensures HandledIn(turns[p := turn]) == HandledIn(turns) + turn.handled
  {
    forall id | id in HandledIn(turns) + turn.handled ensures id in HandledIn(turns[p := turn]) {
      if id in HandledIn(turns) {
        var q :| q in turns && id in turns[q].handled;
        assert q in turns[p := turn] && id in turns[p := turn][q].handled;
      } else {
        assert p in turns[p := turn] && id in turns[p := turn][p].handled;
      }
    }
  }

  lemma TurnChangeLeavesOwed<K(!new), V>(w: World<K, V>, p: ProcessorId, turn: Turn<V>)
    requires turn.handled == if p in w.turns then w.turns[p].handled else {}
    ensures StillOwed(w, w.(turns := w.turns[p := turn]))
  {
    HandledWith(w.turns, p, turn);
    assert p in w.turns ==> w.turns[p].handled <= HandledIn(w.turns);
  }

  lemma EndOfTurnLeavesOwed<K(!new), V>(w: World<K, V>, p: ProcessorId, dropped: set<EventId>)
    requires p in w.turns && dropped <= w.turns[p].handled
    ensures StillOwed(w, w.(pending := w.pending - dropped, turns := w.turns - {p}))
  {
    assert w.turns[p].handled <= HandledIn(w.turns);
    assert HandledIn(w.turns - {p}) <= HandledIn(w.turns);
  }

  ghost predicate OwedAfter<K(!new), V>(w: World<K, V>, step: Step<K, V>) {
    StillOwed(w, Apply(w, step))
  }

  lemma OtherStepsLeaveOwed<K(!new), V>(w: World<K, V>, step: Step<K, V>)
    requires TurnsOk(w) && !step.Publish? && !step.Create? && !step.Write?
    ensures OwedAfter(w, step)
  {
    match step
    case ClaimBatch(p, ids) => TurnChangeLeavesOwed(w, p, if p in w.turns then w.turns[p] else Turn(ids, {}, None));
    case Read(p, id) =>
      if p in w.turns && id in w.events {
        TurnChangeLeavesOwed(w, p, w.turns[p].(reading := Some(Reading(id, w.store[w.events[id]]))));
      }
    case GiveUp(p) =>
      if p in w.turns {
        TurnChangeLeavesOwed(w, p, w.turns[p].(reading := None));
      }
    case Commit(p) =>
      if p in w.turns {
        EndOfTurnLeavesOwed(w, p, w.turns[p].handled);
      }
    case Crash(p) =>
      if p in w.turns {
        EndOfTurnLeavesOwed(w, p, {});
        assert w.pending - {} == w.pending;
      } else {
        assert w.turns - {p} == w.turns;
      }
    case _ =>
  }

  // ----- each step of handlers that do not overlap keeps the invariant -----

  lemma WriteKeepsInv<K(!new), V>(w: World<K, V>, k: K, v: V, id: EventId)
    requires Inv(w) && id !in w.events
    ensures Inv(Apply(w, Write(k, v, id)))
  {
    var after := Apply(w, Write(k, v, id));
    HandledAreLogged(w);
    assert IsOwed(after, k, id);
    forall j, x | IsOwed(w, j, x) ensures IsOwed(after, j, x) {
    }
    forall j | j in after.written ensures KeyOk(after, j) {
      assert j != k ==> KeyOk(w, j);
    }
    WriteKeepsTurnsOk(w, k, v, id);
    forall p | p in after.turns && after.turns[p].reading.Some? ensures ReadingOk(after, after.turns[p].reading.value) {
      assert ReadingOk(w, w.turns[p].reading.value);
    }
    forall c | c in after.clients ensures ClientOk(after, after.clients[c]) {
      assert ClientOk(w, w.clients[c]);
    }
  }

  lemma CreateKeepsInv<K(!new), V>(w: World<K, V>, k: K, v: V)
    requires Inv(w) && k !in w.store
    ensures Inv(Apply(w, Create(k, v)))
  {
    var after := Apply(w, Create(k, v));
    forall j, x | IsOwed(w, j, x) ensures IsOwed(after, j, x) {
    }
    forall j | j in after.written ensures KeyOk(after, j) {
      assert KeyOk(w, j);
    }
    CreateKeepsTurnsOk(w, k, v);
    forall p | p in after.turns && after.turns[p].reading.Some? ensures ReadingOk(after, after.turns[p].reading.value) {
      assert ReadingOk(w, w.turns[p].reading.value);
    }
    forall c | c in after.clients ensures ClientOk(after, after.clients[c]) {
      assert ClientOk(w, w.clients[c]);
    }
  }

  lemma PublishKeepsClients<K(!new), V>(w: World<K, V>, p: ProcessorId, ok: bool, c: ClientId)
    requires Inv(w) && p in w.turns && w.turns[p].reading.Some? && w.turns[p].reading.value.event in w.events && c in w.clients
    ensures ClientOk(PublishRead(w, p, ok), PublishRead(w, p, ok).clients[c])
  {
    var k := w.clients[c].key;
    assert ClientOk(w, w.clients[c]);
    if k != w.events[w.turns[p].reading.value.event] {
      OtherKeysStayOwed(w, p, ok, k);
    }
  }

  lemma OtherKeysStayOwed<K(!new), V>(w: World<K, V>, p: ProcessorId, ok: bool, k: K)
    requires TurnsOk(w) && p in w.turns && w.turns[p].reading.Some? && w.turns[p].reading.value.event in w.events
    ensures forall x :: IsOwed(w, k, x) && x != w.turns[p].reading.value.event ==> IsOwed(PublishRead(w, p, ok), k, x)
  {
    assert w.turns[p].handled <= HandledIn(w.turns);
    HandledWith(w.turns, p, PublishRead(w, p, ok).turns[p]);
  }

  // Publishing a stale value leaves another event for the key; publishing a current one needs none.
  lemma PublishKeepsInv<K(!new), V>(w: World<K, V>, p: ProcessorId, ok: bool)
    requires Inv(w) && p in w.turns && w.turns[p].reading.Some? && w.turns[p].reading.value.event in w.events
    ensures Inv(PublishRead(w, p, ok))
  {
    var after, r := PublishRead(w, p, ok), w.turns[p].reading.value;
    assert ReadingOk(w, r);
    PublishKeepsTurnsOk(w, p, ok);
    forall j | j in after.written ensures KeyOk(after, j) {
      assert KeyOk(w, j);
      OtherKeysStayOwed(w, p, ok, j);
    }
    forall q | q in after.turns && after.turns[q].reading.Some? ensures ReadingOk(after, after.turns[q].reading.value) {
      assert ReadingOk(w, w.turns[q].reading.value);
      OtherKeysStayOwed(w, p, ok, w.events[w.turns[q].reading.value.event]);
    }
    forall c | c in after.clients ensures ClientOk(after, after.clients[c]) {
      PublishKeepsClients(w, p, ok, c);
    }
  }

  lemma ReadStaysApart<K(!new), V>(w: World<K, V>, p: ProcessorId, id: EventId)
    requires TurnsOk(w) && ReadersApart(w) && Alone(w, Read(p, id)) && p in w.turns && id in w.events
    ensures ReadersApart(ReadStored(w, p, id))
  {
  }

  lemma ReadKeepsInv<K(!new), V>(w: World<K, V>, p: ProcessorId, id: EventId)
    requires Inv(w) && Alone(w, Read(p, id)) && p in w.turns && w.turns[p].reading.None?
    requires id in w.turns[p].batch - w.turns[p].handled && id in w.events
    ensures Inv(ReadStored(w, p, id))
  {
    ReadKeepsTurnsOk(w, p, id);
    ReadStaysApart(w, p, id);
    OtherStepsLeaveOwed(w, Read(p, id));
    StillOwedKeepsInv(w, ReadStored(w, p, id));
  }

  lemma ClaimKeepsInv<K(!new), V>(w: World<K, V>, p: ProcessorId, ids: set<EventId>)
    requires Inv(w) && p !in w.turns && ids <= w.pending - Claimed(w.turns)
    ensures Inv(Apply(w, ClaimBatch(p, ids)))
  {
    ClaimKeepsTurnsOk(w, p, ids);
    OtherStepsLeaveOwed(w, ClaimBatch(p, ids));
    StillOwedKeepsInv(w, Apply(w, ClaimBatch(p, ids)));
  }

  lemma GiveUpKeepsInv<K(!new), V>(w: World<K, V>, p: ProcessorId)
    requires Inv(w) && p in w.turns
    ensures Inv(Apply(w, GiveUp(p)))
  {
    StepKeepsTurnsOk(w, GiveUp(p));
    OtherStepsLeaveOwed(w, GiveUp(p));
    StillOwedKeepsInv(w, Apply(w, GiveUp(p)));
  }

  lemma EndOfTurnKeepsInv<K(!new), V>(w: World<K, V>, p: ProcessorId, dropped: set<EventId>)
    requires Inv(w) && p in w.turns && (dropped == {} || dropped == w.turns[p].handled)
    ensures Inv(w.(pending := w.pending - dropped, turns := w.turns - {p}))
  {
    EndOfTurnKeepsTurnsOk(w, p, dropped);
    EndOfTurnLeavesOwed(w, p, dropped);
    StillOwedKeepsInv(w, w.(pending := w.pending - dropped, turns := w.turns - {p}));
  }

  lemma StepKeepsInv<K(!new), V>(w: World<K, V>, step: Step<K, V>)
    requires Inv(w) && Alone(w, step)
    ensures Inv(Apply(w, step))
  {
    match step
    case Create(k, v) =>
      if k !in w.store {
        CreateKeepsInv(w, k, v);
      }
    case Write(k, v, id) =>
      if id !in w.events {
        WriteKeepsInv(w, k, v, id);
      }
    case ClaimBatch(p, ids) =>
      if p !in w.turns && ids <= w.pending - Claimed(w.turns) {
        ClaimKeepsInv(w, p, ids);
      }
    case Read(p, id) =>
      if p in w.turns && w.turns[p].reading.None? && id in w.turns[p].batch - w.turns[p].handled && id in w.events {
        ReadKeepsInv(w, p, id);
      }
    case Publish(p, ok) =>
      if p in w.turns && w.turns[p].reading.Some? && w.turns[p].reading.value.event in w.events {
        PublishKeepsInv(w, p, ok);
      }
    case GiveUp(p) =>
      if p in w.turns {
        GiveUpKeepsInv(w, p);
      }
    case Commit(p) =>
      if p in w.turns && w.turns[p].reading.None? {
        EndOfTurnKeepsInv(w, p, w.turns[p].handled);
      }
    case Crash(p) =>
      if p in w.turns {
        EndOfTurnKeepsInv(w, p, {});
        assert w.pending - {} == w.pending;
      } else {
        assert w.turns - {p} == w.turns;
      }
    case Subscribe(c, k) => SubscribeKeepsInv(w, c, k);
    case Snapshot(c) => SnapshotKeepsInv(w, c);
  }

  lemma SubscribeKeepsInv<K(!new), V>(w: World<K, V>, c: ClientId, k: K)
    requires Inv(w)
    ensures Inv(Apply(w, Subscribe(c, k)))
  {
    var after := Apply(w, Subscribe(c, k));
    SameTurnsStayOk(w, after);
    OtherStepsLeaveOwed(w, Subscribe(c, k));
    forall d | d in after.clients ensures ClientOk(w, after.clients[d]) {
      assert d in w.clients ==> ClientOk(w, w.clients[d]);
    }
    StillOwedKeepsInv(w, after);
  }

  lemma SnapshotKeepsInv<K(!new), V>(w: World<K, V>, c: ClientId)
    requires Inv(w)
    ensures Inv(Apply(w, Snapshot(c)))
  {
    var after := Apply(w, Snapshot(c));
    SameTurnsStayOk(w, after);
    OtherStepsLeaveOwed(w, Snapshot(c));
    forall d | d in after.clients ensures ClientOk(w, after.clients[d]) {
      assert ClientOk(w, w.clients[d]);
    }
    StillOwedKeepsInv(w, after);
  }

  lemma {:induction false} RunsKeepInv<K(!new), V>(steps: seq<Step<K, V>>)
    requires AllAlone(steps)
    ensures Inv(Run(steps))
  {
    if |steps| > 0 {
      var n := |steps| - 1;
      assert forall i :: 0 <= i < n ==> steps[..n][..i] == steps[..i];
      RunsKeepInv(steps[..n]);
      StepKeepsInv(Run(steps[..n]), steps[n]);
    }
  }

  /** What was last broadcast for a written key is what is stored, or an event for it is still to be delivered. */
  lemma LastBroadcastIsCurrent<K(!new), V>(steps: seq<Step<K, V>>, k: K)
    requires AllAlone(steps) && k in Run(steps).written
    ensures var w := Run(steps);
            k in w.store && (Owed(w, k) || (k in w.last && w.last[k] == w.store[k]))
  {
    RunsKeepInv(steps);
    assert KeyOk(Run(steps), k);
  }

  /** Subscribe first, snapshot second: once nothing is owed, a joined client shows what is stored. */
  lemma JoinedClientsConverge<K(!new), V>(steps: seq<Step<K, V>>, c: ClientId)
    requires AllAlone(steps) && c in Run(steps).clients && Run(steps).clients[c].snapshot.Some?
    requires !Owed(Run(steps), Run(steps).clients[c].key)
    ensures var w := Run(steps);
            w.clients[c].key in w.store && w.clients[c].Shown() == Some(w.store[w.clients[c].key])
  {
    RunsKeepInv(steps);
    var w := Run(steps);
    assert ClientOk(w, w.clients[c]);
    if |w.clients[c].frames| > 0 {
      assert KeyOk(w, w.clients[c].key);
    }
  }

  // ----- delivering and joining do their work -----

  // An undisturbed delivery of one event.
  function Delivery<K, V>(p: ProcessorId, id: EventId): seq<Step<K, V>> {
    [ClaimBatch(p, {id}), Read(p, id), Publish(p, true), Commit(p)]
  }

  ghost predicate CaughtUp<K(!new), V>(w: World<K, V>, after: World<K, V>, id: EventId) {
    id in w.events && w.events[id] in w.store &&
    var k := w.events[id];
    after.store == w.store && after.last == w.last[k := w.store[k]] && after.pending == w.pending - {id} &&
    forall c :: c in w.clients && w.clients[c].key == k ==>
      c in after.clients && after.clients[c].key == k && after.clients[c].Shown() == Some(w.store[k])
  }

  lemma ClaimAndRead<K(!new), V>(w: World<K, V>, p: ProcessorId, id: EventId)
    requires TurnsOk(w) && p !in w.turns && id in w.pending - Claimed(w.turns)
    ensures id in w.events && w.events[id] in w.store
    ensures Apply(Apply(w, ClaimBatch(p, {id})), Read(p, id)) ==
            w.(turns := w.turns[p := Turn({id}, {}, Some(Reading(id, w.store[w.events[id]])))])
  {
    var claimed := Apply(w, ClaimBatch(p, {id}));
    assert claimed == w.(turns := w.turns[p := Turn({id}, {}, None)]);
    var read := Turn({id}, {}, Some(Reading(id, w.store[w.events[id]])));
    assert w.turns[p := Turn({id}, {}, None)][p := read] == w.turns[p := read];
  }

  lemma PublishAndCommit<K(!new), V>(w: World<K, V>, p: ProcessorId, id: EventId)
    requires p in w.turns && id in w.events && w.events[id] in w.store
    requires w.turns[p] == Turn({id}, {}, Some(Reading(id, w.store[w.events[id]])))
    ensures CaughtUp(w, Apply(Apply(w, Publish(p, true)), Commit(p)), id)
  {
    var published := Apply(w, Publish(p, true));
    assert published.turns[p].handled == {id};
  }

  /** A delivery of a pending event leaves its key's stored value broadcast, and its clients showing it. */
  lemma DeliveryCatchesUp<K(!new), V>(steps: seq<Step<K, V>>, p: ProcessorId, id: EventId)
    requires p !in Run(steps).turns && id in Run(steps).pending - Claimed(Run(steps).turns)
    ensures CaughtUp(Run(steps), Run(steps + Delivery(p, id)), id)
  {
    var d: seq<Step<K, V>> := Delivery(p, id);
    var w := Run(steps);
    TurnsOkInEveryRun(steps);
    ClaimAndRead(w, p, id);
    RunThenTwo(steps, d[0], d[1]);
    RunThenTwo(steps + [d[0]] + [d[1]], d[2], d[3]);
    assert steps + d == steps + [d[0]] + [d[1]] + [d[2]] + [d[3]];
    PublishAndCommit(Apply(Apply(w, d[0]), d[1]), p, id);
  }

  /**
   * A failed read or publish leaves its event to be tried again in the same turn, and a crash leaves
   * the whole batch to be claimed by anyone; neither drops an event or changes what is stored.
   */
  lemma FailuresLeaveEventsPending<K(!new), V>(steps: seq<Step<K, V>>, p: ProcessorId, id: EventId)
    requires p in Run(steps).turns && id in Run(steps).turns[p].batch
    ensures var w, given, crashed := Run(steps), Run(steps + [GiveUp(p)]), Run(steps + [Crash(p)]);
            given.pending == w.pending == crashed.pending && given.store == w.store == crashed.store &&
            given.turns == w.turns[p := w.turns[p].(reading := None)] &&
            id in crashed.pending - Claimed(crashed.turns)
  {
    var w := Run(steps);
    RunThen(steps, GiveUp(p));
    RunThen(steps, Crash(p));
    TurnsOkInEveryRun(steps);
    assert TurnOk(w, w.turns[p]);
    forall q | q in w.turns && q != p ensures id !in w.turns[q].batch {
      assert w.turns[p].batch !! w.turns[q].batch;
    }
  }

  /** A client that joins is shown what is stored. */
  lemma JoiningShowsStored<K(!new), V>(steps: seq<Step<K, V>>, c: ClientId, k: K)
    requires c !in Run(steps).clients && k in Run(steps).store
    ensures var after := Run(steps + [Subscribe(c, k)] + [Snapshot(c)]);
            c in after.clients && after.clients[c].Shown() == Some(Run(steps).store[k])
  {
    RunThenTwo(steps, Subscribe(c, k), Snapshot(c));
  }

  // ----- exactly which publishes leave broadcasts current, overlapping or not -----

  lemma OnlyReaderOf<K(!new), V>(w: World<K, V>, p: ProcessorId)
    requires TurnsOk(w) && p in w.turns && w.turns[p].reading.Some?
    ensures w.turns[p].reading.value.event in w.pending - HandledIn(w.turns)
  {
    var id := w.turns[p].reading.value.event;
    assert TurnOk(w, w.turns[p]);
    forall q | q in w.turns ensures id !in w.turns[q].handled {
      assert TurnOk(w, w.turns[q]);
    }
  }

  lemma OwedAfterPublish<K(!new), V>(w: World<K, V>, p: ProcessorId, ok: bool, k: K)
    requires TurnsOk(w) && p in w.turns && w.turns[p].reading.Some? && w.turns[p].reading.value.event in w.events
    ensures Owed(PublishRead(w, p, ok), k) <==> if ok then OwedBeside(w, k, w.turns[p].reading.value.event) else Owed(w, k)
  {
    var after, r := PublishRead(w, p, ok), w.turns[p].reading.value;
    assert w.turns[p].handled <= HandledIn(w.turns);
    HandledWith(w.turns, p, after.turns[p]);
    forall id ensures IsOwed(after, k, id) <==> IsOwed(w, k, id) && (ok ==> id != r.event) {
    }
  }

  /**
   * However handlers overlap, a successful publish leaves its key broadcast as stored or owed if and
   * only if the value read is still the stored one or another event for the key is to be delivered.
   */
  lemma PublishLeavesKeyOkIff<K(!new), V>(w: World<K, V>, p: ProcessorId)
    requires TurnsOk(w) && p in w.turns && w.turns[p].reading.Some? && w.turns[p].reading.value.event in w.events
    ensures var r := w.turns[p].reading.value; var k := w.events[r.event];
            KeyOk(PublishRead(w, p, true), k) <==> k in w.store && (r.value == w.store[k] || OwedBeside(w, k, r.event))
  {
    OwedAfterPublish(w, p, true, w.events[w.turns[p].reading.value.event]);
  }

  ghost predicate AllKeysOk<K(!new), V>(w: World<K, V>) {
    forall k :: k in w.written ==> KeyOk(w, k)
  }

  // A publish that succeeds sends what is still stored, or another event for the key will.
  ghost predicate InTime<K(!new), V>(w: World<K, V>, step: Step<K, V>) {
    step.Publish? && step.ok && step.processor in w.turns && w.turns[step.processor].reading.Some? ==>
      var r := w.turns[step.processor].reading.value;
      r.event in w.events ==>
        w.events[r.event] in w.store &&
        (r.value == w.store[w.events[r.event]] || OwedBeside(w, w.events[r.event], r.event))
  }

  ghost predicate KeysOkAfter<K(!new), V>(w: World<K, V>, step: Step<K, V>) {
    AllKeysOk(Apply(w, step))
  }

  lemma PublishKeysOkIff<K(!new), V>(w: World<K, V>, p: ProcessorId, ok: bool)
    requires TurnsOk(w) && AllKeysOk(w)
    ensures KeysOkAfter(w, Publish(p, ok)) <==> InTime(w, Publish(p, ok))
  {
    if p in w.turns && w.turns[p].reading.Some? && w.turns[p].reading.value.event in w.events {
      var after, r := PublishRead(w, p, ok), w.turns[p].reading.value;
      OnlyReaderOf(w, p);
      assert IsOwed(w, w.events[r.event], r.event) && w.events[r.event] in w.written;
      PublishLeavesKeyOkIff(w, p);
      forall k | k in w.written && (k != w.events[r.event] || !ok) ensures KeyOk(after, k) {
        assert KeyOk(w, k);
        OwedAfterPublish(w, p, ok, k);
      }
    }
  }

  lemma UnbroadcastKeysStayOk<K(!new), V>(w: World<K, V>, after: World<K, V>)
    requires AllKeysOk(w) && StillOwed(w, after)
    ensures AllKeysOk(after)
  {
    forall k | k in after.written ensures KeyOk(after, k) {
      assert KeyOk(w, k);
      OwedStays(w, after, k);
    }
  }

  lemma StoringKeepsKeysOk<K(!new), V>(w: World<K, V>, step: Step<K, V>)
    requires TurnsOk(w) && AllKeysOk(w) && (step.Create? || step.Write?)
    ensures KeysOkAfter(w, step)
  {
    var after := Apply(w, step);
    HandledAreLogged(w);
    if step.Write? && step.event !in w.events {
      assert IsOwed(after, step.key, step.event);
    }
    forall k, x | IsOwed(w, k, x) ensures IsOwed(after, k, x) {
    }
    forall k | k in after.written ensures KeyOk(after, k) {
      assert k in w.written ==> KeyOk(w, k);
    }
  }

  lemma StepKeysOkIff<K(!new), V>(w: World<K, V>, step: Step<K, V>)
    requires TurnsOk(w) && AllKeysOk(w)
    ensures KeysOkAfter(w, step) <==> InTime(w, step)
  {
    if step.Publish? {
      PublishKeysOkIff(w, step.processor, step.ok);
    } else if step.Create? || step.Write? {
      StoringKeepsKeysOk(w, step);
    } else {
      OtherStepsLeaveOwed(w, step);
      UnbroadcastKeysStayOk(w, Apply(w, step));
    }
  }

  // After i steps every written key is broadcast as stored or owed; step i publishes in time.
  ghost predicate KeysOkAt<K(!new), V>(steps: seq<Step<K, V>>, i: nat) {
    i <= |steps| ==> AllKeysOk(Run(steps[..i]))
  }

  ghost predicate InTimeAt<K(!new), V>(steps: seq<Step<K, V>>, i: nat) {
    i < |steps| ==> InTime(Run(steps[..i]), steps[i])
  }

  lemma KeysOkNextIff<K(!new), V>(steps: seq<Step<K, V>>, i: nat)
    requires i < |steps| && KeysOkAt(steps, i)
    ensures KeysOkAt(steps, i + 1) <==> InTimeAt(steps, i)
  {
    assert steps[..i + 1][..i] == steps[..i];
    TurnsOkInEveryRun(steps[..i]);
    StepKeysOkIff(Run(steps[..i]), steps[i]);
  }

  /**
   * In every state of a run each written key was last broadcast as stored, or an event for it is
   * still to be delivered, if and only if every successful publish of the run is in time.
   */
  lemma BroadcastsCurrentThroughoutIff<K(!new), V>(steps: seq<Step<K, V>>)
    ensures (forall i: nat :: i <= |steps| ==> KeysOkAt(steps, i)) <==>
            (forall i: nat :: i < |steps| ==> InTimeAt(steps, i))
  {
    ghost var p, q := (i: nat) => KeysOkAt(steps, i), (i: nat) => InTimeAt(steps, i);
    assert steps[..0] == [];
    forall i: nat | i < |steps| && p(i) ensures p(i + 1) <==> q(i) {
      KeysOkNextIff(steps, i);
    }
    HoldsThroughoutIff(p, q, |steps|);
    assert forall i: nat :: p(i) == KeysOkAt(steps, i) && q(i) == InTimeAt(steps, i);
  }

  // ----- a single processor -----

  predicate OnlyReader<K, V>(steps: seq<Step<K, V>>, p: ProcessorId) {
    forall i :: 0 <= i < |steps| && steps[i].Read? ==> steps[i].processor == p
  }

  predicate Idle<K(==), V>(w: World<K, V>, q: ProcessorId) {
    q in w.turns ==> w.turns[q].reading.None?
  }

  lemma StaysIdle<K(!new), V>(w: World<K, V>, step: Step<K, V>, q: ProcessorId)
    requires Idle(w, q) && (step.Read? ==> step.processor != q)
    ensures Idle(Apply(w, step), q)
  {
  }

  lemma {:induction false} OthersStayIdle<K(!new), V>(steps: seq<Step<K, V>>, p: ProcessorId, q: ProcessorId)
    requires OnlyReader(steps, p) && q != p
    ensures Idle(Run(steps), q)
  {
    if |steps| > 0 {
      var n := |steps| - 1;
      OthersStayIdle(steps[..n], p, q);
      StaysIdle(Run(steps[..n]), steps[n], q);
    }
  }

  lemma AloneIfOthersIdle<K(!new), V>(w: World<K, V>, step: Step<K, V>, p: ProcessorId)
    requires step.Read? ==> step.processor == p
    requires forall q :: q != p ==> Idle(w, q)
    ensures Alone(w, step)
  {
    forall q | q in w.turns && w.turns[q].reading.Some? ensures q == p {
      assert q != p ==> Idle(w, q);
    }
  }

  lemma OnlyReaderIsAlone<K(!new), V>(steps: seq<Step<K, V>>, p: ProcessorId)
    requires OnlyReader(steps, p)
    ensures AllAlone(steps)
  {
    forall i | 0 <= i < |steps| ensures Alone(Run(steps[..i]), steps[i]) {
      forall q | q != p ensures Idle(Run(steps[..i]), q) {
        OthersStayIdle(steps[..i], p, q);
      }
      AloneIfOthersIdle(Run(steps[..i]), steps[i], p);
    }
  }

  /** With one processor delivering, the last broadcast agrees with the store in every state. */
  lemma SingleProcessorKeepsBroadcastsCurrent<K(!new), V>(steps: seq<Step<K, V>>, p: ProcessorId, k: K)
    requires OnlyReader(steps, p) && k in Run(steps).written
    ensures var w := Run(steps);
            k in w.store && (Owed(w, k) || (k in w.last && w.last[k] == w.store[k]))
  {
    OnlyReaderIsAlone(steps, p);
    LastBroadcastIsCurrent(steps, k);
  }

  // ----- two processors -----

  // Processor 0 reads key 0, and before it publishes key 0 is written again ...
  function Overtaken(): seq<Step<nat, nat>> {
    [] + [Write(0, 1, 0)] + [ClaimBatch(0, {0})] + [Read(0, 0)] + [Write(0, 2, 1)]
  }

  // ... and processor 1 delivers the second write first.
  function StaleRun(): seq<Step<nat, nat>> {
    Overtaken() + [ClaimBatch(1, {1})] + [Read(1, 1)] + [Publish(1, true)] + [Commit(1)] + [Publish(0, true)] + [Commit(0)]
  }

  function Reader(id: EventId, value: nat): Turn<nat> {
    Turn({id}, {}, Some(Reading(id, value)))
  }

  // Key 0 holds v; nobody has joined.
  function At(v: nat, events: map<EventId, nat>, pending: set<EventId>, turns: map<ProcessorId, Turn<nat>>,
              last: map<nat, nat>): World<nat, nat> {
    World(map[0 := v], {0}, events, pending, turns, last, map[])
  }

  lemma WriteAgain(v: nat, v': nat, events: map<EventId, nat>, pending: set<EventId>,
                   turns: map<ProcessorId, Turn<nat>>, id: EventId)
    requires id !in events
    ensures Apply(At(v, events, pending, turns, map[]), Write(0, v', id)) ==
            At(v', events[id := 0], pending + {id}, turns, map[])
  {
    assert map[0 := v][0 := v'] == map[0 := v'];
  }

  lemma ClaimThenRead(v: nat, events: map<EventId, nat>, pending: set<EventId>, turns: map<ProcessorId, Turn<nat>>,
                      p: ProcessorId, id: EventId)
    requires p !in turns && id in pending - Claimed(turns) && id in events && events[id] == 0
    ensures var w := At(v, events, pending, turns, map[]);
            Apply(Apply(w, ClaimBatch(p, {id})), Read(p, id)) == At(v, events, pending, turns[p := Reader(id, v)], map[])
  {
    var w := At(v, events, pending, turns, map[]);
    var claimed := Apply(w, ClaimBatch(p, {id}));
    assert claimed == At(v, events, pending, turns[p := Turn({id}, {}, None)], map[]);
    assert turns[p := Turn({id}, {}, None)][p := Reader(id, v)] == turns[p := Reader(id, v)];
  }

  lemma PublishThenCommit(v: nat, events: map<EventId, nat>, pending: set<EventId>, turns: map<ProcessorId, Turn<nat>>,
                          last: map<nat, nat>, p: ProcessorId, id: EventId, read: nat)
    requires p in turns && turns[p] == Reader(id, read) && id in events && events[id] == 0
    ensures var w := At(v, events, pending, turns, last);
            Apply(Apply(w, Publish(p, true)), Commit(p)) ==
            At(v, events, pending - {id}, turns - {p}, last[0 := read])
  {
    var w := At(v, events, pending, turns, last);
    var published := Apply(w, Publish(p, true));
    assert published.turns[p].handled == {id};
    assert Sent<nat, nat>(map[], 0, read) == map[];
    assert published.turns - {p} == turns - {p};
  }

  lemma FirstReadIsOvertaken()
    ensures Run(Overtaken()) == At(2, map[0 := 0][1 := 0], {0} + {1}, map[][0 := Reader(0, 1)], map[])
  {
    var write: seq<Step<nat, nat>> := [] + [Write(0, 1, 0)];
    RunThen<nat, nat>([], Write(0, 1, 0));
    assert Run(write) == At(1, map[0 := 0], {0}, map[], map[]);
    RunThenTwo(write, ClaimBatch(0, {0}), Read(0, 0));
    assert Claimed<nat>(map[]) == {};
    ClaimThenRead(1, map[0 := 0], {0}, map[], 0, 0);
    RunThen(write + [ClaimBatch(0, {0})] + [Read(0, 0)], Write(0, 2, 1));
    WriteAgain(1, 2, map[0 := 0], {0}, map[][0 := Reader(0, 1)], 1);
  }

  lemma SecondWriteIsDelivered()
    ensures Run(Overtaken() + [ClaimBatch(1, {1})] + [Read(1, 1)] + [Publish(1, true)] + [Commit(1)]) ==
            At(2, map[0 := 0][1 := 0], {0} + {1} - {1}, map[][0 := Reader(0, 1)][1 := Reader(1, 2)] - {1}, map[][0 := 2])
  {
    var events, pending: set<EventId> := map[0 := 0][1 := 0], {0} + {1};
    var turns := map[][0 := Reader(0, 1)];
    FirstReadIsOvertaken();
    var read := Overtaken() + [ClaimBatch(1, {1})] + [Read(1, 1)];
    RunThenTwo(Overtaken(), ClaimBatch(1, {1}), Read(1, 1));
    assert Claimed(turns) == {0};
    ClaimThenRead(2, events, pending, turns, 1, 1);
    RunThenTwo(read, Publish(1, true), Commit(1));
    PublishThenCommit(2, events, pending, turns[1 := Reader(1, 2)], map[], 1, 1, 2);
  }

  /**
   * The guard is needed: when two handlers overlap on one key, the slower one can publish what it
   * read before the other's write, and nothing is left pending to correct it.
   */
  lemma OverlappingHandlersCanEndStale()
    ensures var w := Run(StaleRun());
            w.pending == {} && w.turns == map[] && w.last == map[0 := 1] && w.store == map[0 := 2]
  {
    var turns := map[][0 := Reader(0, 1)][1 := Reader(1, 2)] - {1};
    SecondWriteIsDelivered();
    RunThenTwo(Overtaken() + [ClaimBatch(1, {1})] + [Read(1, 1)] + [Publish(1, true)] + [Commit(1)], Publish(0, true), Commit(0));
    PublishThenCommit(2, map[0 := 0][1 := 0], {0} + {1} - {1}, turns, map[][0 := 2], 0, 0, 1);
  }
}
