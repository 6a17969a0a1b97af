/** Live reaction counts over the reaction store: what was last broadcast against the rows held. */
module ReactionFeed {
  import opened Base
  import opened Reactions
  import B = Broadcast

  // A count is kept per message and emoji.
  type Tallied = (MessageId, Emoji)
  type FeedWorld = B.World<Tallied, int>
  type FeedStep = B.Step<Tallied, int>

  datatype Move = OfStore(op: Op) | OfFeed(feed: FeedStep)

  function Ops(moves: seq<Move>): seq<Op> {
    if |moves| == 0 then []
    else
      match moves[|moves| - 1]
      case OfStore(op) => Ops(moves[..|moves| - 1]) + [op]
      case OfFeed(_) => Ops(moves[..|moves| - 1])
  }

  // A logged change is the outbox event of its own place in the log.
  function Caused(before: State, op: Op): Option<FeedStep> {
    var after := Do(before, op);
    if after.log == before.log then None
    else
      var m, e := op.reaction.message, op.reaction.emoji;
      Some(B.Write((m, e), CountFor(after.rows, m, e), |before.log|))
  }

  // A page read before anyone reacted shows no tally, which is a count of zero.
  function Looked(w: FeedWorld, s: FeedStep): seq<FeedStep> {
    if s.Snapshot? && s.client in w.clients && w.clients[s.client].key !in w.store
    then [B.Create(w.clients[s.client].key, 0), s]
    else [s]
  }

  function FeedSteps(moves: seq<Move>): seq<FeedStep> {
    if |moves| == 0 then []
    else
      var front := moves[..|moves| - 1];
      match moves[|moves| - 1]
      case OfStore(op) =>
        (match Caused(Run(Ops(front)), op)
         case Some(s) => FeedSteps(front) + [s]
         case None => FeedSteps(front))
      case OfFeed(s) =>
        if s.Create? || s.Write? then FeedSteps(front) else FeedSteps(front) + Looked(B.Run(FeedSteps(front)), s)
  }

  predicate Logged(log: seq<Change>, k: Tallied) {
    exists i :: 0 <= i < |log| && log[i].reaction.message == k.0 && log[i].reaction.emoji == k.1
  }

  function CountIn(store: map<Tallied, int>, k: Tallied): int {
    if k in store then store[k] else 0
  }

  ghost predicate CountsMatch(rows: seq<Reaction>, store: map<Tallied, int>) {
    forall k: Tallied :: CountIn(store, k) == CountFor(rows, k.0, k.1)
  }

  ghost predicate LogMatches(log: seq<Change>, written: set<Tallied>, events: map<EventId, Tallied>) {
    (forall k: Tallied :: k in written <==> Logged(log, k)) && (forall id :: id in events ==> id < |log|)
  }

  ghost predicate Matches(st: State, w: FeedWorld) {
    CountsMatch(st.rows, w.store) && LogMatches(st.log, w.written, w.events)
  }

  lemma LoggedSnoc(log: seq<Change>, c: Change, k: Tallied)
    ensures Logged(log + [c], k) <==> Logged(log, k) || (c.reaction.message == k.0 && c.reaction.emoji == k.1)
  {
    var after := log + [c];
    if Logged(log, k) {
      var i :| 0 <= i < |log| && log[i].reaction.message == k.0 && log[i].reaction.emoji == k.1;
      assert after[i] == log[i];
    }
    assert after[|log|] == c;
  }

  lemma ChangeMatches(st: State, after: State, c: Change, w: FeedWorld)
    requires Matches(st, w) && after.log == st.log + [c]
    requires forall m, e :: m != c.reaction.message || e != c.reaction.emoji ==>
               CountFor(after.rows, m, e) == CountFor(st.rows, m, e)
    ensures var m, e := c.reaction.message, c.reaction.emoji;
            Matches(after, B.Apply(w, B.Write((m, e), CountFor(after.rows, m, e), |st.log|)))
  {
    forall k: Tallied {
      LoggedSnoc(st.log, c, k);
    }
    assert |st.log| !in w.events;
  }

  lemma OpMatches(ops: seq<Op>, op: Op, w: FeedWorld)
    requires Matches(Run(ops), w)
    ensures Matches(Do(Run(ops), op), B.AfterCaused(w, Caused(Run(ops), op)))
  {
    var st, after := Run(ops), Do(Run(ops), op);
    OneChangePerRealMove(ops, op);
    if Moves(st, op) {
      forall m, e | m != op.reaction.message || e != op.reaction.emoji
        ensures CountFor(after.rows, m, e) == CountFor(st.rows, m, e)
      {
        OnlyOneCountMoves(ops, op, m, e);
      }
      ChangeMatches(st, after, Change(op.reaction, op.Add?), w);
    }
  }

  lemma LookMatches(st: State, w: FeedWorld, k: Tallied)
    requires Matches(st, w) && k !in w.store
    ensures Matches(st, B.Apply(w, B.Create(k, 0)))
  {
    assert forall j: Tallied :: CountIn(w.store[k := 0], j) == CountIn(w.store, j);
  }

  lemma OpsSnoc(ops: seq<Op>, op: Op)
    ensures Run(ops + [op]) == Do(Run(ops), op)
  {
    assert (ops + [op])[..|ops|] == ops;
  }

  lemma DeliveryMatches(st: State, steps: seq<FeedStep>, s: FeedStep)
    requires Matches(st, B.Run(steps)) && !s.Create? && !s.Write?
    ensures Matches(st, B.Run(steps + Looked(B.Run(steps), s)))
  {
    var w := B.Run(steps);
    if |Looked(w, s)| == 2 {
      var look: FeedStep := B.Create(w.clients[s.client].key, 0);
      assert steps + Looked(w, s) == steps + [look] + [s];
      B.RunThenTwo(steps, look, s);
      LookMatches(st, w, w.clients[s.client].key);
      B.DeliveryLeavesStore(B.Apply(w, look), s);
    } else {
      B.RunThen(steps, s);
      B.DeliveryLeavesStore(w, s);
    }
  }

  /** However calls, processors and subscribers interleave, the feed reads the store's own counts. */
  lemma {:induction false} FeedFollowsStore(moves: seq<Move>)
    ensures Matches(Run(Ops(moves)), B.Run(FeedSteps(moves)))
  {
    if |moves| > 0 {
      var front := moves[..|moves| - 1];
      FeedFollowsStore(front);
      match moves[|moves| - 1]
      case OfStore(op) =>
        OpMatches(Ops(front), op, B.Run(FeedSteps(front)));
        OpsSnoc(Ops(front), op);
        match Caused(Run(Ops(front)), op) {
          case Some(s) => B.RunThen(FeedSteps(front), s);
          case None =>
        }
      case OfFeed(s) =>
        if !s.Create? && !s.Write? {
          DeliveryMatches(Run(Ops(front)), FeedSteps(front), s);
        }
    }
  }

  // The users who hold the pair's emoji on its message.
  function HoldersNow(moves: seq<Move>, k: Tallied): set<UserId> {
    HoldersOf(Run(Ops(moves)).rows, k.0, k.1)
  }

  lemma CountIsHolders(moves: seq<Move>, k: Tallied)
    ensures CountFor(Run(Ops(moves)).rows, k.0, k.1) == |HoldersNow(moves, k)|
  {
    var ops := Ops(moves);
    var rows := RowsOf(Run(ops).rows, k.0);
    LogReplaysToRows(ops);
    FilterKeepsDistinct(Run(ops).rows, OfMessage(k.0));
    forall i | 0 <= i < |rows| ensures rows[i].message == k.0 {
      assert rows[i] in rows;
    }
    RowsAreHolders(rows, k.0, k.1);
    HoldersInMessage(Run(ops).rows, k.0, k.1);
  }

  // A change of the pair is owed, or the count last broadcast is the number of its holders.
  ghost predicate CountCurrent(moves: seq<Move>, k: Tallied) {
    var w := B.Run(FeedSteps(moves));
    B.Owed(w, k) || (k in w.last && w.last[k] == |HoldersNow(moves, k)|)
  }

  /**
   * For every message and emoji ever reacted with, a change is still to be delivered, or the count
   * last broadcast is the number of users who hold that reaction.
   */
  lemma LastCountIsHolders(moves: seq<Move>, k: Tallied)
    requires B.AllAlone(FeedSteps(moves)) && Logged(Run(Ops(moves)).log, k)
    ensures CountCurrent(moves, k)
  {
    FeedFollowsStore(moves);
    B.LastBroadcastIsCurrent(FeedSteps(moves), k);
    CountIsHolders(moves, k);
    assert CountIn(B.Run(FeedSteps(moves)).store, k) == CountFor(Run(Ops(moves)).rows, k.0, k.1);
  }

  // The client was sent its page, and nothing is owed for its message and emoji.
  ghost predicate CaughtUp(w: FeedWorld, c: B.ClientId) {
    c in w.clients && w.clients[c].snapshot.Some? && !B.Owed(w, w.clients[c].key)
  }

  /** A client that joined ends up showing the number of holders, reacted with or not. */
  lemma JoinedClientsShowHolders(moves: seq<Move>, c: B.ClientId)
    requires B.AllAlone(FeedSteps(moves)) && CaughtUp(B.Run(FeedSteps(moves)), c)
    ensures var client := B.Run(FeedSteps(moves)).clients[c];
            client.Shown() == Some(|HoldersNow(moves, client.key)|)
  {
    var w := B.Run(FeedSteps(moves));
    FeedFollowsStore(moves);
    B.JoinedClientsConverge(FeedSteps(moves), c);
    CountIsHolders(moves, w.clients[c].key);
    assert CountIn(w.store, w.clients[c].key) == CountFor(Run(Ops(moves)).rows, w.clients[c].key.0, w.clients[c].key.1);
  }

  // ----- a single processor -----

  /** With one processor delivering, the last count of a pair is its number of holders or a change is owed. */
  lemma SingleProcessorCountIsHolders(moves: seq<Move>, p: B.ProcessorId, k: Tallied)
    requires B.OnlyReader(FeedSteps(moves), p) && Logged(Run(Ops(moves)).log, k)
    ensures CountCurrent(moves, k)
  {
    B.OnlyReaderIsAlone(FeedSteps(moves), p);
    LastCountIsHolders(moves, k);
  }

  /** With one processor delivering, a client that is owed nothing shows the number of holders. */
  lemma SingleProcessorClientsShowHolders(moves: seq<Move>, p: B.ProcessorId, c: B.ClientId)
    requires B.OnlyReader(FeedSteps(moves), p) && CaughtUp(B.Run(FeedSteps(moves)), c)
    ensures var client := B.Run(FeedSteps(moves)).clients[c];
            client.Shown() == Some(|HoldersNow(moves, client.key)|)
  {
    B.OnlyReaderIsAlone(FeedSteps(moves), p);
    JoinedClientsShowHolders(moves, c);
  }

  // ----- deliveries do their work -----

  lemma FeedMoveIsStep(moves: seq<Move>, step: FeedStep)
    requires !step.Create? && !step.Write? && !step.Snapshot?
    ensures FeedSteps(moves + [OfFeed(step)]) == FeedSteps(moves) + [step]
    ensures Ops(moves + [OfFeed(step)]) == Ops(moves)
  {
    assert (moves + [OfFeed(step)])[..|moves|] == moves;
  }

  // The four steps of an undisturbed delivery, as moves.
  function Delivered(moves: seq<Move>, p: B.ProcessorId, id: EventId): seq<Move> {
    moves + [OfFeed(B.ClaimBatch(p, {id}))] + [OfFeed(B.Read(p, id))] + [OfFeed(B.Publish(p, true))] + [OfFeed(B.Commit(p))]
  }

  lemma DeliveredSteps(moves: seq<Move>, p: B.ProcessorId, id: EventId)
    ensures FeedSteps(Delivered(moves, p, id)) == FeedSteps(moves) + B.Delivery(p, id)
    ensures Ops(Delivered(moves, p, id)) == Ops(moves)
  {
    var d := B.Delivery(p, id);
    var one := moves + [OfFeed(d[0])];
    var two := one + [OfFeed(d[1])];
    var three := two + [OfFeed(d[2])];
    FeedMoveIsStep(moves, d[0]);
    FeedMoveIsStep(one, d[1]);
    FeedMoveIsStep(two, d[2]);
    FeedMoveIsStep(three, d[3]);
    assert FeedSteps(moves) + d == FeedSteps(moves) + [d[0]] + [d[1]] + [d[2]] + [d[3]];
  }

  /** Delivering a pending change broadcasts the number of holders, and clients of the pair show it. */
  lemma DeliveryBroadcastsHolders(moves: seq<Move>, p: B.ProcessorId, id: EventId)
    requires var w := B.Run(FeedSteps(moves)); p !in w.turns && id in w.pending - B.Claimed(w.turns)
    ensures var w, after := B.Run(FeedSteps(moves)), B.Run(FeedSteps(Delivered(moves, p, id)));
            id in w.events && ShowsEverywhere(moves, w, after, w.events[id]) && after.pending == w.pending - {id}
  {
    FeedFollowsStore(moves);
    DeliveredSteps(moves, p, id);
    B.DeliveryCatchesUp(FeedSteps(moves), p, id);
    CaughtUpShowsHolders(moves, B.Run(FeedSteps(moves)), B.Run(FeedSteps(moves) + B.Delivery(p, id)), id);
  }

  lemma CaughtUpShowsHolders(moves: seq<Move>, w: FeedWorld, after: FeedWorld, id: EventId)
    requires CountsMatch(Run(Ops(moves)).rows, w.store) && B.CaughtUp(w, after, id)
    ensures ShowsEverywhere(moves, w, after, w.events[id]) && after.pending == w.pending - {id}
  {
    var k := w.events[id];
    CountIsHolders(moves, k);
    assert CountIn(w.store, k) == CountFor(Run(Ops(moves)).rows, k.0, k.1);
  }

  ghost predicate ShowsEverywhere(moves: seq<Move>, w: FeedWorld, after: FeedWorld, k: Tallied) {
    k in after.last && after.last[k] == |HoldersNow(moves, k)| &&
    forall c :: c in w.clients && w.clients[c].key == k ==>
      c in after.clients && after.clients[c].key == k && after.clients[c].Shown() == Some(|HoldersNow(moves, k)|)
  }
}
