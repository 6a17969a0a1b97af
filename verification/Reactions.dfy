/**
 * Chat reactions: rows kept unique per (message, user, emoji), the change log published with
 * them, and the tallies read back (in_memory/chat_message_repository.rs).
 */
module Reactions {
  import opened Base
  import opened Sums

  type Emoji = nat

  datatype Reaction = Reaction(message: MessageId, user: UserId, emoji: Emoji)

  // ChatReactionChanged
  datatype Change = Change(reaction: Reaction, added: bool)

  datatype Tally = Tally(emoji: Emoji, count: nat, reacted: bool)

  datatype State = State(rows: seq<Reaction>, log: seq<Change>)

  function Other(r: Reaction): Reaction -> bool {
    (x: Reaction) => x != r
  }

  function AddTo(st: State, r: Reaction): State {
    if r in st.rows then st else State(st.rows + [r], st.log + [Change(r, true)])
  }

  function RemoveFrom(st: State, r: Reaction): State {
    if r in st.rows then State(Filter(st.rows, Other(r)), st.log + [Change(r, false)]) else st
  }

  // ----- runs -----

  datatype Op = Add(reaction: Reaction) | Remove(reaction: Reaction)

  function Do(st: State, op: Op): State {
    match op
    case Add(r) => AddTo(st, r)
    case Remove(r) => RemoveFrom(st, r)
  }

  function Run(ops: seq<Op>): State {
    if |ops| == 0 then State([], []) else Do(Run(ops[..|ops| - 1]), ops[|ops| - 1])
  }

  // Rebuilding rows from the log alone, trusting every change to have been real.
  function Replay(log: seq<Change>): seq<Reaction> {
    if |log| == 0 then []
    else
      var before, last := Replay(log[..|log| - 1]), log[|log| - 1];
      if last.added then before + [last.reaction] else Filter(before, Other(last.reaction))
  }

  function Concerns(r: Reaction): Change -> bool {
    (c: Change) => c.reaction == r
  }

  function ChangesOf(log: seq<Change>, r: Reaction): seq<Change> {
    Filter(log, Concerns(r))
  }

  predicate Alternates(changes: seq<Change>) {
    forall i :: 0 <= i < |changes| ==> (changes[i].added <==> i % 2 == 0)
  }

  lemma {:induction false} FilterOtherKeepsDistinct(rows: seq<Reaction>, r: Reaction)
    requires Distinct(rows)
    ensures Distinct(Filter(rows, Other(r)))
  {
    if |rows| > 0 {
      var n := |rows| - 1;
      FilterOtherKeepsDistinct(rows[..n], r);
      var kept := Filter(rows[..n], Other(r));
      forall i | 0 <= i < |kept| ensures kept[i] != rows[n] {
        assert kept[i] in rows[..n];
      }
    }
  }

  /** Rows stay unique, and the log alone rebuilds them, order included. */
  lemma {:induction false} LogReplaysToRows(ops: seq<Op>)
    ensures Distinct(Run(ops).rows)
    ensures Replay(Run(ops).log) == Run(ops).rows
  {
    if |ops| > 0 {
      var st, op := Run(ops[..|ops| - 1]), ops[|ops| - 1];
      LogReplaysToRows(ops[..|ops| - 1]);
      FilterOtherKeepsDistinct(st.rows, op.reaction);
      assert (st.log + [Change(op.reaction, op.Add?)])[..|st.log|] == st.log;
    }
  }

  // The changes alternate, and the last one says whether the row is there.
  predicate Tells(changes: seq<Change>, present: bool) {
    Alternates(changes) && (present <==> |changes| % 2 == 1)
  }

  predicate InStep(st: State, r: Reaction) {
    Tells(ChangesOf(st.log, r), r in st.rows)
  }

  predicate Moves(st: State, op: Op) {
    (op.reaction in st.rows) != op.Add?
  }

  lemma LogStep(st: State, op: Op, r: Reaction)
    ensures ChangesOf(Do(st, op).log, r) ==
            ChangesOf(st.log, r) + (if Moves(st, op) && op.reaction == r then [Change(r, op.Add?)] else [])
  {
    FilterSnoc(st.log, Change(op.reaction, op.Add?), Concerns(r));
  }

  lemma RowStep(st: State, op: Op, r: Reaction)
    ensures r in Do(st, op).rows <==> if r == op.reaction then op.Add? else r in st.rows
  {
    assert r in Filter(st.rows, Other(op.reaction)) <==> r in st.rows && r != op.reaction;
  }

  lemma TellsSnoc(changes: seq<Change>, present: bool, c: Change)
    requires Tells(changes, present) && c.added == !present
    ensures Tells(changes + [c], c.added)
  {
    assert forall i :: 0 <= i < |changes| ==> (changes + [c])[i] == changes[i];
  }

  lemma StepAlternates(st: State, op: Op, r: Reaction)
    requires InStep(st, r)
    ensures InStep(Do(st, op), r)
  {
    var changes := ChangesOf(st.log, r);
    LogStep(st, op, r);
    RowStep(st, op, r);
    if Moves(st, op) && op.reaction == r {
      TellsSnoc(changes, r in st.rows, Change(r, op.Add?));
    } else {
      assert changes + [] == changes;
    }
  }

  /**
   * For each reaction the log alternates added, removed, starting with added; the row is there
   * exactly when the last change added it.
   */
  lemma {:induction false} ChangesAlternate(ops: seq<Op>, r: Reaction)
    ensures Alternates(ChangesOf(Run(ops).log, r))
    ensures r in Run(ops).rows <==> |ChangesOf(Run(ops).log, r)| % 2 == 1
  {
    if |ops| > 0 {
      ChangesAlternate(ops[..|ops| - 1], r);
      StepAlternates(Run(ops[..|ops| - 1]), ops[|ops| - 1], r);
    }
  }

  /** A call that changes nothing logs nothing; a call that does logs exactly that change. */
  lemma OneChangePerRealMove(ops: seq<Op>, op: Op)
    ensures var st, after := Run(ops), Do(Run(ops), op);
            after.log == st.log + (if Moves(st, op) then [Change(op.reaction, op.Add?)] else []) &&
            (forall r :: r in after.rows <==> if r == op.reaction then op.Add? else r in st.rows)
  {
    assert forall r :: r in Filter(Run(ops).rows, Other(op.reaction)) <==> r in Run(ops).rows && r != op.reaction;
  }

  // ----- tallies -----

  function OfMessage(m: MessageId): Reaction -> bool {
    (r: Reaction) => r.message == m
  }

  function RowsOf(rows: seq<Reaction>, m: MessageId): seq<Reaction> {
    Filter(rows, OfMessage(m))
  }

  function IndexOf(tallies: seq<Tally>, e: Emoji): (k: nat)
    ensures k <= |tallies|
    ensures forall i :: 0 <= i < k ==> tallies[i].emoji != e
    ensures k < |tallies| ==> tallies[k].emoji == e
  {
    if |tallies| == 0 || tallies[0].emoji == e then 0 else 1 + IndexOf(tallies[1..], e)
  }

  function Bump(tallies: seq<Tally>, r: Reaction, viewer: UserId): seq<Tally> {
    var k := IndexOf(tallies, r.emoji);
    if k < |tallies|
    then tallies[k := Tally(r.emoji, tallies[k].count + 1, tallies[k].reacted || r.user == viewer)]
    else tallies + [Tally(r.emoji, 1, r.user == viewer)]
  }

  function Tallies(rows: seq<Reaction>, viewer: UserId): seq<Tally> {
    if |rows| == 0 then [] else Bump(Tallies(rows[..|rows| - 1], viewer), rows[|rows| - 1], viewer)
  }

  // Emojis in the order of their first row.
  function FirstSeen(rows: seq<Reaction>): seq<Emoji> {
    if |rows| == 0 then []
    else
      var seen, e := FirstSeen(rows[..|rows| - 1]), rows[|rows| - 1].emoji;
      if e in seen then seen else seen + [e]
  }

  function WithEmoji(e: Emoji): Reaction -> int {
    (r: Reaction) => if r.emoji == e then 1 else 0
  }

  function CountOf(): Tally -> int {
    (t: Tally) => t.count
  }

  function Holders(rows: seq<Reaction>, e: Emoji): set<UserId> {
    set r | r in rows && r.emoji == e :: r.user
  }

  lemma {:induction false} FirstSeenIsDistinct(rows: seq<Reaction>)
    ensures Distinct(FirstSeen(rows))
    ensures forall e :: e in FirstSeen(rows) <==> exists i :: 0 <= i < |rows| && rows[i].emoji == e
  {
    if |rows| > 0 {
      var n := |rows| - 1;
      FirstSeenIsDistinct(rows[..n]);
      forall e ensures e in FirstSeen(rows) <==> exists i :: 0 <= i < |rows| && rows[i].emoji == e {
        if e in FirstSeen(rows[..n]) {
          var i :| 0 <= i < n && rows[..n][i].emoji == e;
          assert rows[i].emoji == e;
        }
        if exists i :: 0 <= i < |rows| && rows[i].emoji == e {
          var i :| 0 <= i < |rows| && rows[i].emoji == e;
          if i < n {
            assert rows[..n][i].emoji == e;
          }
        }
      }
    }
  }

  // One entry per emoji in order of first row; counts are row counts and add up to all rows.
  predicate Counts(ts: seq<Tally>, rows: seq<Reaction>) {
    |ts| == |FirstSeen(rows)| && SumBy(ts, CountOf()) == |rows| &&
    forall i :: 0 <= i < |ts| ==>
      ts[i].emoji == FirstSeen(rows)[i] && ts[i].count == SumBy(rows, WithEmoji(ts[i].emoji))
  }

  lemma FirstSeenSnoc(rows: seq<Reaction>, r: Reaction)
    ensures FirstSeen(rows + [r]) ==
            if r.emoji in FirstSeen(rows) then FirstSeen(rows) else FirstSeen(rows) + [r.emoji]
  {
    assert (rows + [r])[..|rows|] == rows;
  }

  lemma BumpCounts(ts: seq<Tally>, rows: seq<Reaction>, r: Reaction, viewer: UserId)
    requires Counts(ts, rows)
    ensures Counts(Bump(ts, r, viewer), rows + [r])
  {
    var k, after := IndexOf(ts, r.emoji), Bump(ts, r, viewer);
    FirstSeenIsDistinct(rows);
    FirstSeenSnoc(rows, r);
    forall e { SumSnoc(rows, r, WithEmoji(e)); }
    if k < |ts| {
      assert FirstSeen(rows)[k] == r.emoji;
      SumUpdate(ts, k, after[k], CountOf());
    } else {
      assert forall i :: 0 <= i < |ts| ==> FirstSeen(rows)[i] != r.emoji;
      NoRowsNoCount(rows, r.emoji);
      SumSnoc(ts, Tally(r.emoji, 1, r.user == viewer), CountOf());
    }
  }

  lemma {:induction false} TalliesCountRows(rows: seq<Reaction>, viewer: UserId)
    ensures Counts(Tallies(rows, viewer), rows)
  {
    if |rows| > 0 {
      var n := |rows| - 1;
      TalliesCountRows(rows[..n], viewer);
      BumpCounts(Tallies(rows[..n], viewer), rows[..n], rows[n], viewer);
      assert rows == rows[..n] + [rows[n]];
    }
  }

  lemma NoRowsNoCount(rows: seq<Reaction>, e: Emoji)
    requires e !in FirstSeen(rows)
    ensures SumBy(rows, WithEmoji(e)) == 0
  {
    FirstSeenIsDistinct(rows);
    SumZero(rows, WithEmoji(e));
  }

  predicate Flags(ts: seq<Tally>, rows: seq<Reaction>, viewer: UserId) {
    forall i :: 0 <= i < |ts| ==> (ts[i].reacted <==> viewer in Holders(rows, ts[i].emoji))
  }

  lemma BumpFlags(ts: seq<Tally>, rows: seq<Reaction>, r: Reaction, viewer: UserId)
    requires Counts(ts, rows) && Flags(ts, rows, viewer)
    ensures Flags(Bump(ts, r, viewer), rows + [r], viewer)
  {
    var k, after := IndexOf(ts, r.emoji), Bump(ts, r, viewer);
    FirstSeenIsDistinct(rows);
    forall i | 0 <= i < |after| ensures after[i].reacted <==> viewer in Holders(rows + [r], after[i].emoji) {
      HoldersSnoc(rows + [r], after[i].emoji);
      assert (rows + [r])[..|rows|] == rows;
      if i == |ts| {
        assert forall j :: 0 <= j < |ts| ==> FirstSeen(rows)[j] != r.emoji;
        NoHolders(rows, r.emoji);
      } else if i != k {
        assert k < |ts| ==> FirstSeen(rows)[i] != FirstSeen(rows)[k];
      }
    }
  }

  lemma {:induction false} TalliesFlagViewer(rows: seq<Reaction>, viewer: UserId)
    ensures Flags(Tallies(rows, viewer), rows, viewer)
  {
    if |rows| > 0 {
      var n := |rows| - 1;
      TalliesFlagViewer(rows[..n], viewer);
      TalliesCountRows(rows[..n], viewer);
      BumpFlags(Tallies(rows[..n], viewer), rows[..n], rows[n], viewer);
      assert rows == rows[..n] + [rows[n]];
    }
  }

  lemma HoldersSnoc(rows: seq<Reaction>, e: Emoji)
    requires |rows| > 0
    ensures var r := rows[|rows| - 1];
            Holders(rows, e) == Holders(rows[..|rows| - 1], e) + (if r.emoji == e then {r.user} else {})
  {
    var n := |rows| - 1;
    assert rows == rows[..n] + [rows[n]];
    forall u | u in Holders(rows[..n], e) ensures u in Holders(rows, e) {
      var r :| r in rows[..n] && r.emoji == e && r.user == u;
      assert r in rows;
    }
    assert rows[n] in rows;
  }

  lemma NoHolders(rows: seq<Reaction>, e: Emoji)
    requires e !in FirstSeen(rows)
    ensures Holders(rows, e) == {}
  {
    FirstSeenIsDistinct(rows);
  }

  // Within one message a user holds an emoji at most once, so rows are holders.
  lemma {:induction false} RowsAreHolders(rows: seq<Reaction>, m: MessageId, e: Emoji)
    requires Distinct(rows) && forall i :: 0 <= i < |rows| ==> rows[i].message == m
    ensures SumBy(rows, WithEmoji(e)) == |Holders(rows, e)|
  {
    if |rows| > 0 {
      var n := |rows| - 1;
      RowsAreHolders(rows[..n], m, e);
      HoldersSnoc(rows, e);
      assert forall r :: r in rows[..n] ==> r != rows[n] && r.message == m;
    }
  }

  lemma {:induction false} FilterKeepsDistinct(rows: seq<Reaction>, keep: Reaction -> bool)
    requires Distinct(rows)
    ensures Distinct(Filter(rows, keep))
  {
    if |rows| > 0 {
      var n := |rows| - 1;
      FilterKeepsDistinct(rows[..n], keep);
      var kept := Filter(rows[..n], keep);
      forall i | 0 <= i < |kept| ensures kept[i] != rows[n] {
        assert kept[i] in rows[..n];
      }
    }
  }

  // The users whose reaction e to message m is stored.
  function HoldersOf(rows: seq<Reaction>, m: MessageId, e: Emoji): set<UserId> {
    set r | r in rows && r.message == m && r.emoji == e :: r.user
  }

  lemma HoldersInMessage(rows: seq<Reaction>, m: MessageId, e: Emoji)
    ensures Holders(RowsOf(rows, m), e) == HoldersOf(rows, m, e)
  {
    forall u ensures u in Holders(RowsOf(rows, m), e) <==> u in HoldersOf(rows, m, e) {
      if u in HoldersOf(rows, m, e) {
        var r :| r in rows && r.message == m && r.emoji == e && r.user == u;
        assert r in RowsOf(rows, m);
      }
    }
  }

  // The first row of message m with emoji e comes before every one with emoji f.
  predicate Precedes(rows: seq<Reaction>, m: MessageId, e: Emoji, f: Emoji) {
    exists a :: 0 <= a < |rows| && rows[a].message == m && rows[a].emoji == e && NoneUpTo(rows, a, m, f)
  }

  predicate NoneUpTo(rows: seq<Reaction>, a: int, m: MessageId, f: Emoji) {
    forall b :: 0 <= b < |rows| && b <= a ==> rows[b].message != m || rows[b].emoji != f
  }

  lemma PrecedesSnoc(rows: seq<Reaction>, r: Reaction, m: MessageId, e: Emoji, f: Emoji)
    requires Precedes(rows, m, e, f)
    ensures Precedes(rows + [r], m, e, f)
  {
    var a :| 0 <= a < |rows| && rows[a].message == m && rows[a].emoji == e && NoneUpTo(rows, a, m, f);
    assert (rows + [r])[a] == rows[a] && NoneUpTo(rows + [r], a, m, f);
  }

  lemma NewEmojiComesLast(rows: seq<Reaction>, r: Reaction, e: Emoji)
    requires e in FirstSeen(RowsOf(rows, r.message)) && r.emoji !in FirstSeen(RowsOf(rows, r.message))
    ensures Precedes(rows + [r], r.message, e, r.emoji)
  {
    var mine, m := RowsOf(rows, r.message), r.message;
    FirstSeenIsDistinct(mine);
    var i :| 0 <= i < |mine| && mine[i].emoji == e;
    assert mine[i] in mine;
    var a :| 0 <= a < |rows| && rows[a] == mine[i];
    forall b | 0 <= b < |rows| ensures rows[b].message != m || rows[b].emoji != r.emoji {
      if rows[b].message == m {
        assert rows[b] in mine;
        var j :| 0 <= j < |mine| && mine[j] == rows[b];
      }
    }
    assert (rows + [r])[a] == rows[a] && NoneUpTo(rows + [r], a, m, r.emoji);
  }

  predicate InOrder(rows: seq<Reaction>, m: MessageId, seen: seq<Emoji>) {
    forall i, j :: 0 <= i < j < |seen| ==> Precedes(rows, m, seen[i], seen[j])
  }

  lemma SeenAfter(rows: seq<Reaction>, r: Reaction, m: MessageId)
    ensures var before := FirstSeen(RowsOf(rows, m));
            FirstSeen(RowsOf(rows + [r], m)) == if r.message == m && r.emoji !in before then before + [r.emoji] else before
  {
    FilterSnoc(rows, r, OfMessage(m));
    if r.message == m {
      FirstSeenSnoc(RowsOf(rows, m), r);
    } else {
      assert RowsOf(rows, m) + [] == RowsOf(rows, m);
    }
  }

  lemma OrderSnoc(rows: seq<Reaction>, r: Reaction, m: MessageId)
    requires InOrder(rows, m, FirstSeen(RowsOf(rows, m)))
    ensures InOrder(rows + [r], m, FirstSeen(RowsOf(rows + [r], m)))
  {
    var before, after := FirstSeen(RowsOf(rows, m)), FirstSeen(RowsOf(rows + [r], m));
    SeenAfter(rows, r, m);
    forall i, j | 0 <= i < j < |after| ensures Precedes(rows + [r], m, after[i], after[j]) {
      if j < |before| {
        PrecedesSnoc(rows, r, m, before[i], before[j]);
      } else {
        NewEmojiComesLast(rows, r, after[i]);
      }
    }
  }

  lemma {:induction false} EmojisInOrder(rows: seq<Reaction>, m: MessageId)
    ensures InOrder(rows, m, FirstSeen(RowsOf(rows, m)))
  {
    if |rows| > 0 {
      var front, r := rows[..|rows| - 1], rows[|rows| - 1];
      EmojisInOrder(front, m);
      OrderSnoc(front, r, m);
      assert rows == front + [r];
    }
  }

  lemma TalliedIffHeld(rows: seq<Reaction>, m: MessageId, e: Emoji)
    ensures e in FirstSeen(RowsOf(rows, m)) <==> HoldersOf(rows, m, e) != {}
  {
    var mine := RowsOf(rows, m);
    FirstSeenIsDistinct(mine);
    if e in FirstSeen(mine) {
      var i :| 0 <= i < |mine| && mine[i].emoji == e;
      assert mine[i] in mine;
      assert mine[i].user in HoldersOf(rows, m, e);
    }
    if HoldersOf(rows, m, e) != {} {
      var u :| u in HoldersOf(rows, m, e);
      var r :| r in rows && r.message == m && r.emoji == e && r.user == u;
      assert r in mine;
      var i :| 0 <= i < |mine| && mine[i] == r;
    }
  }

  // One tally for each emoji someone holds on the message, in order of first row.
  predicate TalliesOf(ts: seq<Tally>, rows: seq<Reaction>, m: MessageId, viewer: UserId) {
    (forall i :: 0 <= i < |ts| ==>
      ts[i].count == |HoldersOf(rows, m, ts[i].emoji)| && ts[i].count > 0 &&
      (ts[i].reacted <==> viewer in HoldersOf(rows, m, ts[i].emoji))) &&
    (forall i, j :: 0 <= i < j < |ts| ==> ts[i].emoji != ts[j].emoji && Precedes(rows, m, ts[i].emoji, ts[j].emoji)) &&
    (forall r :: r in rows && r.message == m ==> exists i :: 0 <= i < |ts| && ts[i].emoji == r.emoji)
  }

  /**
   * In every reachable state the tallies of a message list each emoji held on it once, in order of
   * its first surviving row, with the number of users holding it and whether the viewer is one;
   * together they account for every row of the message.
   */
  lemma TalliesInEveryRun(ops: seq<Op>, m: MessageId, viewer: UserId)
    ensures var ts := Tallies(RowsOf(Run(ops).rows, m), viewer);
            TalliesOf(ts, Run(ops).rows, m, viewer) && SumBy(ts, CountOf()) == |RowsOf(Run(ops).rows, m)|
  {
    var all, rows := Run(ops).rows, RowsOf(Run(ops).rows, m);
    var ts := Tallies(rows, viewer);
    LogReplaysToRows(ops);
    FilterKeepsDistinct(all, OfMessage(m));
    forall i | 0 <= i < |rows| ensures rows[i].message == m {
      assert rows[i] in rows;
    }
    TalliesCountRows(rows, viewer);
    TalliesFlagViewer(rows, viewer);
    EmojisInOrder(all, m);
    FirstSeenIsDistinct(rows);
    forall i | 0 <= i < |ts|
      ensures ts[i].count == |HoldersOf(all, m, ts[i].emoji)| && ts[i].count > 0 &&
              (ts[i].reacted <==> viewer in HoldersOf(all, m, ts[i].emoji))
    {
      TallyIsHolders(all, rows, ts, i, m, viewer);
    }
    forall r | r in all && r.message == m ensures exists i :: 0 <= i < |ts| && ts[i].emoji == r.emoji {
      assert r.user in HoldersOf(all, m, r.emoji);
      TalliedIffHeld(all, m, r.emoji);
      var i :| 0 <= i < |FirstSeen(rows)| && FirstSeen(rows)[i] == r.emoji;
      assert ts[i].emoji == r.emoji;
    }
  }

  lemma TallyIsHolders(all: seq<Reaction>, rows: seq<Reaction>, ts: seq<Tally>, i: nat, m: MessageId, viewer: UserId)
    requires rows == RowsOf(all, m) && Distinct(rows) && forall k :: 0 <= k < |rows| ==> rows[k].message == m
    requires Counts(ts, rows) && Flags(ts, rows, viewer) && i < |ts|
    ensures ts[i].count == |HoldersOf(all, m, ts[i].emoji)| && ts[i].count > 0
    ensures ts[i].reacted <==> viewer in HoldersOf(all, m, ts[i].emoji)
  {
    var e := ts[i].emoji;
    RowsAreHolders(rows, m, e);
    HoldersInMessage(all, m, e);
    TalliedIffHeld(all, m, e);
  }

  // ----- the store -----

  predicate IsGrouping(grouped: map<MessageId, seq<Tally>>, rows: seq<Reaction>, ids: seq<MessageId>, viewer: UserId) {
    (forall m :: m in grouped ==> m in ids && RowsOf(rows, m) != [] && grouped[m] == Tallies(RowsOf(rows, m), viewer)) &&
    (forall m :: m in ids && RowsOf(rows, m) != [] ==> m in grouped)
  }

  class ReactionStore {
    var rows: seq<Reaction>
    var log: seq<Change>

    function Contents(): State
      reads this
    {
      State(rows, log)
    }

    constructor ()
      ensures Contents() == State([], [])
    {
      rows, log := [], [];
    }

    method AddReaction(r: Reaction) returns (changed: bool)
      modifies this
      ensures Contents() == AddTo(old(Contents()), r)
      ensures changed == (r !in old(rows)) && r in rows
    {
      if r in rows {
        return false;
      }
      rows := rows + [r];
      log := log + [Change(r, true)];
      return true;
    }

    method RemoveReaction(r: Reaction) returns (removed: bool)
      modifies this
      ensures Contents() == RemoveFrom(old(Contents()), r)
      ensures removed == (r in old(rows)) && r !in rows
    {
      var before := |rows|;
      RetainsOthers(rows, r);
      rows := Filter(rows, Other(r));
      removed := |rows| < before;
      if removed {
        log := log + [Change(r, false)];
      }
    }

    // The inner loop: find this emoji's tally and bump it, or start one.
    method TallyUp(tallies: seq<Tally>, r: Reaction, viewer: UserId) returns (bumped: seq<Tally>)
      ensures bumped == Bump(tallies, r, viewer)
    {
      var k := 0;
      while k < |tallies| && tallies[k].emoji != r.emoji
        invariant 0 <= k <= IndexOf(tallies, r.emoji)
      {
        k := k + 1;
      }
      if k < |tallies| {
        return tallies[k := Tally(r.emoji, tallies[k].count + 1, tallies[k].reacted || r.user == viewer)];
      }
      return tallies + [Tally(r.emoji, 1, r.user == viewer)];
    }

    method ReactionsFor(ids: seq<MessageId>, viewer: UserId) returns (grouped: map<MessageId, seq<Tally>>)
      ensures IsGrouping(grouped, rows, ids, viewer)
    {
      grouped := map[];
      for i := 0 to |rows|
        invariant IsGrouping(grouped, rows[..i], ids, viewer)
      {
        var r := rows[i];
        ghost var before := grouped;
        if r.message in ids {
          var tallies := if r.message in grouped then grouped[r.message] else [];
          tallies := TallyUp(tallies, r, viewer);
          grouped := grouped[r.message := tallies];
        }
        GroupingSnoc(before, rows, i, ids, viewer);
      }
      assert rows[..|rows|] == rows;
    }
  }

  lemma {:induction false} RetainsOthers(rows: seq<Reaction>, r: Reaction)
    ensures r in rows <==> |Filter(rows, Other(r))| < |rows|
    ensures r !in rows ==> Filter(rows, Other(r)) == rows
  {
    if |rows| > 0 {
      RetainsOthers(rows[..|rows| - 1], r);
      assert rows == rows[..|rows| - 1] + [rows[|rows| - 1]];
    }
  }

  function Group(before: map<MessageId, seq<Tally>>, r: Reaction, ids: seq<MessageId>, viewer: UserId)
    : map<MessageId, seq<Tally>>
  {
    if r.message !in ids then before
    else before[r.message := Bump(if r.message in before then before[r.message] else [], r, viewer)]
  }

  // Row i adds to its own message's rows and to no other's.
  lemma RowsOfSnoc(rows: seq<Reaction>, i: nat, m: MessageId)
    requires i < |rows|
    ensures RowsOf(rows[..i + 1], m) == if rows[i].message == m then RowsOf(rows[..i], m) + [rows[i]] else RowsOf(rows[..i], m)
  {
    FilterPrefix(rows, i, OfMessage(m));
    assert RowsOf(rows[..i], m) + [] == RowsOf(rows[..i], m);
  }

  lemma GroupingSnoc(before: map<MessageId, seq<Tally>>, rows: seq<Reaction>, i: nat, ids: seq<MessageId>, viewer: UserId)
    requires i < |rows| && IsGrouping(before, rows[..i], ids, viewer)
    ensures IsGrouping(Group(before, rows[i], ids, viewer), rows[..i + 1], ids, viewer)
  {
    var r := rows[i];
    forall m ensures RowsOf(rows[..i + 1], m) == if r.message == m then RowsOf(rows[..i], m) + [r] else RowsOf(rows[..i], m) {
      RowsOfSnoc(rows, i, m);
    }
    TalliesSnoc(RowsOf(rows[..i], r.message), r, viewer);
    GroupStep(before, Group(before, r, ids, viewer), rows[..i], rows[..i + 1], r, ids, viewer);
  }

  lemma GroupStep(before: map<MessageId, seq<Tally>>, after: map<MessageId, seq<Tally>>, rows: seq<Reaction>, more: seq<Reaction>,
                  r: Reaction, ids: seq<MessageId>, viewer: UserId)
    requires IsGrouping(before, rows, ids, viewer) && after == Group(before, r, ids, viewer)
    requires RowsOf(more, r.message) == RowsOf(rows, r.message) + [r]
    requires forall m :: m != r.message ==> RowsOf(more, m) == RowsOf(rows, m)
    requires Tallies(RowsOf(more, r.message), viewer) == Bump(Tallies(RowsOf(rows, r.message), viewer), r, viewer)
    ensures IsGrouping(after, more, ids, viewer)
  {
    assert r.message in ids && r.message !in before ==> Tallies(RowsOf(rows, r.message), viewer) == [];
  }

  lemma TalliesSnoc(rows: seq<Reaction>, r: Reaction, viewer: UserId)
    ensures Tallies(rows + [r], viewer) == Bump(Tallies(rows, viewer), r, viewer)
  {
    assert (rows + [r])[..|rows|] == rows;
  }

  // ----- one change moves one count -----

  function CountFor(rows: seq<Reaction>, m: MessageId, e: Emoji): int {
    SumBy(RowsOf(rows, m), WithEmoji(e))
  }

  function Hit(r: Reaction, m: MessageId, e: Emoji): int {
    if r.message == m && r.emoji == e then 1 else 0
  }

  lemma CountSnoc(rows: seq<Reaction>, r: Reaction, m: MessageId, e: Emoji)
    ensures CountFor(rows + [r], m, e) == CountFor(rows, m, e) + Hit(r, m, e)
  {
    FilterSnoc(rows, r, OfMessage(m));
    if r.message == m {
      SumSnoc(RowsOf(rows, m), r, WithEmoji(e));
    } else {
      assert RowsOf(rows, m) + [] == RowsOf(rows, m);
    }
  }

  lemma {:induction false} CountWithout(rows: seq<Reaction>, r: Reaction, m: MessageId, e: Emoji)
    requires Distinct(rows)
    ensures CountFor(Filter(rows, Other(r)), m, e) == CountFor(rows, m, e) - (if r in rows then Hit(r, m, e) else 0)
  {
    if |rows| > 0 {
      var n := |rows| - 1;
      var front, x := rows[..n], rows[n];
      assert rows == front + [x];
      CountWithout(front, r, m, e);
      CountSnoc(front, x, m, e);
      FilterSnoc(front, x, Other(r));
      if x != r {
        CountSnoc(Filter(front, Other(r)), x, m, e);
      } else {
        assert forall i :: 0 <= i < n ==> front[i] != x;
        assert Filter(front, Other(r)) + [] == Filter(front, Other(r));
      }
    }
  }

  /** Each operation moves the count of its own (message, emoji) only, and logs that pair if it did. */
  lemma OnlyOneCountMoves(ops: seq<Op>, op: Op, m: MessageId, e: Emoji)
    ensures var st, after := Run(ops), Do(Run(ops), op);
            CountFor(after.rows, m, e) == CountFor(st.rows, m, e) +
              (if op.reaction.message != m || op.reaction.emoji != e || after.log == st.log then 0
               else if op.Add? then 1 else -1)
  {
    var st := Run(ops);
    LogReplaysToRows(ops);
    CountWithout(st.rows, op.reaction, m, e);
    CountSnoc(st.rows, op.reaction, m, e);
  }
}
