/**
 * Chat history pages: the sort, split and slice of the in-memory store against the keyset query
 * the Postgres store states, and walks over a room by cursor.
 */
module ChatHistory {
  import opened Base
  import opened Sums

  datatype Channel = Global | MarketRoom(market: MarketId)

  datatype Message = Message(id: MessageId, author: UserId, channel: Channel, createdAt: Time)

  datatype Anchor = Anchor(id: MessageId, createdAt: Time)

  datatype Cursor = Before(anchor: Anchor) | After(anchor: Anchor)

  // ----- the (created_at, id) order -----

  function AnchorOf(m: Message): Anchor {
    Anchor(m.id, m.createdAt)
  }

  predicate Less(a: Anchor, b: Anchor) {
    a.createdAt < b.createdAt || (a.createdAt == b.createdAt && a.id < b.id)
  }

  predicate Older(a: Message, b: Message) {
    Less(AnchorOf(a), AnchorOf(b))
  }

  predicate Chronological(s: seq<Message>) {
    forall i, j :: 0 <= i < j < |s| ==> Older(s[i], s[j])
  }

  // ids are the primary key of the messages table.
  predicate UniqueIds(messages: seq<Message>) {
    forall i, j :: 0 <= i < j < |messages| ==> messages[i].id != messages[j].id
  }

  // ----- the declarative query -----

  predicate Matches(m: Message, channel: Channel, cursor: Option<Cursor>) {
    m.channel == channel &&
    match cursor
    case None => true
    case Some(Before(a)) => Less(AnchorOf(m), a)
    case Some(After(a)) => Less(a, AnchorOf(m))
  }

  function Candidates(messages: seq<Message>, channel: Channel, cursor: Option<Cursor>): set<Message> {
    set m | m in messages && Matches(m, channel, cursor)
  }

  // Scan from the anchor outwards (newest first without one), stop after `limit`, show oldest first.
  ghost predicate IsPage(page: seq<Message>, messages: seq<Message>, channel: Channel, limit: nat, cursor: Option<Cursor>) {
    var all := Candidates(messages, channel, cursor);
    Chronological(page) &&
    (forall m :: m in page ==> m in all) &&
    |page| == Min(limit, |all|) &&
    forall m, p :: m in all && m !in page && p in page ==>
      if cursor.Some? && cursor.value.After? then Older(p, m) else Older(m, p)
  }

  lemma SequenceAsSet(s: seq<Message>)
    requires Chronological(s)
    ensures |set m | m in s| == |s|
  {
    if |s| > 0 {
      var n := |s| - 1;
      SequenceAsSet(s[..n]);
      assert s == s[..n] + [s[n]];
      assert (set m | m in s) == (set m | m in s[..n]) + {s[n]};
      assert s[n] !in s[..n];
    }
  }

  lemma {:induction false} ChronologicalIsUnique(s: seq<Message>, t: seq<Message>)
    requires Chronological(s) && Chronological(t)
    requires forall m :: m in s <==> m in t
    ensures s == t
  {
    assert s == [] || exists m :: m in s by { assert s == [] || s[0] in s; }
    assert t == [] || exists m :: m in t by { assert t == [] || t[0] in t; }
    if s != [] && t != [] {
      var a, b := |s| - 1, |t| - 1;
      assert s[a] in t && t[b] in s;
      assert s[a] == t[b];
      forall m | m in s[..a] ensures m in t[..b] {
        assert m in t && m != t[b];
      }
      forall m | m in t[..b] ensures m in s[..a] {
        assert m in s && m != s[a];
      }
      ChronologicalIsUnique(s[..a], t[..b]);
      assert s == s[..a] + [s[a]] && t == t[..b] + [t[b]];
    }
  }

  lemma SameSizeSets<T>(a: set<T>, b: set<T>)
    requires |a| == |b| && (a - b == {} || b - a == {})
    ensures a == b
  {
    assert |a - b| == |a| - |a * b| && |b - a| == |b| - |a * b|;
    assert a - b == {} && b - a == {};
  }

  // Of two messages held by only one page each, both would have to be the nearer one.
  lemma NoExchange(p: seq<Message>, q: seq<Message>, messages: seq<Message>, channel: Channel,
                   limit: nat, cursor: Option<Cursor>, m: Message, o: Message)
    requires IsPage(p, messages, channel, limit, cursor) && IsPage(q, messages, channel, limit, cursor)
    ensures m in p && m !in q && o in q ==> o in p
  {
  }

  /** The query has one answer. */
  lemma PageIsUnique(p: seq<Message>, q: seq<Message>, messages: seq<Message>, channel: Channel,
                     limit: nat, cursor: Option<Cursor>)
    requires IsPage(p, messages, channel, limit, cursor) && IsPage(q, messages, channel, limit, cursor)
    ensures p == q
  {
    var ps, qs := set m | m in p, set m | m in q;
    SequenceAsSet(p);
    SequenceAsSet(q);
    if ps - qs != {} {
      var m :| m in ps - qs;
      forall o | o in qs ensures o in ps {
        NoExchange(p, q, messages, channel, limit, cursor, m, o);
      }
    }
    SameSizeSets(ps, qs);
    assert forall m :: (m in p <==> m in ps) && (m in q <==> m in qs);
    ChronologicalIsUnique(p, q);
  }

  // ----- the room, in order -----

  // The library sort by key; ids break ties, so stability never shows.
  function Insert(m: Message, s: seq<Message>): seq<Message> {
    if |s| == 0 || Older(m, s[0]) then [m] + s else [s[0]] + Insert(m, s[1..])
  }

  function SortByKey(s: seq<Message>): seq<Message> {
    if |s| == 0 then [] else Insert(s[|s| - 1], SortByKey(s[..|s| - 1]))
  }

  function InRoom(channel: Channel): Message -> bool {
    (m: Message) => m.channel == channel
  }

  function Room(messages: seq<Message>, channel: Channel): seq<Message> {
    SortByKey(Filter(messages, InRoom(channel)))
  }

  lemma {:induction false} InsertKeepsOrder(m: Message, s: seq<Message>)
    requires Chronological(s) && forall x :: x in s ==> x.id != m.id
    ensures Chronological(Insert(m, s))
    ensures forall x :: x in Insert(m, s) <==> x == m || x in s
  {
    if |s| > 0 && !Older(m, s[0]) {
      InsertKeepsOrder(m, s[1..]);
      var rest := Insert(m, s[1..]);
      assert s == [s[0]] + s[1..];
      assert s[0] in s;
      forall x | x in rest ensures Older(s[0], x) {
        if x != m {
          var i :| 0 <= i < |s[1..]| && s[1..][i] == x;
        }
      }
    }
  }

  lemma {:induction false} SortIsChronological(s: seq<Message>)
    requires UniqueIds(s)
    ensures Chronological(SortByKey(s))
    ensures forall x :: x in SortByKey(s) <==> x in s
  {
    if |s| > 0 {
      var n := |s| - 1;
      SortIsChronological(s[..n]);
      assert s == s[..n] + [s[n]];
      forall x | x in SortByKey(s[..n]) ensures x.id != s[n].id {
        var i :| 0 <= i < n && s[..n][i] == x;
      }
      InsertKeepsOrder(s[n], SortByKey(s[..n]));
    }
  }

  lemma {:induction false} FilterKeepsUniqueIds(messages: seq<Message>, keep: Message -> bool)
    requires UniqueIds(messages)
    ensures UniqueIds(Filter(messages, keep))
  {
    if |messages| > 0 {
      var n := |messages| - 1;
      var kept := Filter(messages[..n], keep);
      FilterKeepsUniqueIds(messages[..n], keep);
      forall i | 0 <= i < |kept| ensures kept[i].id != messages[n].id {
        assert kept[i] in messages[..n];
      }
    }
  }

  lemma RoomIsChronological(messages: seq<Message>, channel: Channel)
    requires UniqueIds(messages)
    ensures Chronological(Room(messages, channel))
    ensures forall m :: m in Room(messages, channel) <==> m in messages && m.channel == channel
  {
    FilterKeepsUniqueIds(messages, InRoom(channel));
    SortIsChronological(Filter(messages, InRoom(channel)));
  }

  // ----- split and slice -----

  // How many leading messages lie below the anchor.
  function SplitAt(room: seq<Message>, a: Anchor): (k: nat)
    ensures k <= |room|
    ensures forall i :: 0 <= i < k ==> Less(AnchorOf(room[i]), a)
    ensures k < |room| ==> !Less(AnchorOf(room[k]), a)
  {
    if |room| == 0 || !Less(AnchorOf(room[0]), a) then 0 else 1 + SplitAt(room[1..], a)
  }

  function AfterAt(room: seq<Message>, a: Anchor): (k: nat)
    ensures SplitAt(room, a) <= k <= |room|
  {
    var split := SplitAt(room, a);
    if split < |room| && room[split].id == a.id then split + 1 else split
  }

  function LastOf(s: seq<Message>, limit: nat): seq<Message> {
    s[|s| - Min(limit, |s|)..]
  }

  function FirstOf(s: seq<Message>, limit: nat): seq<Message> {
    s[..Min(limit, |s|)]
  }

  function Page(room: seq<Message>, limit: nat, cursor: Option<Cursor>): seq<Message> {
    match cursor
    case None => LastOf(room, limit)
    case Some(Before(a)) => LastOf(room[..SplitAt(room, a)], limit)
    case Some(After(a)) => FirstOf(room[AfterAt(room, a)..], limit)
  }

  // An After anchor that names a stored message carries that message's timestamp.
  predicate Dated(cursor: Option<Cursor>, messages: seq<Message>) {
    cursor.Some? && cursor.value.After? ==>
      forall m :: m in messages && m.id == cursor.value.anchor.id ==> AnchorOf(m) == cursor.value.anchor
  }

  lemma FirstOfSlice(slice: seq<Message>, limit: nat)
    requires Chronological(slice)
    ensures Chronological(FirstOf(slice, limit)) && forall m :: m in FirstOf(slice, limit) ==> m in slice
    ensures forall m, p :: m in slice && m !in FirstOf(slice, limit) && p in FirstOf(slice, limit) ==> Older(p, m)
  {
    var k := Min(limit, |slice|);
    assert slice == slice[..k] + slice[k..];
  }

  lemma LastOfSlice(slice: seq<Message>, limit: nat)
    requires Chronological(slice)
    ensures Chronological(LastOf(slice, limit)) && forall m :: m in LastOf(slice, limit) ==> m in slice
    ensures forall m, p :: m in slice && m !in LastOf(slice, limit) && p in LastOf(slice, limit) ==> Older(m, p)
  {
    var k := |slice| - Min(limit, |slice|);
    assert slice == slice[..k] + slice[k..];
  }

  lemma SliceIsPage(slice: seq<Message>, messages: seq<Message>, channel: Channel, limit: nat, cursor: Option<Cursor>)
    requires Chronological(slice)
    requires forall m :: m in slice <==> m in messages && Matches(m, channel, cursor)
    ensures cursor.Some? && cursor.value.After? ==> IsPage(FirstOf(slice, limit), messages, channel, limit, cursor)
    ensures !(cursor.Some? && cursor.value.After?) ==> IsPage(LastOf(slice, limit), messages, channel, limit, cursor)
  {
    SequenceAsSet(slice);
    assert Candidates(messages, channel, cursor) == set m | m in slice;
    if cursor.Some? && cursor.value.After? {
      FirstOfSlice(slice, limit);
    } else {
      LastOfSlice(slice, limit);
    }
  }

  lemma SplitIff(room: seq<Message>, a: Anchor, i: nat)
    requires Chronological(room) && i < |room|
    ensures Less(AnchorOf(room[i]), a) <==> i < SplitAt(room, a)
  {
    var k := SplitAt(room, a);
    if k < i {
      assert Older(room[k], room[i]);
    }
  }

  lemma BelowSplit(room: seq<Message>, a: Anchor)
    requires Chronological(room)
    ensures forall m :: m in room[..SplitAt(room, a)] <==> m in room && Less(AnchorOf(m), a)
  {
    var k := SplitAt(room, a);
    forall m | m in room && Less(AnchorOf(m), a) ensures m in room[..k] {
      var i: nat :| i < |room| && room[i] == m;
      SplitIff(room, a, i);
      assert room[..k][i] == m;
    }
  }

  // The message at the split, if it has the anchor's id, is the anchor.
  predicate AnchoredAt(room: seq<Message>, a: Anchor) {
    var k := SplitAt(room, a);
    k < |room| && room[k].id == a.id ==> room[k].createdAt == a.createdAt
  }

  lemma AfterIff(room: seq<Message>, a: Anchor, i: nat)
    requires Chronological(room) && AnchoredAt(room, a) && i < |room|
    ensures Less(a, AnchorOf(room[i])) <==> AfterAt(room, a) <= i
  {
    var k := SplitAt(room, a);
    if k < i {
      assert Older(room[k], room[i]);
    }
  }

  lemma AboveAnchor(room: seq<Message>, a: Anchor)
    requires Chronological(room) && AnchoredAt(room, a)
    ensures forall m :: m in room[AfterAt(room, a)..] <==> m in room && Less(a, AnchorOf(m))
  {
    var k := AfterAt(room, a);
    forall m | m in room ensures m in room[k..] <==> Less(a, AnchorOf(m)) {
      if m in room[k..] {
        var j: nat :| j < |room| - k && room[k..][j] == m;
        AfterIff(room, a, k + j);
      }
      if Less(a, AnchorOf(m)) {
        var i: nat :| i < |room| && room[i] == m;
        AfterIff(room, a, i);
        assert room[k..][i - k] == m;
      }
    }
  }

  /** Sort, split and slice give exactly the page the query asks for. */
  lemma PageAnswersQuery(messages: seq<Message>, channel: Channel, limit: nat, cursor: Option<Cursor>)
    requires UniqueIds(messages) && Dated(cursor, messages)
    ensures IsPage(Page(Room(messages, channel), limit, cursor), messages, channel, limit, cursor)
  {
    var room := Room(messages, channel);
    RoomIsChronological(messages, channel);
    match cursor
    case None => SliceIsPage(room, messages, channel, limit, cursor);
    case Some(Before(a)) =>
      BelowSplit(room, a);
      SliceIsPage(room[..SplitAt(room, a)], messages, channel, limit, cursor);
    case Some(After(a)) =>
      assert forall i :: 0 <= i < |room| ==> room[i] in room;
      AboveAnchor(room, a);
      SliceIsPage(room[AfterAt(room, a)..], messages, channel, limit, cursor);
  }

  /**
   * The forward slice drops a message by id alone. A page with room for a message is the query's
   * unless that message sits at the split under a different timestamp than the anchor's.
   */
  lemma ForwardPageAnswersQueryIff(messages: seq<Message>, channel: Channel, limit: nat, a: Anchor)
    requires UniqueIds(messages)
    ensures var room := Room(messages, channel);
            IsPage(Page(room, limit, Some(After(a))), messages, channel, limit, Some(After(a))) <==>
            limit == 0 || AnchoredAt(room, a)
  {
    var room := Room(messages, channel);
    RoomIsChronological(messages, channel);
    if AnchoredAt(room, a) {
      AboveAnchor(room, a);
      SliceIsPage(room[AfterAt(room, a)..], messages, channel, limit, Some(After(a)));
    } else if limit > 0 {
      MisdatedAnchorSkips(messages, channel, limit, a);
    }
  }

  lemma MisdatedAnchorSkips(messages: seq<Message>, channel: Channel, limit: nat, a: Anchor)
    requires UniqueIds(messages) && limit > 0
    requires !AnchoredAt(Room(messages, channel), a)
    ensures !IsPage(Page(Room(messages, channel), limit, Some(After(a))), messages, channel, limit, Some(After(a)))
  {
    var room := Room(messages, channel);
    var k := SplitAt(room, a);
    var page := Page(room, limit, Some(After(a)));
    RoomIsChronological(messages, channel);
    var skipped := room[k];
    assert skipped in room;
    assert skipped in Candidates(messages, channel, Some(After(a)));
    assert page == FirstOf(room[k + 1..], limit);
    forall i | 0 <= i < |page| ensures Older(skipped, page[i]) {
      assert page[i] == room[k + 1 + i];
    }
    SkippedIsNoPage(page, messages, channel, limit, Some(After(a)), skipped);
  }

  // A page that leaves out a candidate nearer the anchor than all it holds is not the query's.
  lemma SkippedIsNoPage(page: seq<Message>, messages: seq<Message>, channel: Channel, limit: nat,
                        cursor: Option<Cursor>, skipped: Message)
    requires limit > 0 && cursor.Some? && cursor.value.After? && skipped in Candidates(messages, channel, cursor)
    requires forall i :: 0 <= i < |page| ==> Older(skipped, page[i])
    ensures !IsPage(page, messages, channel, limit, cursor)
  {
    if page != [] {
      assert page[0] in page && skipped !in page;
    }
  }

  lemma RoomOfOne(m: Message)
    ensures Room([m], m.channel) == [m]
  {
    RoomIsChronological([m], m.channel);
    ChronologicalIsUnique(Room([m], m.channel), [m]);
  }

  /** A message saved at 5, and an anchor with its id and the time 3: the query's page holds it, the slice does not. */
  lemma MisdatedAnchorLosesMessage()
    ensures var m, cursor := Message(1, 0, Global, 5), Some(After(Anchor(1, 3)));
            Page(Room([m], Global), 10, cursor) == [] && IsPage([m], [m], Global, 10, cursor)
  {
    var m, cursor := Message(1, 0, Global, 5), Some(After(Anchor(1, 3)));
    RoomOfOne(m);
    SliceIsPage([m], [m], Global, 10, cursor);
    assert FirstOf([m], 10) == [m];
  }

  // ----- the store's method -----

  // partition_point: binary search for the first message not below the anchor.
  method PartitionPoint(room: seq<Message>, a: Anchor) returns (k: nat)
    requires Chronological(room)
    ensures k == SplitAt(room, a)
  {
    var low, high := 0, |room|;
    while low < high
      invariant 0 <= low <= high <= |room|
      invariant low <= SplitAt(room, a) <= high
    {
      var mid := low + (high - low) / 2;
      SplitIff(room, a, mid);
      if Less(AnchorOf(room[mid]), a) {
        low := mid + 1;
      } else {
        high := mid;
      }
    }
    return low;
  }

  // The part of the room on the side of the anchor being paged towards.
  predicate IsSide(slice: seq<Message>, room: seq<Message>, cursor: Option<Cursor>) {
    match cursor
    case None => slice == room
    case Some(Before(a)) => slice == room[..SplitAt(room, a)]
    case Some(After(a)) => slice == room[AfterAt(room, a)..]
  }

  lemma PageOfSide(slice: seq<Message>, room: seq<Message>, limit: nat, cursor: Option<Cursor>)
    requires IsSide(slice, room, cursor)
    ensures Page(room, limit, cursor) ==
            if cursor.Some? && cursor.value.After? then FirstOf(slice, limit) else LastOf(slice, limit)
  {
  }

  class MessageStore {
    var messages: seq<Message>
    // ChatMessagePosted events, by the message they name.
    var posted: seq<MessageId>

    constructor ()
      ensures messages == [] && posted == []
    {
      messages, posted := [], [];
    }

    method Save(m: Message)
      modifies this
      ensures messages == old(messages) + [m] && posted == old(posted) + [m.id]
    {
      messages := messages + [m];
      posted := posted + [m.id];
    }

    method Reachable(room: seq<Message>, cursor: Option<Cursor>) returns (slice: seq<Message>)
      requires Chronological(room)
      ensures IsSide(slice, room, cursor)
    {
      slice := room;
      if cursor.Some? {
        var split := PartitionPoint(room, cursor.value.anchor);
        match cursor.value {
          case Before(_) => slice := room[..split];
          case After(anchor) =>
            var anchorPresent := split < |room| && room[split].id == anchor.id;
            slice := room[if anchorPresent then split + 1 else split..];
        }
      }
    }

    method ListRecent(channel: Channel, limit: int, cursor: Option<Cursor>) returns (recent: seq<Message>)
      requires UniqueIds(messages)
      ensures recent == Page(Room(messages, channel), Max(limit, 0), cursor)
      ensures Dated(cursor, messages) ==> IsPage(recent, messages, channel, Max(limit, 0), cursor)
    {
      var take := Max(limit, 0);
      RoomIsChronological(messages, channel);
      if Dated(cursor, messages) {
        PageAnswersQuery(messages, channel, take, cursor);
      }
      var room := SortByKey(Filter(messages, InRoom(channel)));
      recent := Reachable(room, cursor);
      PageOfSide(recent, room, take, cursor);
      if cursor.Some? && cursor.value.After? {
        recent := recent[..Min(take, |recent|)];
      } else {
        var start := if |recent| <= take then 0 else |recent| - take;
        recent := recent[start..];
      }
    }
  }

  // ----- resolving a client's cursor -----

  datatype Window = Window(before: Option<MessageId>, after: Option<MessageId>)

  datatype CursorError = MutuallyExclusive | UnknownMessage

  function FindById(messages: seq<Message>, id: MessageId): (r: Option<Message>)
    ensures r.Some? ==> r.value in messages && r.value.id == id
    ensures r.None? ==> forall m :: m in messages ==> m.id != id
  {
    if |messages| == 0 then None
    else if messages[0].id == id then Some(messages[0])
    else FindById(messages[1..], id)
  }

  function ResolveCursor(messages: seq<Message>, channel: Channel, window: Window): Result<Option<Cursor>, CursorError> {
    if window.before.None? && window.after.None? then Ok(None)
    else if window.before.Some? && window.after.Some? then Err(MutuallyExclusive)
    else
      var id := if window.before.Some? then window.before.value else window.after.value;
      match FindById(messages, id)
      case None => Err(UnknownMessage)
      case Some(m) =>
        if m.channel != channel then Err(UnknownMessage)
        else Ok(Some(if window.before.Some? then Before(AnchorOf(m)) else After(AnchorOf(m))))
  }

  lemma FoundById(messages: seq<Message>, m: Message)
    requires UniqueIds(messages) && m in messages
    ensures FindById(messages, m.id) == Some(m)
  {
    var found := FindById(messages, m.id).value;
    var i: nat, j: nat :| i < |messages| && messages[i] == m && j < |messages| && messages[j] == found;
  }

  predicate NamesNone(messages: seq<Message>, channel: Channel, window: Window) {
    forall m :: m in messages && m.channel == channel ==> window.before != Some(m.id) && window.after != Some(m.id)
  }

  /**
   * What a window resolves to: nothing without ids, an error with both, and otherwise the position of
   * the message of this room with that id, on the side asked for, or an error if there is none.
   */
  lemma ResolveCursorReadsWindow(messages: seq<Message>, channel: Channel, window: Window)
    requires UniqueIds(messages)
    ensures var r := ResolveCursor(messages, channel, window);
            (window == Window(None, None) ==> r == Ok(None)) &&
            (window.before.Some? && window.after.Some? ==> r == Err(MutuallyExclusive)) &&
            (forall m :: m in messages && m.channel == channel && window == Window(Some(m.id), None) ==>
              r == Ok(Some(Before(Anchor(m.id, m.createdAt))))) &&
            (forall m :: m in messages && m.channel == channel && window == Window(None, Some(m.id)) ==>
              r == Ok(Some(After(Anchor(m.id, m.createdAt))))) &&
            (window.before.Some? != window.after.Some? && NamesNone(messages, channel, window) ==> r == Err(UnknownMessage))
  {
    forall m | m in messages && (window.before == Some(m.id) || window.after == Some(m.id))
      ensures FindById(messages, m.id) == Some(m)
    {
      FoundById(messages, m);
    }
  }

  predicate BelowInRoom(p: Message, m: Message, messages: seq<Message>) {
    p in messages && p.channel == m.channel && (p.createdAt < m.createdAt || (p.createdAt == m.createdAt && p.id < m.id))
  }

  /** A page before a message of the room holds only older messages of it, and a page after it only newer ones. */
  lemma WindowPagesLieBeside(messages: seq<Message>, m: Message, limit: nat)
    requires UniqueIds(messages) && m in messages
    ensures var room := Room(messages, m.channel);
            var back := ResolveCursor(messages, m.channel, Window(Some(m.id), None));
            var forth := ResolveCursor(messages, m.channel, Window(None, Some(m.id)));
            back.Ok? && (forall p :: p in Page(room, limit, back.value) ==> BelowInRoom(p, m, messages)) &&
            forth.Ok? && (forall p :: p in Page(room, limit, forth.value) ==> p in messages && BelowInRoom(m, p, messages))
  {
    var room := Room(messages, m.channel);
    ResolveCursorReadsWindow(messages, m.channel, Window(Some(m.id), None));
    ResolveCursorReadsWindow(messages, m.channel, Window(None, Some(m.id)));
    ResolvedCursorPagesFromRoom(messages, m.channel, Window(Some(m.id), None), limit);
    ResolvedCursorPagesFromRoom(messages, m.channel, Window(None, Some(m.id)), limit);
    forall p | p in Page(room, limit, Some(Before(AnchorOf(m)))) ensures BelowInRoom(p, m, messages) {
      assert p in Candidates(messages, m.channel, Some(Before(AnchorOf(m))));
    }
    forall p | p in Page(room, limit, Some(After(AnchorOf(m)))) ensures BelowInRoom(m, p, messages) && p in messages {
      assert p in Candidates(messages, m.channel, Some(After(AnchorOf(m))));
    }
  }

  /** A cursor that resolves is the position of a message of this room, so its page is the query's page. */
  lemma ResolvedCursorPagesFromRoom(messages: seq<Message>, channel: Channel, window: Window, limit: nat)
    requires UniqueIds(messages) && ResolveCursor(messages, channel, window).Ok?
    ensures var cursor := ResolveCursor(messages, channel, window).value;
            IsPage(Page(Room(messages, channel), limit, cursor), messages, channel, limit, cursor) &&
            (cursor.Some? ==> exists m :: m in messages && m.channel == channel && AnchorOf(m) == cursor.value.anchor)
  {
    var cursor := ResolveCursor(messages, channel, window).value;
    if cursor.Some? {
      var id := if window.before.Some? then window.before.value else window.after.value;
      var found := FindById(messages, id).value;
      forall m | m in messages && m.id == id ensures m == found {
        FoundById(messages, m);
      }
      assert AnchorOf(found) == cursor.value.anchor;
    }
    PageAnswersQuery(messages, channel, limit, cursor);
  }

  // ----- walking a room -----

  lemma SplitAtMember(room: seq<Message>, k: nat)
    requires Chronological(room) && k < |room|
    ensures SplitAt(room, AnchorOf(room[k])) == k
    ensures AfterAt(room, AnchorOf(room[k])) == k + 1
  {
    SplitIff(room, AnchorOf(room[k]), k);
    if k > 0 {
      assert Older(room[k - 1], room[k]);
      SplitIff(room, AnchorOf(room[k]), k - 1);
    }
  }

  /** With room to spare on both sides, before ++ [anchor] ++ after is the whole room. */
  lemma PagesAroundAnchorMakeRoom(room: seq<Message>, k: nat, limit: nat)
    requires Chronological(room) && k < |room| && limit >= |room|
    ensures Page(room, limit, Some(Before(AnchorOf(room[k])))) + [room[k]] +
            Page(room, limit, Some(After(AnchorOf(room[k])))) == room
  {
    SplitAtMember(room, k);
  }

  // A client walking back: it holds the end of the room and asks for what lies before its oldest
  // message, while arrivals[i] is saved between its requests.
  function WalkBack(messages: seq<Message>, arrivals: seq<seq<Message>>, channel: Channel, limit: nat,
                    held: seq<Message>): seq<Message>
    requires |held| > 0
    decreases |arrivals|
  {
    var page := Page(Room(messages, channel), limit, Some(Before(AnchorOf(held[0]))));
    if |page| == 0 || |arrivals| == 0 then page + held
    else WalkBack(messages + arrivals[0], arrivals[1..], channel, limit, page + held)
  }

  function AllOf(messages: seq<Message>, arrivals: seq<seq<Message>>): seq<Message>
    decreases |arrivals|
  {
    if |arrivals| == 0 then messages else AllOf(messages + arrivals[0], arrivals[1..])
  }

  // Whatever arrives in this room is newer than m.
  predicate NewerArrivals(arrivals: seq<seq<Message>>, channel: Channel, m: Message) {
    forall i, x :: 0 <= i < |arrivals| && x in arrivals[i] && x.channel == channel ==> Older(m, x)
  }

  /** A page before an anchor does not change when newer messages are saved. */
  lemma BeforePageIgnoresNewer(messages: seq<Message>, more: seq<Message>, channel: Channel, limit: nat, a: Anchor)
    requires UniqueIds(messages + more)
    requires forall x :: x in more && x.channel == channel ==> !Less(AnchorOf(x), a)
    ensures Page(Room(messages + more, channel), limit, Some(Before(a))) ==
            Page(Room(messages, channel), limit, Some(Before(a)))
  {
    var cursor := Some(Before(a));
    assert forall i :: 0 <= i < |messages| ==> (messages + more)[i] == messages[i];
    PageAnswersQuery(messages, channel, limit, cursor);
    PageAnswersQuery(messages + more, channel, limit, cursor);
    assert Candidates(messages + more, channel, cursor) == Candidates(messages, channel, cursor);
    PageIsUnique(Page(Room(messages + more, channel), limit, cursor), Page(Room(messages, channel), limit, cursor),
                 messages, channel, limit, cursor);
  }

  lemma {:induction false} AllOfExtends(messages: seq<Message>, arrivals: seq<seq<Message>>)
    requires UniqueIds(AllOf(messages, arrivals))
    ensures UniqueIds(messages)
    decreases |arrivals|
  {
    if |arrivals| > 0 {
      AllOfExtends(messages + arrivals[0], arrivals[1..]);
      assert forall i :: 0 <= i < |messages| ==> (messages + arrivals[0])[i] == messages[i];
    }
  }

  // The next page while holding room[k..], whatever newer messages have been saved meanwhile.
  lemma NextPageBack(start: seq<Message>, extra: seq<Message>, channel: Channel, limit: nat, k: nat)
    requires UniqueIds(start + extra) && k < |Room(start, channel)|
    requires forall x :: x in extra && x.channel == channel ==> Older(Room(start, channel)[k], x)
    ensures Page(Room(start + extra, channel), limit, Some(Before(AnchorOf(Room(start, channel)[k])))) ==
            Room(start, channel)[k - Min(limit, k)..k]
  {
    var room := Room(start, channel);
    assert forall i :: 0 <= i < |start| ==> (start + extra)[i] == start[i];
    RoomIsChronological(start, channel);
    BeforePageIgnoresNewer(start, extra, channel, limit, AnchorOf(room[k]));
    SplitAtMember(room, k);
  }

  lemma {:induction false} WalkBackFrom(start: seq<Message>, extra: seq<Message>, arrivals: seq<seq<Message>>,
                                        channel: Channel, limit: nat, k: nat)
    requires limit > 0 && UniqueIds(AllOf(start + extra, arrivals))
    requires k < |Room(start, channel)| && k <= |arrivals|
    requires forall x :: x in extra && x.channel == channel ==> Older(Room(start, channel)[k], x)
    requires NewerArrivals(arrivals, channel, Room(start, channel)[k])
    ensures WalkBack(start + extra, arrivals, channel, limit, Room(start, channel)[k..]) == Room(start, channel)
    decreases |arrivals|
  {
    var room := Room(start, channel);
    AllOfExtends(start + extra, arrivals);
    NextPageBack(start, extra, channel, limit, k);
    var k' := k - Min(limit, k);
    if k > 0 {
      assert room[k'..k] + room[k..] == room[k'..];
      assert (start + extra) + arrivals[0] == start + (extra + arrivals[0]);
      StillNewer(start, extra, arrivals, channel, k', k);
      WalkBackFrom(start, extra + arrivals[0], arrivals[1..], channel, limit, k');
    }
  }

  lemma StillNewer(start: seq<Message>, extra: seq<Message>, arrivals: seq<seq<Message>>, channel: Channel,
                   k': nat, k: nat)
    requires UniqueIds(start + extra) && k' < k < |Room(start, channel)| && |arrivals| > 0
    requires forall x :: x in extra && x.channel == channel ==> Older(Room(start, channel)[k], x)
    requires NewerArrivals(arrivals, channel, Room(start, channel)[k])
    ensures forall x :: x in extra + arrivals[0] && x.channel == channel ==> Older(Room(start, channel)[k'], x)
    ensures NewerArrivals(arrivals[1..], channel, Room(start, channel)[k'])
  {
    var room := Room(start, channel);
    assert forall i :: 0 <= i < |start| ==> (start + extra)[i] == start[i];
    RoomIsChronological(start, channel);
    assert Older(room[k'], room[k]);
  }

  /**
   * Starting from the newest page and paging back by the oldest message held, a client ends up
   * with the whole room as it was when it started, once each and in order, for any positive page
   * size and whatever newer messages are saved meanwhile.
   */
  lemma BackwardWalkCoversRoom(start: seq<Message>, arrivals: seq<seq<Message>>, channel: Channel, limit: nat)
    requires limit > 0 && UniqueIds(AllOf(start, arrivals))
    requires Room(start, channel) != [] && |arrivals| >= |Room(start, channel)|
    requires NewerArrivals(arrivals, channel, Room(start, channel)[|Room(start, channel)| - 1])
    ensures Page(Room(start, channel), limit, None) != []
    ensures WalkBack(start, arrivals, channel, limit, Page(Room(start, channel), limit, None)) == Room(start, channel)
  {
    var room := Room(start, channel);
    var k := |room| - Min(limit, |room|);
    AllOfExtends(start, arrivals);
    RoomIsChronological(start, channel);
    assert k < |room| - 1 ==> Older(room[k], room[|room| - 1]);
    assert start + [] == start;
    WalkBackFrom(start, [], arrivals, channel, limit, k);
  }

  // Everything a client receives paging forward by the newest message it holds.
  function WalkForward(room: seq<Message>, limit: nat, newest: Message, pages: nat): seq<Message>
    decreases pages
  {
    var page := Page(room, limit, Some(After(AnchorOf(newest))));
    if |page| == 0 || pages == 0 then page else page + WalkForward(room, limit, page[|page| - 1], pages - 1)
  }

  lemma NextPageForward(room: seq<Message>, limit: nat, k: nat)
    requires Chronological(room) && 0 < k <= |room|
    ensures Page(room, limit, Some(After(AnchorOf(room[k - 1])))) == room[k..k + Min(limit, |room| - k)]
  {
    SplitAtMember(room, k - 1);
  }

  lemma WalkForwardPage(room: seq<Message>, limit: nat, newest: Message, pages: nat, page: seq<Message>, rest: seq<Message>)
    requires page == Page(room, limit, Some(After(AnchorOf(newest))))
    requires |page| > 0 && pages > 0 ==> rest == WalkForward(room, limit, page[|page| - 1], pages - 1)
    ensures WalkForward(room, limit, newest, pages) == if |page| > 0 && pages > 0 then page + rest else page
  {
  }

  lemma SliceJoins(room: seq<Message>, k: nat, k': nat)
    requires k < k' <= |room|
    ensures room[k..k'] + room[k'..] == room[k..]
    ensures room[k..k'] != [] && room[k..k'][|room[k..k']| - 1] == room[k' - 1]
  {
  }

  // Paging forward while holding the first k messages brings the rest.
  predicate BringsRest(room: seq<Message>, limit: nat, k: nat, pages: nat)
    requires 0 < k <= |room|
  {
    WalkForward(room, limit, room[k - 1], pages) == room[k..]
  }

  lemma OnePageForward(room: seq<Message>, limit: nat, k: nat, k': nat, pages: nat)
    requires limit > 0 && Chronological(room) && 0 < k < |room| && k' == k + Min(limit, |room| - k) && pages > 0
    requires BringsRest(room, limit, k', pages - 1)
    ensures BringsRest(room, limit, k, pages)
  {
    NextPageForward(room, limit, k);
    SliceJoins(room, k, k');
    WalkForwardPage(room, limit, room[k - 1], pages, room[k..k'], room[k'..]);
  }

  lemma NothingLeftForward(room: seq<Message>, limit: nat, pages: nat)
    requires Chronological(room) && 0 < |room|
    ensures BringsRest(room, limit, |room|, pages)
  {
    NextPageForward(room, limit, |room|);
  }

  lemma {:induction false} PagingBringsRest(room: seq<Message>, limit: nat, k: nat, pages: nat)
    requires limit > 0 && Chronological(room) && 0 < k <= |room| && pages >= |room| - k
    ensures BringsRest(room, limit, k, pages)
    decreases pages
  {
    if k < |room| {
      var k' := k + Min(limit, |room| - k);
      PagingBringsRest(room, limit, k', pages - 1);
      OnePageForward(room, limit, k, k', pages);
    } else {
      NothingLeftForward(room, limit, pages);
    }
  }

  /** Paging forward from any message yields the rest of the room with nothing skipped or repeated. */
  lemma ForwardWalkCoversRest(room: seq<Message>, limit: nat, k: nat, pages: nat)
    requires limit > 0 && Chronological(room) && 0 < k <= |room| && pages >= |room| - k
    ensures WalkForward(room, limit, room[k - 1], pages) == room[k..]
  {
    PagingBringsRest(room, limit, k, pages);
  }
}
