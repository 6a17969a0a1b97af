/**
 * Joining a chat room or a bet feed (crates/api/src/routes/ws/subscribe.rs): subscribe to the broker,
 * then replay the newest page, while others post and processors broadcast.
 */
module Join {
  import opened Base
  import opened Sums
  import ChatHistory

  type ClientId = nat

  const HISTORY_LIMIT: nat := 50

  // A broker channel: one chat room, one market's bets, or everyone's bets.
  datatype Feed = Chat(room: ChatHistory.Channel) | MarketBets(market: MarketId) | AllBets

  // A chat message, on its room's feed, or a bet, on its market's feed and on AllBets.
  datatype Item = Item(id: nat, feeds: set<Feed>, createdAt: Time)

  function OfMessage(m: ChatHistory.Message): Item {
    Item(m.id, {Chat(m.channel)}, m.createdAt)
  }

  // ----- the newest page of a feed -----

  predicate Older(a: Item, page: seq<Item>) {
    forall i :: 0 <= i < |page| ==> a.createdAt <= page[i].createdAt
  }

  // Everything on the feed, or else a full page none of which is older than what it leaves out.
  predicate IsNewest(page: seq<Item>, committed: seq<Item>, feed: Feed) {
    |page| <= HISTORY_LIMIT && Distinct(page) &&
    (forall m :: m in page ==> m in committed && feed in m.feeds) &&
    (forall m :: m in committed && feed in m.feeds && m !in page ==> |page| == HISTORY_LIMIT && Older(m, page))
  }

  function Items(messages: seq<ChatHistory.Message>): (items: seq<Item>)
    ensures |items| == |messages|
  {
    seq(|messages|, i requires 0 <= i < |messages| => OfMessage(messages[i]))
  }

  lemma ItemsOf(messages: seq<ChatHistory.Message>, m: ChatHistory.Message)
    requires m in messages
    ensures OfMessage(m) in Items(messages)
  {
    var i :| 0 <= i < |messages| && messages[i] == m;
    assert Items(messages)[i] == OfMessage(m);
  }

  /** What list_recent answers a join with is the newest page of its room. */
  lemma ChatHistoryIsNewest(messages: seq<ChatHistory.Message>, room: ChatHistory.Channel)
    requires ChatHistory.UniqueIds(messages)
    ensures var page := ChatHistory.Page(ChatHistory.Room(messages, room), HISTORY_LIMIT, None);
            IsNewest(Items(page), Items(messages), Chat(room))
  {
    var all := ChatHistory.Candidates(messages, room, None);
    var page := ChatHistory.Page(ChatHistory.Room(messages, room), HISTORY_LIMIT, None);
    ChatHistory.PageAnswersQuery(messages, room, HISTORY_LIMIT, None);
    ChatHistory.SequenceAsSet(page);
    forall m | m in Items(page) ensures m in Items(messages) && Chat(room) in m.feeds {
      var i :| 0 <= i < |page| && Items(page)[i] == m;
      assert page[i] in page;
      ItemsOf(messages, page[i]);
    }
    forall i, j | 0 <= i < j < |page| ensures Items(page)[i] != Items(page)[j] {
      assert ChatHistory.Older(page[i], page[j]);
    }
    forall m | m in Items(messages) && Chat(room) in m.feeds && m !in Items(page)
      ensures |page| == HISTORY_LIMIT && Older(m, Items(page))
    {
      var k :| 0 <= k < |messages| && Items(messages)[k] == m;
      LeftOutIsOlder(messages, room, page, messages[k]);
    }
  }

  lemma LeftOutIsOlder(messages: seq<ChatHistory.Message>, room: ChatHistory.Channel,
                       page: seq<ChatHistory.Message>, m: ChatHistory.Message)
    requires ChatHistory.IsPage(page, messages, room, HISTORY_LIMIT, None)
    requires m in messages && m.channel == room && OfMessage(m) !in Items(page)
    ensures |page| == HISTORY_LIMIT && Older(OfMessage(m), Items(page))
  {
    var all := ChatHistory.Candidates(messages, room, None);
    if m in page {
      ItemsOf(page, m);
    }
    assert m in all;
    var shown := set p | p in page;
    ChatHistory.SequenceAsSet(page);
    assert shown <= all - {m};
    SubsetIsSmaller(shown, all - {m});
    forall i | 0 <= i < |page| ensures m.createdAt <= Items(page)[i].createdAt {
      assert page[i] in page;
    }
  }

  lemma SubsetIsSmaller<T>(a: set<T>, b: set<T>)
    requires a <= b
    ensures |a| <= |b|
  {
    assert b == a + (b - a);
  }

  // Bets are listed newest first by creation time alone; the sort is stable.
  function InsertNewest(m: Item, s: seq<Item>): seq<Item> {
    if |s| == 0 || m.createdAt > s[0].createdAt then [m] + s else [s[0]] + InsertNewest(m, s[1..])
  }

  function SortNewest(s: seq<Item>): seq<Item> {
    if |s| == 0 then [] else InsertNewest(s[|s| - 1], SortNewest(s[..|s| - 1]))
  }

  predicate NewestFirst(s: seq<Item>) {
    forall i, j :: 0 <= i < j < |s| ==> s[i].createdAt >= s[j].createdAt
  }

  lemma NewestSorts(m: Item, s: seq<Item>)
    requires NewestFirst(s) && Distinct(s) && forall x :: x in s ==> x.createdAt <= m.createdAt && x != m
    ensures NewestFirst([m] + s) && Distinct([m] + s)
  {
  }

  lemma {:induction false} InsertNewestSorts(m: Item, s: seq<Item>)
    requires NewestFirst(s) && Distinct(s) && m !in s
    ensures NewestFirst(InsertNewest(m, s)) && Distinct(InsertNewest(m, s))
    ensures forall x :: x in InsertNewest(m, s) <==> x == m || x in s
  {
    if |s| > 0 && m.createdAt <= s[0].createdAt {
      assert s == [s[0]] + s[1..];
      assert forall x :: x in s[1..] ==> x.createdAt <= s[0].createdAt && x != s[0];
      InsertNewestSorts(m, s[1..]);
      NewestSorts(s[0], InsertNewest(m, s[1..]));
    } else {
      assert forall x :: x in s ==> x.createdAt <= m.createdAt;
      NewestSorts(m, s);
    }
  }

  lemma {:induction false} SortNewestSorts(s: seq<Item>)
    requires Distinct(s)
    ensures NewestFirst(SortNewest(s)) && Distinct(SortNewest(s))
    ensures forall x :: x in SortNewest(s) <==> x in s
  {
    if |s| > 0 {
      var n := |s| - 1;
      SortNewestSorts(s[..n]);
      assert s == s[..n] + [s[n]];
      InsertNewestSorts(s[n], SortNewest(s[..n]));
    }
  }

  function On(feed: Feed): Item -> bool {
    (m: Item) => feed in m.feeds
  }

  lemma {:induction false} FilterKeepsDistinct(s: seq<Item>, keep: Item -> bool)
    requires Distinct(s)
    ensures Distinct(Filter(s, keep))
  {
    if |s| > 0 {
      var n := |s| - 1;
      FilterKeepsDistinct(s[..n], keep);
      var kept := Filter(s[..n], keep);
      forall i | 0 <= i < |kept| ensures kept[i] != s[n] {
        assert kept[i] in s[..n];
      }
    }
  }

  // slice::reverse: swap the ends and close in.
  method Reverse(page: seq<Item>) returns (reversed: seq<Item>)
    ensures |reversed| == |page| && forall k :: 0 <= k < |page| ==> reversed[k] == page[|page| - 1 - k]
  {
    reversed := page;
    var low, high := 0, |page|;
    while low + 1 < high
      invariant 0 <= low <= high && low + high == |page| == |reversed|
      invariant forall k :: low <= k < high ==> reversed[k] == page[k]
      invariant forall k :: 0 <= k < low || high <= k < |page| ==> reversed[k] == page[|page| - 1 - k]
    {
      assert |page| - 1 - low == high - 1 && |page| - 1 - (high - 1) == low;
      reversed := reversed[low := reversed[high - 1]][high - 1 := reversed[low]];
      low, high := low + 1, high - 1;
    }
  }

  lemma ReversedHolds(page: seq<Item>, reversed: seq<Item>)
    requires |reversed| == |page| && forall k :: 0 <= k < |page| ==> reversed[k] == page[|page| - 1 - k]
    ensures forall m :: m in reversed <==> m in page
  {
    forall m | m in page ensures m in reversed {
      var k :| 0 <= k < |page| && page[k] == m;
      assert reversed[|page| - 1 - k] == m;
    }
  }

  lemma FirstOfNewest(listed: seq<Item>, committed: seq<Item>, feed: Feed)
    requires NewestFirst(listed) && Distinct(listed)
    requires forall m :: m in listed <==> m in committed && feed in m.feeds
    ensures IsNewest(listed[..Min(HISTORY_LIMIT, |listed|)], committed, feed)
  {
    var n := Min(HISTORY_LIMIT, |listed|);
    assert listed == listed[..n] + listed[n..];
  }

  /** The bet history sent on joining: the newest page of the feed, oldest first. */
  method BetHistory(committed: seq<Item>, feed: Feed) returns (history: seq<Item>)
    requires Distinct(committed)
    ensures IsNewest(history, committed, feed)
    ensures forall i, j :: 0 <= i < j < |history| ==> history[i].createdAt <= history[j].createdAt
  {
    var listed := SortNewest(Filter(committed, On(feed)));
    FilterKeepsDistinct(committed, On(feed));
    SortNewestSorts(Filter(committed, On(feed)));
    FirstOfNewest(listed, committed, feed);
    var page := listed[..Min(HISTORY_LIMIT, |listed|)];
    history := Reverse(page);
    ReversedHolds(page, history);
  }

  // ----- posting, broadcasting and joining, interleaved -----

  // `seen` is what had been committed when the history was read.
  datatype Client = Client(feed: Feed, subscribed: bool, history: Option<seq<Item>>, seen: seq<Item>, frames: seq<Item>)

  datatype World = World(committed: seq<Item>, pending: set<Item>, clients: map<ClientId, Client>)

  const START: World := World([], {}, map[])

  datatype Step =
    | Post(item: Item)
    | Broadcast(item: Item, reached: set<Feed>, ok: bool)
    | Open(client: ClientId, feed: Feed)
    | Subscribe(client: ClientId)
    | Replay(client: ClientId, page: seq<Item>)

  predicate Fresh(committed: seq<Item>, item: Item) {
    forall i :: 0 <= i < |committed| ==> committed[i].id != item.id || committed[i].feeds !! item.feeds
  }

  function Deliver(clients: map<ClientId, Client>, item: Item, reached: set<Feed>): map<ClientId, Client> {
    map c | c in clients ::
      if clients[c].subscribed && clients[c].feed in reached
      then clients[c].(frames := clients[c].frames + [item]) else clients[c]
  }

  // A handler may fail half-way, having reached some feeds; its event is then tried again.
  function Apply(w: World, step: Step): World {
    match step
    case Post(item) =>
      if Fresh(w.committed, item) && item !in w.committed
      then w.(committed := w.committed + [item], pending := w.pending + {item}) else w
    case Broadcast(item, reached, ok) =>
      if item !in w.pending || !(reached <= item.feeds) || (ok && reached != item.feeds) then w
      else World(w.committed, if ok then w.pending - {item} else w.pending, Deliver(w.clients, item, reached))
    case Open(c, feed) =>
      if c in w.clients then w else w.(clients := w.clients[c := Client(feed, false, None, [], [])])
    case Subscribe(c) =>
      if c !in w.clients then w else w.(clients := w.clients[c := w.clients[c].(subscribed := true)])
    case Replay(c, page) =>
      if c !in w.clients || w.clients[c].history.Some? || !IsNewest(page, w.committed, w.clients[c].feed) then w
      else w.(clients := w.clients[c := w.clients[c].(history := Some(page), seen := w.committed)])
  }

  function Run(steps: seq<Step>): World {
    if |steps| == 0 then START else Apply(Run(steps[..|steps| - 1]), steps[|steps| - 1])
  }

  // The order every join follows: subscribe first, replay second.
  predicate InOrder(w: World, step: Step) {
    step.Replay? && step.client in w.clients ==> w.clients[step.client].subscribed
  }

  predicate AllInOrder(steps: seq<Step>) {
    forall i :: 0 <= i < |steps| ==> InOrder(Run(steps[..i]), steps[i])
  }

  predicate UniqueOnFeed(committed: seq<Item>) {
    forall i, j :: 0 <= i < j < |committed| ==>
      committed[i].id != committed[j].id || committed[i].feeds !! committed[j].feeds
  }

  // Posted since the history was read, and already broadcast: then it is among the frames.
  predicate ClientOk(committed: seq<Item>, pending: set<Item>, c: Client) {
    (forall m :: m in c.frames ==> m in committed && c.feed in m.feeds) &&
    (c.history.Some? ==>
      c.subscribed && c.seen <= committed && IsNewest(c.history.value, c.seen, c.feed) &&
      forall m :: m in committed[|c.seen|..] && c.feed in m.feeds && m !in pending ==> m in c.frames)
  }

  predicate Inv(w: World) {
    UniqueOnFeed(w.committed) && (forall m :: m in w.pending ==> m in w.committed) &&
    forall c :: c in w.clients ==> ClientOk(w.committed, w.pending, w.clients[c])
  }

  lemma PostKeepsClient(committed: seq<Item>, pending: set<Item>, c: Client, item: Item)
    requires ClientOk(committed, pending, c)
    ensures ClientOk(committed + [item], pending + {item}, c)
  {
    var after := committed + [item];
    if c.history.Some? {
      assert after[|c.seen|..] == committed[|c.seen|..] + [item];
    }
  }

  lemma DeliverKeepsClient(committed: seq<Item>, pending: set<Item>, clients: map<ClientId, Client>, k: ClientId,
                           item: Item, reached: set<Feed>, ok: bool)
    requires k in clients && ClientOk(committed, pending, clients[k])
    requires item in committed && reached <= item.feeds && (ok ==> reached == item.feeds)
    ensures ClientOk(committed, if ok then pending - {item} else pending, Deliver(clients, item, reached)[k])
  {
    var c, c' := clients[k], Deliver(clients, item, reached)[k];
    assert forall m :: m in c.frames ==> m in c'.frames;
    if c.subscribed && c.feed in reached {
      assert c'.frames[|c.frames|] == item;
    }
  }

  lemma StepKeepsInv(w: World, step: Step)
    requires Inv(w) && InOrder(w, step)
    ensures Inv(Apply(w, step))
  {
    match step
    case Post(item) =>
      forall c | c in w.clients ensures ClientOk(w.committed + [item], w.pending + {item}, w.clients[c]) {
        PostKeepsClient(w.committed, w.pending, w.clients[c], item);
      }
    case Broadcast(item, reached, ok) =>
      if item in w.pending && reached <= item.feeds && (ok ==> reached == item.feeds) {
        forall c | c in w.clients
          ensures ClientOk(w.committed, if ok then w.pending - {item} else w.pending, Deliver(w.clients, item, reached)[c])
        {
          DeliverKeepsClient(w.committed, w.pending, w.clients, c, item, reached, ok);
        }
      }
    case Open(_, _) =>
    case Subscribe(_) =>
    case Replay(_, _) =>
  }

  lemma {:induction false} RunsKeepInv(steps: seq<Step>)
    requires AllInOrder(steps)
    ensures Inv(Run(steps))
  {
    if |steps| > 0 {
      var n := |steps| - 1;
      assert forall i :: 0 <= i < n ==> steps[..n][..i] == steps[..i];
      RunsKeepInv(steps[..n]);
      StepKeepsInv(Run(steps[..n]), steps[n]);
    }
  }

  // ----- what the client is shown -----

  // The client keeps the first frame it sees under each id.
  function Deduplicated(s: seq<Item>): seq<Item> {
    if |s| == 0 then []
    else
      var front, m := Deduplicated(s[..|s| - 1]), s[|s| - 1];
      if exists i :: 0 <= i < |front| && front[i].id == m.id then front else front + [m]
  }

  function Received(c: Client): seq<Item> {
    c.history.GetOr([]) + c.frames
  }

  lemma {:induction false} DeduplicatedOnce(s: seq<Item>)
    requires forall a, b :: a in s && b in s && a.id == b.id ==> a == b
    ensures forall m :: m in Deduplicated(s) <==> m in s
    ensures forall i, j :: 0 <= i < j < |Deduplicated(s)| ==> Deduplicated(s)[i].id != Deduplicated(s)[j].id
  {
    if |s| > 0 {
      var n := |s| - 1;
      assert s == s[..n] + [s[n]];
      DeduplicatedOnce(s[..n]);
      var front := Deduplicated(s[..n]);
      assert forall i :: 0 <= i < |front| ==> front[i] in s[..n];
      assert s[n] in s;
    }
  }

  lemma ReceivedIsCommitted(w: World, c: ClientId)
    requires Inv(w) && c in w.clients
    ensures forall m :: m in Received(w.clients[c]) ==> m in w.committed && w.clients[c].feed in m.feeds
    ensures forall a, b :: a in Received(w.clients[c]) && b in Received(w.clients[c]) && a.id == b.id ==> a == b
  {
    var client := w.clients[c];
    assert ClientOk(w.committed, w.pending, client);
    forall m | m in Received(client) ensures m in w.committed && client.feed in m.feeds {
      if m !in client.frames {
        assert m in client.history.value && m in client.seen;
      }
    }
  }

  // Out of the page because a full page of items at least as new was committed before it was read.
  predicate PushedOut(c: Client, m: Item) {
    c.history.Some? && m in c.seen && |c.history.value| == HISTORY_LIMIT && Older(m, c.history.value) &&
    forall p :: p in c.history.value ==> p in c.seen && p != m
  }

  /**
   * A joined client loses nothing: every item committed on its feed whose event has been delivered
   * is shown, unless the page had no room for it; and it is shown once. Nothing else is shown.
   */
  lemma JoinLosesNothing(steps: seq<Step>, c: ClientId, m: Item)
    requires AllInOrder(steps) && c in Run(steps).clients && Run(steps).clients[c].history.Some?
    ensures var w := Run(steps); var shown := Deduplicated(Received(w.clients[c]));
            (m in w.committed && w.clients[c].feed in m.feeds && m !in w.pending ==>
              m in shown || PushedOut(w.clients[c], m)) &&
            (m in shown ==> m in w.committed && w.clients[c].feed in m.feeds) &&
            (forall i, j :: 0 <= i < j < |shown| ==> shown[i].id != shown[j].id)
  {
    RunsKeepInv(steps);
    ReceivedIsCommitted(Run(steps), c);
    DeduplicatedOnce(Received(Run(steps).clients[c]));
    DeliveredIsReceived(Run(steps), c, m);
  }

  lemma DeliveredIsReceived(w: World, c: ClientId, m: Item)
    requires Inv(w) && c in w.clients && w.clients[c].history.Some?
    ensures m in w.committed && w.clients[c].feed in m.feeds && m !in w.pending ==>
              m in Received(w.clients[c]) || PushedOut(w.clients[c], m)
  {
    var client := w.clients[c];
    assert ClientOk(w.committed, w.pending, client);
    if m in w.committed && client.feed in m.feeds && m !in w.pending {
      assert w.committed == client.seen + w.committed[|client.seen|..];
    }
  }

  // What a client holds at one time and at a later one.
  predicate Extends(before: Client, after: Client) {
    after.feed == before.feed && (before.subscribed ==> after.subscribed) && before.frames <= after.frames &&
    (before.history.Some? ==> after.history == before.history && after.seen == before.seen)
  }

  lemma StepExtendsClient(w: World, step: Step, c: ClientId)
    requires c in w.clients
    ensures c in Apply(w, step).clients && Extends(w.clients[c], Apply(w, step).clients[c])
  {
  }

  /** Frames reach a client one after another: nothing it holds is ever changed, moved or taken back. */
  lemma {:induction false} FramesOnlyGrow(steps: seq<Step>, more: seq<Step>, c: ClientId)
    requires c in Run(steps).clients
    ensures c in Run(steps + more).clients && Extends(Run(steps).clients[c], Run(steps + more).clients[c])
  {
    if |more| == 0 {
      assert steps + more == steps;
    } else {
      var n := |more| - 1;
      assert (steps + more)[..|steps + more| - 1] == steps + more[..n];
      FramesOnlyGrow(steps, more[..n], c);
      StepExtendsClient(Run(steps + more[..n]), more[n], c);
    }
  }

  function BackwardRun(m: Item, feed: Feed): seq<Step> {
    [Open(0, feed), Replay(0, []), Post(m), Broadcast(m, m.feeds, true), Subscribe(0)]
  }

  lemma RunSnoc(steps: seq<Step>, i: nat)
    requires i < |steps|
    ensures Run(steps[..i + 1]) == Apply(Run(steps[..i]), steps[i])
  {
    assert steps[..i + 1][..i] == steps[..i];
  }

  /** The order matters: replaying before subscribing can lose an item for good, off an empty page. */
  lemma ReplayFirstCanLose(m: Item, feed: Feed)
    requires feed in m.feeds
    ensures var w := Run(BackwardRun(m, feed));
            w.committed == [m] && w.pending == {} && 0 in w.clients && w.clients[0].subscribed &&
            w.clients[0].history == Some([]) && Received(w.clients[0]) == [] && !PushedOut(w.clients[0], m)
  {
    var steps := BackwardRun(m, feed);
    assert steps[..0] == [];
    forall i: nat | i < 5 ensures Run(steps[..i + 1]) == Apply(Run(steps[..i]), steps[i]) {
      RunSnoc(steps, i);
    }
    assert Run(steps[..2]) == World([], {}, map[0 := Client(feed, false, Some([]), [], [])]);
    assert Run(steps[..3]) == World([m], {m}, map[0 := Client(feed, false, Some([]), [], [])]);
    assert Run(steps[..4]) == World([m], {}, map[0 := Client(feed, false, Some([]), [], [])]);
    assert steps[..5] == steps;
  }
}
