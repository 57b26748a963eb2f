/** The OS observer's subscription tables and report cache as a state machine over its
    messages, and what its runs keep. */
module ObserverModel {
  import opened SetMap

  type Client = nat   // 0 is the null pointer
  type Item = nat

  /** What one notify call to a client carries. */
  type Payload = map<Item, int>

  datatype Observer = Observer(
    clientToItems: map<Client, set<Item>>,
    itemToClients: map<Item, set<Client>>,
    cache: map<Item, int>,
    attached: bool,           // the framework's subscription object is set
    framework: set<Item>)     // items subscribed at the framework

  /** A reported data item, and whether the system status takes it. */
  datatype Incoming = Incoming(id: Item, value: int, accepted: bool)

  datatype Message =
    | SetSubscriptionObj
    | Subscribe(items: set<Item>, client: Client, requestData: bool)
    | UpdateSubscription(items: set<Item>, client: Client)
    | Unsubscribe(items: set<Item>, client: Client)
    | UnsubscribeAll(client: Client)
    | Notify(data: seq<Incoming>)

  /** The next observer, and the notify call each client gets, if any. */
  datatype Reaction = Reaction(next: Observer, calls: map<Client, Payload>)

  const EMPTY := Observer(map[], map[], map[], false, {})

  function Cached(cache: map<Item, int>, items: set<Item>): Payload {
    map d | d in items && d in cache :: cache[d]
  }

  /** A client is called only if there is something to send. */
  function CallWith(c: Client, p: Payload): map<Client, Payload> {
    if p == map[] then map[] else map[c := p]
  }

  function CacheAfter(cache: map<Item, int>, data: seq<Incoming>, n: nat): map<Item, int>
    requires n <= |data|
  {
    if n == 0 then cache
    else
      var c := CacheAfter(cache, data, n - 1);
      if data[n - 1].accepted then c[data[n - 1].id := data[n - 1].value] else c
  }

  function UpdatedIds(data: seq<Incoming>, n: nat): set<Item>
    requires n <= |data|
  {
    if n == 0 then {}
    else UpdatedIds(data, n - 1) + (if data[n - 1].accepted then {data[n - 1].id} else {})
  }

  /** The clients listed under some of the items. */
  function ClientsOf(m: map<Item, set<Client>>, ids: set<Item>): set<Client> {
    set d, c | d in ids && d in m && c in m[d] :: c
  }

  /** What the clients are sent when the items in ids have been updated. */
  function CallsFor(o: Observer, cache: map<Item, int>, ids: set<Item>): map<Client, Payload> {
    map c | c in ClientsOf(o.itemToClients, ids) && Cached(cache, ValSet(o.clientToItems, c) * ids) != map[]
      :: Cached(cache, ValSet(o.clientToItems, c) * ids)
  }

  function Step(o: Observer, m: Message): Reaction {
    match m
    case SetSubscriptionObj =>
      Reaction(o.(attached := true, framework := o.framework + o.itemToClients.Keys), map[])
    case Subscribe(items, c, request) => OnSubscribe(o, items, c, request)
    case UpdateSubscription(items, c) => OnUpdate(o, items, c)
    case Unsubscribe(items, c) => OnUnsubscribe(o, items, c)
    case UnsubscribeAll(c) => OnUnsubscribeAll(o, c)
    case Notify(data) =>
      var cache := CacheAfter(o.cache, data, |data|);
      Reaction(o.(cache := cache), CallsFor(o, cache, UpdatedIds(data, |data|)))
  }

  function OnSubscribe(o: Observer, items: set<Item>, c: Client, request: bool): Reaction {
    var toSubscribe := NewKeys(o.itemToClients, items, {c});
    Reaction(
      o.(itemToClients := Added(o.itemToClients, items, {c}),
         clientToItems := Added(o.clientToItems, {c}, items),
         framework := if o.attached && !request then o.framework + toSubscribe else o.framework),
      CallWith(c, Cached(o.cache, items)))
  }

  function OnUpdate(o: Observer, items: set<Item>, c: Client): Reaction {
    var back := HandedBack(o.clientToItems, c, items);
    var newItems := items - ValSet(o.clientToItems, c);
    var trimmed := Trimmed(o.itemToClients, back, {c});
    var toUnsubscribe := GoneKeys(o.itemToClients, back, {c});
    var toSubscribe := NewKeys(trimmed, newItems, {c});
    Reaction(
      o.(clientToItems := Updated(o.clientToItems, c, items),
         itemToClients := Added(trimmed, newItems, {c}),
         framework := if o.attached then o.framework + toSubscribe - toUnsubscribe else o.framework),
      CallWith(c, Cached(o.cache, newItems)))
  }

  function OnUnsubscribe(o: Observer, items: set<Item>, c: Client): Reaction {
    var unused := GoneVals(o.clientToItems, {c}, items);
    Reaction(Forget(o.(clientToItems := Trimmed(o.clientToItems, {c}, items)), unused, c), map[])
  }

  function OnUnsubscribeAll(o: Observer, c: Client): Reaction {
    var items := ValSet(o.clientToItems, c);
    if items == {} then Reaction(o, map[])
    else Reaction(Forget(o.(clientToItems := o.clientToItems - {c}), items, c), map[])
  }

  /** Takes the client off the items, and unsubscribes those that nobody uses any more. */
  function Forget(o: Observer, items: set<Item>, c: Client): Observer {
    var toUnsubscribe := GoneKeys(o.itemToClients, items, {c});
    o.(itemToClients := Trimmed(o.itemToClients, items, {c}),
       framework := if o.attached then o.framework - toUnsubscribe else o.framework)
  }

  // ------------------------------------------------------------------ what a message does

  /** The item is on the client's list. */
  predicate Wants(o: Observer, c: Client, d: Item) {
    d in ValSet(o.clientToItems, c)
  }

  /** The client is on the item's list. */
  predicate Listed(o: Observer, c: Client, d: Item) {
    c in ValSet(o.itemToClients, d)
  }

  /** Subscription messages name at least one item: the entry points drop the others. */
  predicate Posted(m: Message) {
    m.Subscribe? || m.UpdateSubscription? || m.Unsubscribe? ==> m.items != {}
  }

  /** The client whose lists a message is about. */
  predicate IsAbout(m: Message, c: Client) {
    (m.Subscribe? || m.UpdateSubscription? || m.Unsubscribe? || m.UnsubscribeAll?) && m.client == c
  }

  function WantsAfter(o: Observer, m: Message, c: Client, d: Item): bool {
    if !IsAbout(m, c) then Wants(o, c, d)
    else
      match m
      case Subscribe(items, _, _) => Wants(o, c, d) || d in items
      case UpdateSubscription(items, _) => d in items
      case Unsubscribe(items, _) => Wants(o, c, d) && d !in items
      case _ => false
  }

  /** An update takes the client off the items it keeps, and leaves it on those it drops. */
  function ListedAfter(o: Observer, m: Message, c: Client, d: Item): bool {
    if !IsAbout(m, c) then Listed(o, c, d)
    else
      match m
      case Subscribe(items, _, _) => Listed(o, c, d) || d in items
      case UpdateSubscription(items, _) =>
        if d in items then if Wants(o, c, d) then false else true else Listed(o, c, d)
      case Unsubscribe(items, _) => Listed(o, c, d) && !(Wants(o, c, d) && d in items)
      case _ => Listed(o, c, d) && !Wants(o, c, d)
  }

  /** What every message does to both tables, for every client and item, whatever state they
      are in. */
  lemma RowsAfter(o: Observer, m: Message, c: Client, d: Item)
    ensures Wants(Step(o, m).next, c, d) == WantsAfter(o, m, c, d)
    ensures Listed(Step(o, m).next, c, d) == ListedAfter(o, m, c, d)
  {
    hide ValSet, Added, Trimmed, GoneVals, GoneKeys, NewKeys;
    match m
    case Subscribe(items, x, _) =>
      AddedEntry(o.clientToItems, {x}, items, c);
      AddedEntry(o.itemToClients, items, {x}, d);
    case UpdateSubscription(items, x) => UpdateRows(o, items, x, c, d);
    case Unsubscribe(items, x) =>
      var unused := GoneVals(o.clientToItems, {x}, items);
      GoneValsOfOne(o.clientToItems, x, items);
      TrimmedEntry(o.clientToItems, {x}, items, c);
      TrimmedEntry(o.itemToClients, unused, {x}, d);
    case UnsubscribeAll(x) => UnsubscribeAllRows(o, x, c, d);
    case _ =>
  }

  lemma UpdateRows(o: Observer, items: set<Item>, x: Client, c: Client, d: Item)
    ensures Wants(OnUpdate(o, items, x).next, c, d) == WantsAfter(o, UpdateSubscription(items, x), c, d)
    ensures Listed(OnUpdate(o, items, x).next, c, d) == ListedAfter(o, UpdateSubscription(items, x), c, d)
  {
    hide Added, Trimmed, GoneKeys, NewKeys;
    var back := HandedBack(o.clientToItems, x, items);
    TrimmedEntry(o.itemToClients, back, {x}, d);
    AddedEntry(Trimmed(o.itemToClients, back, {x}), items - ValSet(o.clientToItems, x), {x}, d);
  }

  lemma UnsubscribeAllRows(o: Observer, x: Client, c: Client, d: Item)
    ensures Wants(OnUnsubscribeAll(o, x).next, c, d) == WantsAfter(o, UnsubscribeAll(x), c, d)
    ensures Listed(OnUnsubscribeAll(o, x).next, c, d) == ListedAfter(o, UnsubscribeAll(x), c, d)
  {
    hide Trimmed, GoneKeys;
    TrimmedEntry(o.itemToClients, ValSet(o.clientToItems, x), {x}, d);
  }

  lemma GoneValsOfOne(m: map<Client, set<Item>>, c: Client, items: set<Item>)
    ensures GoneVals(m, {c}, items) == ValSet(m, c) * items
  {
    forall d | d in ValSet(m, c) * items
      ensures d in GoneVals(m, {c}, items)
    {
      assert c in {c} && c in m && d in m[c];
    }
  }

  // ------------------------------------------------------------------ agreement, client by client

  /** The two tables say the same of a client. */
  ghost predicate AgreeOn(o: Observer, c: Client) {
    forall d: Item :: Wants(o, c, d) <==> Listed(o, c, d)
  }

  /** The client replaces a subscription it has. */
  predicate UpdatesAgain(o: Observer, m: Message, c: Client) {
    m.UpdateSubscription? && m.client == c && ValSet(o.clientToItems, c) != {}
  }

  /** Of every message, whoever it comes from: the tables go on agreeing on a client exactly
      if it is not that client that replaces a subscription it has. */
  lemma StepAgreesOnIff(o: Observer, m: Message, c: Client)
    requires AgreeOn(o, c) && Posted(m)
    ensures AgreeOn(Step(o, m).next, c) <==> !UpdatesAgain(o, m, c)
  {
    hide Step;
    var n := Step(o, m).next;
    forall d: Item
      ensures Wants(n, c, d) == WantsAfter(o, m, c, d) && Listed(n, c, d) == ListedAfter(o, m, c, d)
    {
      RowsAfter(o, m, c, d);
    }
    if UpdatesAgain(o, m, c) {
      var d :| d in ValSet(o.clientToItems, c);
      assert Wants(o, c, d) && Listed(o, c, d);
      assert Wants(n, c, d) != Listed(n, c, d);
    } else {
      forall d
        ensures Wants(n, c, d) <==> Listed(n, c, d)
      {
        assert Wants(o, c, d) <==> Listed(o, c, d);
      }
    }
  }

  /** Neither table ever keeps an entry for nothing. */
  ghost predicate NoEmptyEntries(o: Observer) {
    NoEmptyEntry(o.clientToItems) && NoEmptyEntry(o.itemToClients)
  }

  lemma TrimmedHasNoEmpty<K, V>(m: map<K, set<V>>, keys: set<K>, vals: set<V>)
    requires NoEmptyEntry(m)
    ensures NoEmptyEntry(Trimmed(m, keys, vals))
  {
    var t := Trimmed(m, keys, vals);
    forall k | k in t
      ensures t[k] != {}
    {
      if k in keys {
        var v :| v in m[k] && v !in vals;
        assert v in t[k];
      }
    }
  }

  lemma AddedHasNoEmpty<K, V>(m: map<K, set<V>>, keys: set<K>, vals: set<V>)
    requires NoEmptyEntry(m)
    ensures NoEmptyEntry(Added(m, keys, vals))
  {
    if vals != {} {
      var v :| v in vals;
      assert forall k :: k in keys ==> v in ValSet(m, k) + vals;
    }
  }

  lemma StepKeepsNoEmpty(o: Observer, m: Message)
    requires NoEmptyEntries(o)
    ensures NoEmptyEntries(Step(o, m).next)
  {
    hide Trimmed, Added;
    match m {
      case Subscribe(items, c, _) =>
        AddedHasNoEmpty(o.clientToItems, {c}, items);
        AddedHasNoEmpty(o.itemToClients, items, {c});
      case UpdateSubscription(items, c) =>
        var back := HandedBack(o.clientToItems, c, items);
        TrimmedHasNoEmpty(o.itemToClients, back, {c});
        AddedHasNoEmpty(Trimmed(o.itemToClients, back, {c}), items - ValSet(o.clientToItems, c), {c});
      case Unsubscribe(items, c) =>
        TrimmedHasNoEmpty(o.clientToItems, {c}, items);
        TrimmedHasNoEmpty(o.itemToClients, GoneVals(o.clientToItems, {c}, items), {c});
      case UnsubscribeAll(c) =>
        TrimmedHasNoEmpty(o.itemToClients, ValSet(o.clientToItems, c), {c});
      case _ =>
    }
  }

  // ------------------------------------------------------------------ being reached

  /** The client is on the list of every item it wants. */
  ghost predicate Reached(o: Observer, c: Client) {
    forall d: Item :: Wants(o, c, d) ==> Listed(o, c, d)
  }

  /** What has to hold before a message for the client to be reached after it. */
  ghost predicate ReachedBefore(o: Observer, m: Message, c: Client) {
    if !IsAbout(m, c) then Reached(o, c)
    else
      match m
      case Subscribe(items, _, _) => forall d: Item :: Wants(o, c, d) && d !in items ==> Listed(o, c, d)
      case UpdateSubscription(items, _) => ValSet(o.clientToItems, c) * items == {}
      case Unsubscribe(items, _) => forall d: Item :: Wants(o, c, d) && d !in items ==> Listed(o, c, d)
      case _ => true
  }

  /** Of every message in every state: an update leaves the client reached exactly if it
      keeps none of its items, leaving altogether always does, and no other client matters. */
  lemma StepReachesIff(o: Observer, m: Message, c: Client)
    ensures Reached(Step(o, m).next, c) <==> ReachedBefore(o, m, c)
  {
    hide Step;
    var n := Step(o, m).next;
    forall d: Item
      ensures Wants(n, c, d) == WantsAfter(o, m, c, d) && Listed(n, c, d) == ListedAfter(o, m, c, d)
    {
      RowsAfter(o, m, c, d);
    }
    if m.UpdateSubscription? && m.client == c {
      if d :| d in ValSet(o.clientToItems, c) * m.items {
        assert Wants(n, c, d) && !Listed(n, c, d);
      } else {
        assert forall d: Item :: Wants(n, c, d) ==> d !in ValSet(o.clientToItems, c) * m.items;
      }
    } else if Reached(n, c) {
      forall d: Item | Wants(o, c, d) && WantsAfter(o, m, c, d)
        ensures ListedAfter(o, m, c, d)
      {
        assert Wants(n, c, d);
      }
    }
  }

  // ------------------------------------------------------------------ notifications

  /** The cache holds, for each updated item, its last accepted value. */
  lemma {:induction false} CacheHoldsLast(cache: map<Item, int>, data: seq<Incoming>, n: nat, d: Item)
    requires n <= |data|
    ensures d in UpdatedIds(data, n) ==>
      && d in CacheAfter(cache, data, n)
      && exists i :: LastAccepted(data, n, d, i) && CacheAfter(cache, data, n)[d] == data[i].value
    ensures d !in UpdatedIds(data, n) ==>
      (d in CacheAfter(cache, data, n) <==> d in cache) && (d in cache ==> CacheAfter(cache, data, n)[d] == cache[d])
  {
    if n > 0 {
      CacheHoldsLast(cache, data, n - 1, d);
      if data[n - 1].accepted && data[n - 1].id == d {
        assert LastAccepted(data, n, d, n - 1);
      } else if d in UpdatedIds(data, n - 1) {
        var i :| LastAccepted(data, n - 1, d, i) && CacheAfter(cache, data, n - 1)[d] == data[i].value;
        assert LastAccepted(data, n, d, i);
      }
    }
  }

  ghost predicate LastAccepted(data: seq<Incoming>, n: nat, d: Item, i: int)
    requires n <= |data|
  {
    && 0 <= i < n && data[i].accepted && data[i].id == d
    && forall j :: i < j < n ==> !(data[j].accepted && data[j].id == d)
  }

  /** The client is called exactly if it wants updated items, and sent exactly the last
      values of those. */
  ghost predicate IsNotified(o: Observer, data: seq<Incoming>, c: Client) {
    var r, mine := Step(o, Notify(data)), ValSet(o.clientToItems, c) * UpdatedIds(data, |data|);
    && (c in r.calls <==> mine != {})
    && (c in r.calls ==>
          && r.calls[c].Keys == mine
          && forall d :: d in mine ==>
               exists i :: LastAccepted(data, |data|, d, i) && r.calls[c][d] == data[i].value)
  }

  /** Of every report in every state: a client is notified as it should exactly if it wants
      none of the updated items, or is on the list of some. */
  lemma NotifyIsExactIff(o: Observer, data: seq<Incoming>, c: Client)
    ensures IsNotified(o, data, c) <==>
      || ValSet(o.clientToItems, c) * UpdatedIds(data, |data|) == {}
      || exists d :: d in UpdatedIds(data, |data|) && Listed(o, c, d)
  {
    var r, ids := Step(o, Notify(data)), UpdatedIds(data, |data|);
    var cache := r.next.cache;
    var mine := ValSet(o.clientToItems, c) * ids;
    forall d | d in mine
      ensures d in cache && exists i :: LastAccepted(data, |data|, d, i) && cache[d] == data[i].value
    {
      CacheHoldsLast(o.cache, data, |data|, d);
    }
    assert Cached(cache, mine).Keys == mine;
    if mine != {} {
      var d :| d in mine;
      assert d in Cached(cache, mine);
      ListedIsClient(o, ids, c);
    }
  }

  lemma ListedIsClient(o: Observer, ids: set<Item>, c: Client)
    ensures c in ClientsOf(o.itemToClients, ids) <==> exists d :: d in ids && Listed(o, c, d)
  {
    if d :| d in ids && Listed(o, c, d) {
      assert d in o.itemToClients && c in o.itemToClients[d];
    }
    if c in ClientsOf(o.itemToClients, ids) {
      var d :| d in ids && d in o.itemToClients && c in o.itemToClients[d];
      assert Listed(o, c, d);
    }
  }

  /** A client is notified as it should of every report exactly if it is reached. */
  lemma AlwaysNotifiedIff(o: Observer, c: Client)
    ensures (forall data :: IsNotified(o, data, c)) <==> Reached(o, c)
  {
    if Reached(o, c) {
      forall data
        ensures IsNotified(o, data, c)
      {
        NotifyIsExactIff(o, data, c);
        if d :| d in ValSet(o.clientToItems, c) * UpdatedIds(data, |data|) {
          assert Wants(o, c, d);
        }
      }
    } else {
      var d: Item :| Wants(o, c, d) && !Listed(o, c, d);
      var data := [Incoming(d, 0, true)];
      DisagreementIsSilent(o, c, d, 0);
      assert UpdatedIds(data, 0) == {} && UpdatedIds(data, 1) == {d};
      assert d in ValSet(o.clientToItems, c) * UpdatedIds(data, |data|);
      assert !IsNotified(o, data, c);
    }
  }

  /** Where the tables disagree, a report of the item does not reach its subscriber. */
  lemma DisagreementIsSilent(o: Observer, c: Client, d: Item, v: int)
    requires d in ValSet(o.clientToItems, c) && c !in ValSet(o.itemToClients, d)
    ensures c !in Step(o, Notify([Incoming(d, v, true)])).calls
  {
    var data := [Incoming(d, v, true)];
    assert UpdatedIds(data, 0) == {};
    assert UpdatedIds(data, 1) == {d};
  }

  // ------------------------------------------------------------------ runs

  function At(msgs: seq<Message>, k: nat): Observer
    requires k <= |msgs|
  {
    if k == 0 then EMPTY else Step(At(msgs, k - 1), msgs[k - 1]).next
  }

  /** On every run, whatever the other clients do: the tables agree on a client that never
      replaces a subscription it has. */
  lemma {:induction false} RunsAgreeOn(msgs: seq<Message>, k: nat, c: Client)
    requires k <= |msgs| && forall i :: 0 <= i < k ==> Posted(msgs[i]) && !UpdatesAgain(At(msgs, i), msgs[i], c)
    ensures AgreeOn(At(msgs, k), c) && Reached(At(msgs, k), c)
  {
    hide Step, UpdatesAgain, Posted;
    if k > 0 {
      RunsAgreeOn(msgs, k - 1, c);
      StepAgreesOnIff(At(msgs, k - 1), msgs[k - 1], c);
    }
  }

  lemma {:induction false} RunsKeepNoEmpty(msgs: seq<Message>, k: nat)
    requires k <= |msgs|
    ensures NoEmptyEntries(At(msgs, k))
  {
    hide Step;
    if k > 0 {
      RunsKeepNoEmpty(msgs, k - 1);
      StepKeepsNoEmpty(At(msgs, k - 1), msgs[k - 1]);
    }
  }

  /** The client replaces a subscription, keeping some of it. */
  predicate KeepsSome(o: Observer, m: Message, c: Client) {
    m.UpdateSubscription? && m.client == c && ValSet(o.clientToItems, c) * m.items != {}
  }

  /** On every run, whatever the other clients do: a client is notified as it should of every
      report from the last time it left on, or the beginning, until it replaces a
      subscription and keeps some of it. */
  lemma {:induction false} RunsReach(msgs: seq<Message>, j: nat, k: nat, c: Client)
    requires j <= k <= |msgs| && (j == 0 || msgs[j - 1] == UnsubscribeAll(c))
    requires forall i :: j <= i < k ==> !KeepsSome(At(msgs, i), msgs[i], c)
    ensures Reached(At(msgs, k), c)
    ensures forall data :: IsNotified(At(msgs, k), data, c)
  {
    hide Step, KeepsSome, Reached, IsNotified;
    if k > j {
      RunsReach(msgs, j, k - 1, c);
      StepReachesIff(At(msgs, k - 1), msgs[k - 1], c);
      KeepsReached(At(msgs, k - 1), msgs[k - 1], c);
    } else if k == 0 {
      NobodyIsMissed(c);
    } else {
      StepReachesIff(At(msgs, k - 1), msgs[k - 1], c);
    }
    AlwaysNotifiedIff(At(msgs, k), c);
  }

  lemma NobodyIsMissed(c: Client)
    ensures Reached(EMPTY, c)
  {
  }

  /** A client that is reached stays so exactly if it does not do that. */
  lemma KeepsReached(o: Observer, m: Message, c: Client)
    requires Reached(o, c)
    ensures ReachedBefore(o, m, c) <==> !KeepsSome(o, m, c)
  {
  }

  /** The first time it does, it is no longer reached. */
  lemma FirstKeptIsMissed(msgs: seq<Message>, k: nat, c: Client)
    requires k < |msgs| && Reached(At(msgs, k), c) && KeepsSome(At(msgs, k), msgs[k], c)
    ensures !Reached(At(msgs, k + 1), c)
  {
    hide Step, KeepsSome, Reached;
    StepReachesIff(At(msgs, k), msgs[k], c);
    KeepsReached(At(msgs, k), msgs[k], c);
  }

  /** A second update loses a kept item: the client is still owed item 1, but a report of
      item 1 reaches nobody, and the item is unsubscribed at the framework. */
  lemma UpdateLosesKeptItem()
    ensures var msgs := [SetSubscriptionObj, UpdateSubscription({1}, 5), UpdateSubscription({1, 2}, 5)];
      && ValSet(At(msgs, 3).clientToItems, 5) == {1, 2}
      && At(msgs, 3).framework == {2}
      && Step(At(msgs, 3), Notify([Incoming(1, 42, true)])).calls == map[]
  {
    var msgs := [SetSubscriptionObj, UpdateSubscription({1}, 5), UpdateSubscription({1, 2}, 5)];
    var o1 := Observer(map[], map[], map[], true, {});
    assert At(msgs, 1) == o1;
    var o2 := Observer(map[5 := {1}], map[1 := {5}], map[], true, {1});
    assert Step(o1, msgs[1]).next == o2 by {
      assert {1} - ValSet(o1.clientToItems, 5) == {1};
      NothingDone(o1.itemToClients, {5});
      FirstEntry(1, {5});
    }
    assert At(msgs, 2) == o2;
    var o3 := Observer(map[5 := {1, 2}], map[2 := {5}], map[], true, {2});
    SecondUpdate(o2, o3);
    assert At(msgs, 3) == o3;
    var data := [Incoming(1, 42, true)];
    assert UpdatedIds(data, 1) == {1};
    assert ClientsOf(o3.itemToClients, {1}) == {};
  }

  lemma SecondUpdate(o2: Observer, o3: Observer)
    requires o2 == Observer(map[5 := {1}], map[1 := {5}], map[], true, {1})
    requires o3 == Observer(map[5 := {1, 2}], map[2 := {5}], map[], true, {2})
    ensures Step(o2, UpdateSubscription({1, 2}, 5)).next == o3
  {
    assert HandedBack(o2.clientToItems, 5, {1, 2}) == {1};
    assert Trimmed(o2.itemToClients, {1}, {5}) == map[];
    assert {1, 2} - ValSet(o2.clientToItems, 5) == {2};
    FirstEntry(2, {5});
    assert GoneKeys(o2.itemToClients, {1}, {5}) == {1};
  }

  lemma FirstEntry(d: Item, clients: set<Client>)
    requires clients != {}
    ensures Added(map[], {d}, clients) == map[d := clients]
  {
    var none: map<Item, set<Client>> := map[];
    AddedEntry(none, {d}, clients, d);
    assert Added(none, {d}, clients).Keys == {d};
    assert {} + clients == clients;
  }

  // ------------------------------------------------------------------ the framework

  /** Once there is a subscription object, the framework is asked for nothing but items that
      somebody is listed under. */
  ghost predicate FrameworkWithin(o: Observer) {
    if o.attached then o.framework <= o.itemToClients.Keys else o.framework == {}
  }

  /** And for all of them. */
  ghost predicate FrameworkFits(o: Observer) {
    if o.attached then o.framework == o.itemToClients.Keys else o.framework == {}
  }

  /** A client requests data of an item that nobody is listed under, which the framework is
      not asked for. */
  predicate RequestsNewItem(o: Observer, m: Message) {
    m.Subscribe? && m.requestData && o.attached && !(m.items <= o.itemToClients.Keys)
  }

  lemma KeysAfter(o: Observer, m: Message)
    requires Posted(m)
    ensures var n := Step(o, m).next;
      && (m.Subscribe? ==> n.itemToClients.Keys == o.itemToClients.Keys + m.items)
      && (m.UpdateSubscription? ==>
            && n.itemToClients.Keys ==
                 o.itemToClients.Keys - GoneKeys(o.itemToClients, HandedBack(o.clientToItems, m.client, m.items), {m.client})
                 + (m.items - ValSet(o.clientToItems, m.client)))
      && (m.Unsubscribe? ==>
            n.itemToClients.Keys ==
              o.itemToClients.Keys - GoneKeys(o.itemToClients, GoneVals(o.clientToItems, {m.client}, m.items), {m.client}))
      && (m.UnsubscribeAll? ==>
            n.itemToClients.Keys ==
              o.itemToClients.Keys - GoneKeys(o.itemToClients, ValSet(o.clientToItems, m.client), {m.client}))
      && (m.Notify? || m.SetSubscriptionObj? ==> n.itemToClients == o.itemToClients)
  {
    match m {
      case UpdateSubscription(items, c) =>
        TrimmedKeys(o.itemToClients, HandedBack(o.clientToItems, c, items), {c});
      case Unsubscribe(items, c) =>
        TrimmedKeys(o.itemToClients, GoneVals(o.clientToItems, {c}, items), {c});
      case UnsubscribeAll(c) =>
        TrimmedKeys(o.itemToClients, ValSet(o.clientToItems, c), {c});
      case _ =>
    }
  }

  lemma TrimmedKeys(m: map<Item, set<Client>>, keys: set<Item>, vals: set<Client>)
    ensures Trimmed(m, keys, vals).Keys == m.Keys - GoneKeys(m, keys, vals)
  {
  }

  /** Of every message: what the framework is asked for stays within what is listed, and
      stays all of it exactly if the message is not a request for a new item. */
  lemma StepFitsFrameworkIff(o: Observer, m: Message)
    requires Posted(m) && FrameworkWithin(o)
    ensures FrameworkWithin(Step(o, m).next)
    ensures FrameworkFits(o) ==> (FrameworkFits(Step(o, m).next) <==> !RequestsNewItem(o, m))
    ensures m == SetSubscriptionObj ==> FrameworkFits(Step(o, m).next)
  {
    KeysAfter(o, m);
  }

  /** On every run the framework is asked only for items somebody is listed under; and for
      all of them from the beginning, or the last time the subscription object was set, as
      long as no request brings in a new item. */
  lemma {:induction false} FrameworkFollowsSubscriptions(msgs: seq<Message>, j: nat, k: nat)
    requires j <= k <= |msgs| && forall i :: 0 <= i < k ==> Posted(msgs[i])
    ensures FrameworkWithin(At(msgs, k))
    ensures (j == 0 || msgs[j - 1] == SetSubscriptionObj) && (forall i :: j <= i < k ==> !RequestsNewItem(At(msgs, i), msgs[i]))
      ==> FrameworkFits(At(msgs, k))
  {
    hide Step, RequestsNewItem, Posted, FrameworkWithin, FrameworkFits;
    if k > j {
      FrameworkFollowsSubscriptions(msgs, j, k - 1);
      StepFitsFrameworkIff(At(msgs, k - 1), msgs[k - 1]);
    } else if k == 0 {
      NothingAsked();
    } else {
      FrameworkFollowsSubscriptions(msgs, k - 1, k - 1);
      StepFitsFrameworkIff(At(msgs, k - 1), msgs[k - 1]);
    }
  }

  lemma NothingAsked()
    ensures FrameworkWithin(EMPTY) && FrameworkFits(EMPTY)
  {
  }

  /** The first such request ends that. */
  lemma FirstNewItemIsNotAsked(msgs: seq<Message>, k: nat)
    requires k < |msgs| && (forall i :: 0 <= i <= k ==> Posted(msgs[i]))
    requires FrameworkFits(At(msgs, k)) && RequestsNewItem(At(msgs, k), msgs[k])
    ensures !FrameworkFits(At(msgs, k + 1))
  {
    hide Step, RequestsNewItem, FrameworkWithin, FrameworkFits;
    FrameworkFollowsSubscriptions(msgs, 0, k);
    StepFitsFrameworkIff(At(msgs, k), msgs[k]);
  }

  /** A first request for data: the client is listed under the item, and the framework is not
      asked for it. */
  lemma RequestIsNotAsked()
    ensures var msgs := [SetSubscriptionObj, Subscribe({1}, 5, true)];
      FrameworkFits(At(msgs, 1)) && At(msgs, 2).itemToClients.Keys == {1} && At(msgs, 2).framework == {}
  {
    hide Step;
    var msgs := [SetSubscriptionObj, Subscribe({1}, 5, true)];
    assert At(msgs, 0) == EMPTY;
    assert At(msgs, 1) == Step(EMPTY, SetSubscriptionObj).next && At(msgs, 2) == Step(At(msgs, 1), msgs[1]).next;
    SetOfNothing();
    FirstRequest(At(msgs, 1));
  }

  lemma SetOfNothing()
    ensures Step(EMPTY, SetSubscriptionObj).next == EMPTY.(attached := true)
  {
  }

  lemma FirstRequest(o: Observer)
    requires o == EMPTY.(attached := true)
    ensures var n := Step(o, Subscribe({1}, 5, true)).next; n.itemToClients.Keys == {1} && n.framework == {}
  {
    KeysAfter(o, Subscribe({1}, 5, true));
  }
}
