/** Who is called with what, and what the framework is asked, told from the tables and the
    cache alone. */
module ObserverCalls {
  import opened Wrappers
  import opened SetMap
  import opened ObserverModel

  // ------------------------------------------------------------------ calls

  /** The client subscribes to the item now; by an update only if it did not want it. */
  predicate ComesIn(o: Observer, m: Message, c: Client, d: Item) {
    (m.Subscribe? || m.UpdateSubscription?) && m.client == c && d in m.items && (m.UpdateSubscription? ==> !Wants(o, c, d))
  }

  /** Of every subscription message in every state: a client is called exactly if items come
      in for it of which the cache has a value, and is sent exactly those values. */
  lemma SubscriptionCallsIff(o: Observer, m: Message, c: Client)
    requires !m.Notify?
    ensures var calls := Step(o, m).calls;
      && (c in calls <==> exists d: Item :: ComesIn(o, m, c, d) && d in o.cache)
      && (c in calls ==> forall d: Item :: d in calls[c] <==> ComesIn(o, m, c, d) && d in o.cache)
      && (c in calls ==> forall d: Item :: d in calls[c] ==> calls[c][d] == o.cache[d])
  {
    if m.Subscribe? || m.UpdateSubscription? {
      var items := if m.Subscribe? then m.items else m.items - ValSet(o.clientToItems, m.client);
      assert forall d: Item :: ComesIn(o, m, m.client, d) <==> d in items;
      CachedIff(o.cache, items);
    }
  }

  lemma CachedIff(cache: map<Item, int>, items: set<Item>)
    ensures Cached(cache, items) != map[] <==> exists d: Item :: d in items && d in cache
    ensures forall d: Item :: d in Cached(cache, items) <==> d in items && d in cache
    ensures forall d: Item :: d in Cached(cache, items) ==> Cached(cache, items)[d] == cache[d]
  {
    if d: Item :| d in items && d in cache {
      assert d in Cached(cache, items);
    }
    if Cached(cache, items) != map[] {
      var d :| d in Cached(cache, items).Keys;
    }
  }

  /** Of every report in every state: a client is called exactly if it is listed under an
      updated item and wants an updated one, and is sent exactly the last values of those it
      wants. */
  lemma ReportCallsIff(o: Observer, data: seq<Incoming>, c: Client)
    ensures var calls := Step(o, Notify(data)).calls;
      && (c in calls <==>
            && (exists d :: d in UpdatedIds(data, |data|) && Listed(o, c, d))
            && (exists d :: d in UpdatedIds(data, |data|) && Wants(o, c, d)))
      && (c in calls ==> forall d: Item :: d in calls[c] <==> d in UpdatedIds(data, |data|) && Wants(o, c, d))
      && (c in calls ==> forall d: Item :: d in calls[c] ==> LastIn(data, |data|, d) == Some(calls[c][d]))
  {
    hide UpdatedIds, CacheAfter, LastIn, ClientsOf;
    var ids, cache := UpdatedIds(data, |data|), CacheAfter(o.cache, data, |data|);
    var mine := ValSet(o.clientToItems, c) * ids;
    ListedIsClient(o, ids, c);
    CachedIff(cache, mine);
    forall d
      ensures d in ids <==> LastIn(data, |data|, d).Some?
      ensures d in ids ==> d in cache && LastIn(data, |data|, d) == Some(cache[d])
    {
      LastIsCached(o.cache, data, |data|, d);
    }
    assert (exists d :: d in ids && Wants(o, c, d)) <==> exists d: Item :: d in mine && d in cache;
  }

  // ------------------------------------------------------------------ the cache

  /** The last accepted value of the item among the first n. */
  function LastIn(data: seq<Incoming>, n: nat, d: Item): Option<int>
    requires n <= |data|
  {
    if n == 0 then None
    else if data[n - 1].accepted && data[n - 1].id == d then Some(data[n - 1].value)
    else LastIn(data, n - 1, d)
  }

  lemma {:induction false} LastIsCached(cache: map<Item, int>, data: seq<Incoming>, n: nat, d: Item)
    requires n <= |data|
    ensures d in UpdatedIds(data, n) <==> LastIn(data, n, d).Some?
    ensures var after := CacheAfter(cache, data, n);
      match LastIn(data, n, d)
      case Some(v) => d in after && after[d] == v
      case None => (d in after <==> d in cache) && (d in cache ==> after[d] == cache[d])
  {
    if n > 0 {
      LastIsCached(cache, data, n - 1, d);
    }
  }

  /** The last accepted value of the item in all reports of the first k messages. */
  function LastValue(msgs: seq<Message>, k: nat, d: Item): Option<int>
    requires k <= |msgs|
  {
    if k == 0 then None
    else if msgs[k - 1].Notify? && LastIn(msgs[k - 1].data, |msgs[k - 1].data|, d).Some?
    then LastIn(msgs[k - 1].data, |msgs[k - 1].data|, d)
    else LastValue(msgs, k - 1, d)
  }

  /** Of every message: the cache changes with a report alone, and the subscription object is
      there once it has been set. */
  lemma StepKeepsRest(o: Observer, m: Message)
    ensures !m.Notify? ==> Step(o, m).next.cache == o.cache
    ensures Step(o, m).next.attached <==> o.attached || m == SetSubscriptionObj
  {
    hide Added, Trimmed, Updated, GoneKeys, GoneVals, NewKeys, HandedBack, ValSet;
  }

  /** On every run the cache holds exactly the last accepted values of all reports. */
  lemma {:induction false} CacheIsLastValue(msgs: seq<Message>, k: nat, d: Item)
    requires k <= |msgs|
    ensures var cache := At(msgs, k).cache;
      LastValue(msgs, k, d) == if d in cache then Some(cache[d]) else None
  {
    hide Step, LastIn;
    if k > 0 {
      CacheIsLastValue(msgs, k - 1, d);
      var o, m := At(msgs, k - 1), msgs[k - 1];
      StepKeepsRest(o, m);
      if m.Notify? {
        LastIsCached(o.cache, m.data, |m.data|, d);
        ReportCaches(o, m.data);
      }
    }
  }

  lemma ReportCaches(o: Observer, data: seq<Incoming>)
    ensures Step(o, Notify(data)).next.cache == CacheAfter(o.cache, data, |data|)
  {
  }

  /** On every run: a client that subscribes is sent at once the last accepted value of every
      item that comes in and has one, and nothing else; nobody else is called. */
  lemma SubscriberIsSentLast(msgs: seq<Message>, k: nat, c: Client)
    requires k < |msgs| && !msgs[k].Notify?
    ensures var calls := Step(At(msgs, k), msgs[k]).calls;
      && (c in calls <==> exists d: Item :: ComesIn(At(msgs, k), msgs[k], c, d) && LastValue(msgs, k, d).Some?)
      && (c in calls ==> forall d: Item ::
            d in calls[c] <==> ComesIn(At(msgs, k), msgs[k], c, d) && LastValue(msgs, k, d).Some?)
      && (c in calls ==> forall d: Item :: d in calls[c] ==> LastValue(msgs, k, d) == Some(calls[c][d]))
  {
    hide Step, At, LastValue, ComesIn;
    var o := At(msgs, k);
    SubscriptionCallsIff(o, msgs[k], c);
    forall d: Item
      ensures LastValue(msgs, k, d) == if d in o.cache then Some(o.cache[d]) else None
    {
      CacheIsLastValue(msgs, k, d);
    }
  }

  /** The cache has a value of the item that a client subscribes to: it is sent at once. */
  lemma SubscriberIsCalled()
    ensures Step(EMPTY.(cache := map[1 := 42]), Subscribe({1}, 5, false)).calls == map[5 := map[1 := 42]]
  {
    var o := EMPTY.(cache := map[1 := 42]);
    SubscriptionCallsIff(o, Subscribe({1}, 5, false), 5);
    assert ComesIn(o, Subscribe({1}, 5, false), 5, 1);
    var calls := Step(o, Subscribe({1}, 5, false)).calls;
    assert calls[5] == map[1 := 42];
  }

  // ------------------------------------------------------------------ the framework

  /** Nobody but the client is listed under the item. */
  predicate OnlyListed(o: Observer, c: Client, d: Item) {
    d in o.itemToClients && o.itemToClients[d] <= {c}
  }

  /** What the framework is asked for after a message, item by item. */
  predicate AskedAfter(o: Observer, m: Message, d: Item) {
    match m
    case SetSubscriptionObj => d in o.framework || d in o.itemToClients
    case Subscribe(items, _, request) =>
      d in o.framework || (o.attached && !request && d in items && d !in o.itemToClients)
    case UpdateSubscription(items, c) =>
      if !o.attached then d in o.framework
      else if d in items && Wants(o, c, d) then d in o.framework && !OnlyListed(o, c, d)
      else d in o.framework || (d in items && d !in o.itemToClients)
    case Unsubscribe(items, c) =>
      d in o.framework && !(o.attached && d in items && Wants(o, c, d) && OnlyListed(o, c, d))
    case UnsubscribeAll(c) =>
      d in o.framework && !(o.attached && Wants(o, c, d) && OnlyListed(o, c, d))
    case Notify(_) => d in o.framework
  }

  /** Of every message in every state. */
  lemma StepAsksIff(o: Observer, m: Message, d: Item)
    ensures d in Step(o, m).next.framework <==> AskedAfter(o, m, d)
  {
    if m.Unsubscribe? {
      GoneValsOfOne(o.clientToItems, m.client, m.items);
    }
  }
}
