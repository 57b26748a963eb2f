/** SystemStatusOsObserver: the message handlers, updating the two tables and the cache in
    place. Clients and the framework are seen through ghost records of what they got. */
module Observer {
  import opened SetMap
  import M = ObserverModel
  import opened ObserverModel

  /** The notify calls a client has received, oldest first. */
  ghost function Received(h: map<Client, seq<Payload>>, c: Client): seq<Payload> {
    if c in h then h[c] else []
  }

  /** h' extends h by one call for each client of calls, and by nothing else. */
  ghost predicate Delivered(h: map<Client, seq<Payload>>, calls: map<Client, Payload>, h': map<Client, seq<Payload>>) {
    forall c :: Received(h', c) == Received(h, c) + (if c in calls then [calls[c]] else [])
  }

  class SystemStatusOsObserver {
    const clientToDataItems: LocUnorderedSetMap<Client, Item>
    const dataItemToClients: LocUnorderedSetMap<Item, Client>
    var dataItemCache: map<Item, int>
    var subscriptionObj: bool
    ghost var framework: set<Item>
    ghost var history: map<Client, seq<Payload>>

    /** The two tables are separate objects. */
    ghost predicate Valid()
    {
      clientToDataItems != dataItemToClients
    }

    ghost function Abs(): M.Observer
      reads this, clientToDataItems, dataItemToClients
    {
      M.Observer(clientToDataItems.entries, dataItemToClients.entries, dataItemCache, subscriptionObj, framework)
    }

    constructor ()
      ensures Valid() && Abs() == EMPTY && history == map[]
    {
      clientToDataItems := new LocUnorderedSetMap();
      dataItemToClients := new LocUnorderedSetMap();
      dataItemCache := map[];
      subscriptionObj := false;
      framework := {};
      history := map[];
    }

    // ------------------------------------------------------------ framework and clients

    method FrameworkSubscribe(items: set<Item>)
      modifies `framework
      ensures framework == old(framework) + items
    {
      framework := framework + items;
    }

    method FrameworkUnsubscribe(items: set<Item>)
      modifies `framework
      ensures framework == old(framework) - items
    {
      framework := framework - items;
    }

    method NotifyClient(c: Client, p: Payload)
      modifies `history
      ensures history == old(history)[c := Received(old(history), c) + [p]]
    {
      history := history[c := Received(history, c) + [p]];
    }

    /** Sends the client what the cache holds of the items, in one call, if anything. */
    method SendCachedDataItems(items: set<Item>, to: Client)
      modifies `history
      ensures Cached(dataItemCache, items) == map[] ==> history == old(history)
      ensures Cached(dataItemCache, items) != map[] ==>
        history == old(history)[to := Received(old(history), to) + [Cached(dataItemCache, items)]]
      ensures Delivered(old(history), CallWith(to, Cached(dataItemCache, items)), history)
    {
      var dataItems: Payload := map[];
      var todo := items;
      while todo != {}
        invariant todo <= items
        invariant dataItems == Cached(dataItemCache, items - todo)
        decreases |todo|
      {
        var each :| each in todo;
        todo := todo - {each};
        if each in dataItemCache {
          dataItems := dataItems[each := dataItemCache[each]];
        }
      }
      assert items - todo == items;
      if dataItems != map[] {
        NotifyClient(to, dataItems);
      }
    }

    // ------------------------------------------------------------ messages

    method SetSubscriptionObject()
      modifies this
      ensures Abs() == Step(old(Abs()), SetSubscriptionObj).next && history == old(history)
    {
      subscriptionObj := true;
      if dataItemToClients.entries != map[] {
        FrameworkSubscribe(dataItemToClients.entries.Keys);
      } else {
        assert dataItemToClients.entries.Keys == {};
      }
    }

    /** An empty item list or a null client is ignored. */
    method SubscribeTo(l: seq<Item>, client: Client, toRequestData: bool)
      requires Valid()
      modifies this, clientToDataItems, dataItemToClients
      ensures var items := set d | d in l;
        if l == [] || client == 0 then Abs() == old(Abs()) && history == old(history)
        else
          var r := Step(old(Abs()), Subscribe(items, client, toRequestData));
          Abs() == r.next && Delivered(old(history), r.calls, history)
    {
      hide Trimmed, Added, GoneKeys, GoneVals, NewKeys, Updated, HandedBack, Cached, CallWith, Delivered;
      if l == [] || client == 0 {
        return;
      }
      var items := set d | d in l;
      var toSubscribe := dataItemToClients.AddAll(items, {client});
      var isNew := clientToDataItems.AddEntry(client, items);
      SendCachedDataItems(items, client);
      if subscriptionObj {
        if toRequestData {
          // requestData goes to the framework; its subscription set stays
        } else if toSubscribe != {} {
          FrameworkSubscribe(toSubscribe);
        }
      }
      assert framework + {} == framework;
    }

    method UpdateSubscriptionTo(l: seq<Item>, client: Client)
      requires Valid()
      modifies this, clientToDataItems, dataItemToClients
      ensures var items := set d | d in l;
        if l == [] || client == 0 then Abs() == old(Abs()) && history == old(history)
        else
          var r := Step(old(Abs()), UpdateSubscription(items, client));
          Abs() == r.next && Delivered(old(history), r.calls, history)
    {
      hide Trimmed, Added, GoneKeys, GoneVals, NewKeys, Updated, HandedBack, Cached, CallWith, Delivered;
      if l == [] || client == 0 {
        return;
      }
      var items := set d | d in l;
      assert l[0] in items;
      var handedBack, newItems := clientToDataItems.Update(client, items);
      var toUnsubscribe, gone := dataItemToClients.TrimOrRemove(handedBack, {client});
      var toSubscribe := dataItemToClients.AddAll(newItems, {client});
      SendCachedDataItems(newItems, client);
      ghost var was := framework;
      if subscriptionObj {
        if toSubscribe != {} {
          FrameworkSubscribe(toSubscribe);
        }
        if toUnsubscribe != {} {
          FrameworkUnsubscribe(toUnsubscribe);
        }
      }
      assert framework == if subscriptionObj then was + toSubscribe - toUnsubscribe else was;
    }

    method UnsubscribeFrom(l: seq<Item>, client: Client)
      requires Valid()
      modifies this, clientToDataItems, dataItemToClients
      ensures var items := set d | d in l;
        Abs() == (if l == [] || client == 0 then old(Abs()) else Step(old(Abs()), Unsubscribe(items, client)).next)
        && history == old(history)
    {
      hide Trimmed, Added, GoneKeys, GoneVals, NewKeys, Updated, HandedBack, Cached, CallWith, Delivered;
      if l == [] || client == 0 {
        return;
      }
      var items := set d | d in l;
      var clientGone, unused := clientToDataItems.TrimOrRemove({client}, items);
      var toUnsubscribe, gone := dataItemToClients.TrimOrRemove(unused, {client});
      if subscriptionObj && toUnsubscribe != {} {
        FrameworkUnsubscribe(toUnsubscribe);
      }
      assert framework - {} == framework;
    }

    method UnsubscribeFromAll(client: Client)
      requires Valid()
      modifies this, clientToDataItems, dataItemToClients
      ensures Abs() == (if client == 0 then old(Abs()) else Step(old(Abs()), UnsubscribeAll(client)).next)
      ensures history == old(history)
    {
      hide Trimmed, Added, GoneKeys, GoneVals, NewKeys, Updated, HandedBack, Cached, CallWith, Delivered;
      if client == 0 {
        return;
      }
      var byClient := if client in clientToDataItems.entries then clientToDataItems.entries[client] else {};
      if byClient != {} {
        clientToDataItems.Remove(client);
        var toUnsubscribe, gone := dataItemToClients.TrimOrRemove(byClient, {client});
        if toUnsubscribe != {} && subscriptionObj {
          FrameworkUnsubscribe(toUnsubscribe);
        }
        assert framework - {} == framework;
      }
    }

    /** Records an accepted item in the cache; reports whether it was taken. */
    method UpdateCache(item: Incoming) returns (updated: bool)
      modifies `dataItemCache
      ensures updated == item.accepted
      ensures dataItemCache == if item.accepted then old(dataItemCache)[item.id := item.value] else old(dataItemCache)
    {
      updated := false;
      if item.accepted {
        updated := true;
        dataItemCache := dataItemCache[item.id := item.value];
      }
    }

    method CollectClients(ids: set<Item>) returns (clients: set<Client>)
      ensures clients == ClientsOf(dataItemToClients.entries, ids)
    {
      clients := {};
      var todo := ids;
      while todo != {}
        invariant todo <= ids
        invariant clients == ClientsOf(dataItemToClients.entries, ids - todo)
        decreases |todo|
      {
        var each :| each in todo;
        todo := todo - {each};
        if each in dataItemToClients.entries {
          clients := clients + dataItemToClients.entries[each];
        }
      }
      assert ids - todo == ids;
    }

    method OnNotify(data: seq<Incoming>)
      modifies `dataItemCache, `history
      ensures var r := Step(old(Abs()), Notify(data));
        Abs() == r.next && Delivered(old(history), r.calls, history)
    {
      var ids: set<Item> := {};
      for i := 0 to |data|
        invariant dataItemCache == CacheAfter(old(dataItemCache), data, i)
        invariant ids == UpdatedIds(data, i)
        invariant history == old(history)
      {
        var updated := UpdateCache(data[i]);
        if updated {
          ids := ids + {data[i].id};
        }
      }
      var clients := CollectClients(ids);
      DeliverTo(clients, ids);
    }

    /** Sends each client those of the updated items that it subscribes to. */
    method DeliverTo(clients: set<Client>, ids: set<Item>)
      requires clients == ClientsOf(dataItemToClients.entries, ids)
      modifies `history
      ensures Delivered(old(history), CallsFor(Abs(), dataItemCache, ids), history)
    {
      var todo := clients;
      while todo != {}
        invariant todo <= clients
        invariant forall c :: c in todo || c !in clients ==> Received(history, c) == Received(old(history), c)
        invariant forall c :: c in clients - todo ==>
          Received(history, c) == Received(old(history), c) + Sent(c, ids)
        decreases |todo|
      {
        var c :| c in todo;
        todo := todo - {c};
        DeliverOne(c, ids);
      }
    }

    method DeliverOne(c: Client, ids: set<Item>)
      modifies `history
      ensures forall x :: Received(history, x) == Received(old(history), x) + (if x == c then Sent(c, ids) else [])
    {
      var mine := if c in clientToDataItems.entries then clientToDataItems.entries[c] else {};
      var kept := KeepOnly(mine, ids);
      SendCachedDataItems(kept, c);
    }

    ghost function Sent(c: Client, ids: set<Item>): seq<Payload>
      reads `dataItemCache, clientToDataItems
    {
      var p := Cached(dataItemCache, ValSet(clientToDataItems.entries, c) * ids);
      if p == map[] then [] else [p]
    }

    /** Erases from items those that are not in ids. */
    method KeepOnly(items: set<Item>, ids: set<Item>) returns (kept: set<Item>)
      ensures kept == items * ids
    {
      kept := items;
      var todo := items;
      while todo != {}
        invariant todo <= items
        invariant kept == (items - todo) * ids + todo
        decreases |todo|
      {
        var d :| d in todo;
        todo := todo - {d};
        if d !in ids {
          kept := kept - {d};
        }
      }
    }
  }
}
