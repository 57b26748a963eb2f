/** Geofences by the id the engine gave them, and by the key their client knows them by:
    two maps that have to agree. */
module Geofence {
  import opened Wrappers

  datatype Key = Key(client: nat, id: nat)

  datatype Options = Options(breachMask: nat, responsiveness: nat, dwellTime: nat)

  /** The place is its latitude, longitude and radius. */
  datatype Place = Place(latitude: real, longitude: real, radius: real)

  datatype Fence = Fence(key: Key, options: Options, place: Place, paused: bool)

  datatype Fences = Fences(byHwId: map<nat, Fence>, byKey: map<Key, nat>)

  /** What the engine answers is part of the event: ok, the hwId of a fence that was added,
      the ids it refused to remove. Fences are added again in the given order. */
  datatype Event =
    | Add(key: Key, options: Options, place: Place, answer: Option<nat>)
    | Remove(key: Key, ok: bool)
    | Pause(key: Key, ok: bool)
    | Resume(key: Key, ok: bool)
    | Modify(key: Key, options: Options, ok: bool)
    | ClientGone(client: nat, refused: set<nat>)
    | Restart(order: seq<nat>, answers: seq<Option<nat>>)

  const NONE := Fences(map[], map[])

  // ------------------------------------------------------------------ the transition

  function Saved(g: Fences, key: Key, hwId: nat, options: Options, place: Place): Fences {
    Fences(g.byHwId[hwId := Fence(key, options, place, false)], g.byKey[key := hwId])
  }

  function RemovedItem(g: Fences, hwId: nat): Fences {
    if hwId in g.byHwId && g.byHwId[hwId].key in g.byKey
    then Fences(g.byHwId - {hwId}, g.byKey - {g.byHwId[hwId].key})
    else g
  }

  function WithFence(g: Fences, hwId: nat, f: Fence): Fences {
    if hwId in g.byHwId then g.(byHwId := g.byHwId[hwId := f]) else g
  }

  function OfClient(g: Fences, client: nat): set<Key> {
    set k | k in g.byKey && k.client == client
  }

  /** The fences under these keys that the engine has removed. */
  function ClearedIn(g: Fences, keys: set<Key>, refused: set<nat>): set<nat>
    requires keys <= g.byKey.Keys
  {
    set k | k in keys && g.byKey[k] !in refused :: g.byKey[k]
  }

  function Cleared(g: Fences, client: nat, refused: set<nat>): set<nat> {
    ClearedIn(g, OfClient(g, client), refused)
  }

  function OnClientGone(g: Fences, client: nat, refused: set<nat>): Fences {
    Fences(g.byHwId - Cleared(g, client, refused), g.byKey - OfClient(g, client))
  }

  /** The first n fences added again, to empty maps. */
  function Restarted(g: Fences, order: seq<nat>, answers: seq<Option<nat>>, n: nat): Fences
    requires n <= |order| == |answers| && forall h :: h in order ==> h in g.byHwId
  {
    if n == 0 then NONE
    else
      var r, f := Restarted(g, order, answers, n - 1), g.byHwId[order[n - 1]];
      match answers[n - 1]
      case None => r
      case Some(hwId) => Saved(r, f.key, hwId, f.options, f.place)
  }

  /** The pause requests that go to the engine during a restart, in order. */
  function Pauses(g: Fences, order: seq<nat>, answers: seq<Option<nat>>, n: nat): seq<(nat, nat)>
    requires n <= |order| == |answers| && forall h :: h in order ==> h in g.byHwId
  {
    if n == 0 then []
    else
      var f := g.byHwId[order[n - 1]];
      Pauses(g, order, answers, n - 1)
      + if answers[n - 1].Some? && f.paused then [(answers[n - 1].value, f.key.id)] else []
  }

  /** Every fence once, and what the engine answers for each. */
  ghost predicate Enumerates(g: Fences, order: seq<nat>, answers: seq<Option<nat>>) {
    && |order| == |answers|
    && (forall h :: h in order <==> h in g.byHwId)
    && (forall i, j :: 0 <= i < j < |order| ==> order[i] != order[j])
  }

  predicate NoneTwice(answers: seq<Option<nat>>) {
    forall i, j :: 0 <= i < j < |answers| && answers[i].Some? ==> answers[i] != answers[j]
  }

  /** And the engine gives no id twice. */
  ghost predicate InOrder(g: Fences, order: seq<nat>, answers: seq<Option<nat>>) {
    Enumerates(g, order, answers) && NoneTwice(answers)
  }

  /** A restart goes through the fences there are; the key of a fence that is added is new. */
  ghost predicate CanHappen(g: Fences, e: Event) {
    match e
    case Add(key, _, _, _) => forall h :: h in g.byHwId ==> g.byHwId[h].key != key
    case Restart(order, answers) => Enumerates(g, order, answers)
    case _ => true
  }

  function HwIdOf(g: Fences, key: Key, ok: bool): Option<nat> {
    if key in g.byKey && ok then Some(g.byKey[key]) else None
  }

  ghost function Step(g: Fences, e: Event): Fences
    requires e.Restart? ==> Enumerates(g, e.order, e.answers)
  {
    match e
    case Add(key, options, place, answer) =>
      if answer.Some? then Saved(g, key, answer.value, options, place) else g
    case Remove(key, ok) =>
      (match HwIdOf(g, key, ok)
       case None => g
       case Some(h) => RemovedItem(g, h))
    case Pause(key, ok) =>
      (match HwIdOf(g, key, ok)
       case None => g
       case Some(h) => if h in g.byHwId then WithFence(g, h, g.byHwId[h].(paused := true)) else g)
    case Resume(key, ok) =>
      (match HwIdOf(g, key, ok)
       case None => g
       case Some(h) => if h in g.byHwId then WithFence(g, h, g.byHwId[h].(paused := false)) else g)
    case Modify(key, options, ok) =>
      (match HwIdOf(g, key, ok)
       case None => g
       case Some(h) => if h in g.byHwId then WithFence(g, h, g.byHwId[h].(options := options)) else g)
    case ClientGone(client, refused) => OnClientGone(g, client, refused)
    case Restart(order, answers) => if g.byHwId == map[] then g else Restarted(g, order, answers, |order|)
  }

  // ------------------------------------------------------------------ agreement

  /** Every key leads to a fence that carries it, and no two fences carry the same. */
  ghost predicate Agree(g: Fences) {
    && (forall k :: k in g.byKey ==> g.byKey[k] in g.byHwId && g.byHwId[g.byKey[k]].key == k)
    && (forall h, i :: h in g.byHwId && i in g.byHwId && h != i ==> g.byHwId[h].key != g.byHwId[i].key)
  }

  /** Every fence can be reached by its key. */
  ghost predicate NoOrphans(g: Fences) {
    forall h :: h in g.byHwId ==> g.byHwId[h].key in g.byKey
  }

  lemma KeysApart(g: Fences, j: Key, k: Key)
    requires Agree(g) && j in g.byKey && k in g.byKey && j != k
    ensures g.byKey[j] != g.byKey[k]
  {
  }

  lemma ClientGoneAgrees(g: Fences, client: nat, refused: set<nat>)
    requires Agree(g)
    ensures Agree(OnClientGone(g, client, refused))
  {
    var n := OnClientGone(g, client, refused);
    forall k | k in n.byKey
      ensures n.byKey[k] in n.byHwId
    {
      forall c | c in OfClient(g, client)
        ensures g.byKey[c] != g.byKey[k]
      {
        KeysApart(g, c, k);
      }
    }
  }

  /** The fence that was i-th is in both maps, under its new id. */
  ghost predicate IsBack(g: Fences, order: seq<nat>, answers: seq<Option<nat>>, r: Fences, i: nat)
    requires i < |order| == |answers| && answers[i].Some? && order[i] in g.byHwId
  {
    var f, h := g.byHwId[order[i]], answers[i].value;
    h in r.byHwId && r.byHwId[h] == f.(paused := false) && f.key in r.byKey && r.byKey[f.key] == h
  }

  lemma SavedIsBack(r: Fences, f: Fence, h: nat, options: Options, place: Place, key: Key, other: nat)
    requires f.key in r.byKey && h in r.byHwId && other != h && key != f.key
    ensures var s := Saved(r, key, other, options, place);
      h in s.byHwId && s.byHwId[h] == r.byHwId[h] && f.key in s.byKey && s.byKey[f.key] == r.byKey[f.key]
  {
  }

  lemma {:induction false} RestartedHas(g: Fences, order: seq<nat>, answers: seq<Option<nat>>, n: nat, i: nat)
    requires Agree(g) && InOrder(g, order, answers) && i < n <= |order| && answers[i].Some?
    ensures order[i] in g.byHwId && IsBack(g, order, answers, Restarted(g, order, answers, n), i)
  {
    assert order[i] in order && order[n - 1] in order;
    if i < n - 1 {
      RestartedHas(g, order, answers, n - 1, i);
      var r, f, last := Restarted(g, order, answers, n - 1), g.byHwId[order[i]], g.byHwId[order[n - 1]];
      if answers[n - 1].Some? {
        assert answers[i] != answers[n - 1];
        SavedIsBack(r, f, answers[i].value, last.options, last.place, last.key, answers[n - 1].value);
      }
    }
  }

  lemma RestartedOnly(g: Fences, order: seq<nat>, answers: seq<Option<nat>>, n: nat)
    requires InOrder(g, order, answers) && n <= |order|
    ensures var r := Restarted(g, order, answers, n);
      && (forall h :: h in r.byHwId ==> exists i :: 0 <= i < n && answers[i] == Some(h))
      && (forall k :: k in r.byKey ==> exists i :: 0 <= i < n && answers[i].Some? && g.byHwId[order[i]].key == k)
  {
    hide Restarted, NoneTwice;
    var r := Restarted(g, order, answers, n);
    forall h | h in r.byHwId
      ensures exists i :: 0 <= i < n && answers[i] == Some(h)
    {
      HwIdGiven(g, order, answers, n, h);
    }
    forall k | k in r.byKey
      ensures exists i :: 0 <= i < n && answers[i].Some? && g.byHwId[order[i]].key == k
    {
      KeySaved(g, order, answers, n, k);
    }
  }

  lemma {:induction false} HwIdGiven(g: Fences, order: seq<nat>, answers: seq<Option<nat>>, n: nat, h: nat)
    requires Enumerates(g, order, answers) && n <= |order| && h in Restarted(g, order, answers, n).byHwId
    ensures exists i :: 0 <= i < n && answers[i] == Some(h)
  {
    if answers[n - 1] != Some(h) {
      HwIdGiven(g, order, answers, n - 1, h);
    }
  }

  lemma {:induction false} KeySaved(g: Fences, order: seq<nat>, answers: seq<Option<nat>>, n: nat, k: Key)
    requires Enumerates(g, order, answers) && n <= |order| && k in Restarted(g, order, answers, n).byKey
    ensures exists i :: 0 <= i < n && answers[i].Some? && g.byHwId[order[i]].key == k
  {
    assert order[n - 1] in order;
    if !(answers[n - 1].Some? && g.byHwId[order[n - 1]].key == k) {
      KeySaved(g, order, answers, n - 1, k);
    }
  }

  /** Where a fence of the new maps comes from. */
  lemma OldIndex(g: Fences, order: seq<nat>, answers: seq<Option<nat>>, h: nat) returns (i: nat)
    requires Agree(g) && InOrder(g, order, answers) && h in Restarted(g, order, answers, |order|).byHwId
    ensures i < |order| && answers[i] == Some(h) && order[i] in g.byHwId
    ensures IsBack(g, order, answers, Restarted(g, order, answers, |order|), i)
  {
    hide Restarted, IsBack;
    RestartedOnly(g, order, answers, |order|);
    i :| 0 <= i < |order| && answers[i] == Some(h);
    RestartedHas(g, order, answers, |order|, i);
  }

  lemma OldIndexOfKey(g: Fences, order: seq<nat>, answers: seq<Option<nat>>, k: Key) returns (i: nat)
    requires Agree(g) && InOrder(g, order, answers) && k in Restarted(g, order, answers, |order|).byKey
    ensures i < |order| && answers[i].Some? && order[i] in g.byHwId && g.byHwId[order[i]].key == k
    ensures IsBack(g, order, answers, Restarted(g, order, answers, |order|), i)
  {
    hide Restarted, IsBack;
    RestartedOnly(g, order, answers, |order|);
    i :| 0 <= i < |order| && answers[i].Some? && order[i] in g.byHwId && g.byHwId[order[i]].key == k;
    RestartedHas(g, order, answers, |order|, i);
  }

  lemma OrderApart(g: Fences, order: seq<nat>, answers: seq<Option<nat>>, a: nat, b: nat)
    requires InOrder(g, order, answers) && Agree(g) && a < |order| && b < |order| && a != b
    ensures order[a] in g.byHwId && order[b] in g.byHwId && g.byHwId[order[a]].key != g.byHwId[order[b]].key
  {
    assert order[a] in order && order[b] in order && order[a] != order[b];
  }

  lemma RestartAgrees(g: Fences, order: seq<nat>, answers: seq<Option<nat>>)
    requires Agree(g) && InOrder(g, order, answers)
    ensures Agree(Restarted(g, order, answers, |order|)) && NoOrphans(Restarted(g, order, answers, |order|))
  {
    hide Restarted;
    assert |order| == |answers| && forall h :: h in order ==> h in g.byHwId;
    hide InOrder;
    var r := Restarted(g, order, answers, |order|);
    forall h, j | h in r.byHwId && j in r.byHwId && h != j
      ensures r.byHwId[h].key != r.byHwId[j].key
    {
      var a := OldIndex(g, order, answers, h);
      var b := OldIndex(g, order, answers, j);
      OrderApart(g, order, answers, a, b);
    }
    forall h | h in r.byHwId
      ensures r.byHwId[h].key in r.byKey
    {
      var a := OldIndex(g, order, answers, h);
    }
    forall k | k in r.byKey
      ensures r.byKey[k] in r.byHwId && r.byHwId[r.byKey[k]].key == k
    {
      var a := OldIndexOfKey(g, order, answers, k);
    }
  }

  /** The last id that is given for a key counts, and the last fence for an id. */
  lemma {:induction false} LastOneCounts(g: Fences, order: seq<nat>, answers: seq<Option<nat>>, n: nat, i: nat)
    requires Agree(g) && Enumerates(g, order, answers) && i < n <= |order| && answers[i].Some?
    ensures var r, h := Restarted(g, order, answers, n), answers[i].value;
      && order[i] in g.byHwId && g.byHwId[order[i]].key in r.byKey && r.byKey[g.byHwId[order[i]].key] == h
      && h in r.byHwId && exists l :: IsFenceOf(g, order, answers, n, r.byHwId[h], i, l)
  {
    assert order[i] in order && order[n - 1] in order;
    var r := Restarted(g, order, answers, n);
    if i < n - 1 {
      LastOneCounts(g, order, answers, n - 1, i);
      assert order[i] != order[n - 1];
      var h, before := answers[i].value, Restarted(g, order, answers, n - 1);
      var l :| IsFenceOf(g, order, answers, n - 1, before.byHwId[h], i, l);
      if answers[n - 1] == Some(h) {
        assert IsFenceOf(g, order, answers, n, r.byHwId[h], i, n - 1);
      } else {
        assert IsFenceOf(g, order, answers, n, r.byHwId[h], i, l);
      }
    } else {
      assert IsFenceOf(g, order, answers, n, r.byHwId[answers[i].value], i, i);
    }
  }

  /** The fence is that of the l-th key, which was given the same id as the i-th, and later
      if it is another. */
  ghost predicate IsFenceOf(g: Fences, order: seq<nat>, answers: seq<Option<nat>>, n: nat, f: Fence, i: nat, l: nat)
    requires i < n <= |order| == |answers|
  {
    i <= l < n && answers[l] == answers[i] && order[l] in g.byHwId && f.key == g.byHwId[order[l]].key
  }

  /** A restart keeps the maps in agreement exactly if the engine gives no id twice. */
  lemma RestartAgreesIff(g: Fences, order: seq<nat>, answers: seq<Option<nat>>)
    requires Agree(g) && Enumerates(g, order, answers)
    ensures Agree(Restarted(g, order, answers, |order|)) <==> NoneTwice(answers)
  {
    hide Restarted;
    if NoneTwice(answers) {
      RestartAgrees(g, order, answers);
    } else {
      var i, j :| 0 <= i < j < |answers| && answers[i].Some? && answers[i] == answers[j];
      LastOneCounts(g, order, answers, |order|, i);
      LastOneCounts(g, order, answers, |order|, j);
      var r := Restarted(g, order, answers, |order|);
      var f := r.byHwId[answers[i].value];
      var l :| IsFenceOf(g, order, answers, |order|, f, j, l);
      KeysOfOrder(g, order, answers, i, l);
    }
  }

  lemma KeysOfOrder(g: Fences, order: seq<nat>, answers: seq<Option<nat>>, a: nat, b: nat)
    requires Enumerates(g, order, answers) && Agree(g) && a < b < |order|
    ensures order[a] in g.byHwId && order[b] in g.byHwId && g.byHwId[order[a]].key != g.byHwId[order[b]].key
  {
    assert order[a] in order && order[b] in order && order[a] != order[b];
  }

  /** The engine gives an id that is not in use, or only by a fence without a key. */
  ghost predicate Trusty(g: Fences, e: Event) {
    match e
    case Add(_, _, _, answer) =>
      answer.Some? && answer.value in g.byHwId ==> g.byHwId[answer.value].key !in g.byKey
    case Restart(_, answers) => NoneTwice(answers)
    case _ => true
  }

  /** Of every event: it keeps the maps in agreement exactly if the engine can be trusted
      with its ids. */
  lemma StepAgreesIff(g: Fences, e: Event)
    requires Agree(g) && CanHappen(g, e)
    ensures Agree(Step(g, e)) <==> Trusty(g, e)
  {
    hide Enumerates, NoneTwice, Restarted, OnClientGone;
    match e
    case Add(key, options, place, answer) => AddAgreesIff(g, e);
    case ClientGone(client, refused) => ClientGoneAgrees(g, client, refused);
    case Restart(order, answers) =>
      RestartAgreesIff(g, order, answers);
      NothingToRestart(g, order, answers);
    case _ => OthersAgree(g, e);
  }

  lemma FirstIsIn(order: seq<nat>)
    ensures order == [] || order[0] in order
  {
  }

  lemma NothingToRestart(g: Fences, order: seq<nat>, answers: seq<Option<nat>>)
    requires Enumerates(g, order, answers)
    ensures g.byHwId == map[] ==> NoneTwice(answers)
  {
    FirstIsIn(order);
  }

  lemma AddAgreesIff(g: Fences, e: Event)
    requires Agree(g) && CanHappen(g, e) && e.Add?
    ensures Agree(Step(g, e)) <==> Trusty(g, e)
  {
    var n := Step(g, e);
    if e.answer.Some? {
      var h := e.answer.value;
      if !Trusty(g, e) {
        var k := g.byHwId[h].key;
        assert k in n.byKey && n.byKey[k] == h && n.byHwId[h].key != k;
      } else {
        forall k | k in g.byKey
          ensures k != e.key && g.byKey[k] != h
        {
          assert g.byHwId[g.byKey[k]].key == k;
        }
      }
    }
  }

  lemma OthersAgree(g: Fences, e: Event)
    requires Agree(g) && (e.Remove? || e.Pause? || e.Resume? || e.Modify?)
    ensures Agree(Step(g, e))
  {
  }

  // ------------------------------------------------------------------ runs

  ghost predicate Happens(states: seq<Fences>, run: seq<Event>) {
    && |states| == |run| + 1 && states[0] == NONE
    && forall i :: 0 <= i < |run| ==> CanHappen(states[i], run[i]) && states[i + 1] == Step(states[i], run[i])
  }

  /** The maps agree after any run in which the engine can be trusted with its ids. */
  lemma {:induction false} EveryRunAgrees(states: seq<Fences>, run: seq<Event>, n: nat)
    requires Happens(states, run) && n <= |run|
    requires forall i :: 0 <= i < n ==> Trusty(states[i], run[i])
    ensures Agree(states[n])
  {
    hide Step, CanHappen, Trusty;
    if n > 0 {
      EveryRunAgrees(states, run, n - 1);
      StepAgreesIff(states[n - 1], run[n - 1]);
    }
  }

  /** Every fence of this client can be reached by its key. */
  ghost predicate NoOrphansOf(g: Fences, client: nat) {
    forall h :: h in g.byHwId && g.byHwId[h].key.client == client ==> g.byHwId[h].key in g.byKey
  }

  /** The client goes, and the engine refuses to remove a fence of its. */
  ghost predicate LeavesOrphan(g: Fences, e: Event, client: nat) {
    e.ClientGone? && e.client == client && exists k :: k in g.byKey && k.client == client && g.byKey[k] in e.refused
  }

  /** A fence of a client becomes an orphan exactly when the engine refuses to remove it for
      the client that is gone, whatever orphans others have. */
  lemma OrphanedIff(g: Fences, e: Event, client: nat)
    requires Agree(g) && NoOrphansOf(g, client) && CanHappen(g, e) && Trusty(g, e)
    ensures NoOrphansOf(Step(g, e), client) <==> !LeavesOrphan(g, e, client)
  {
    hide Restarted;
    match e
    case Restart(order, answers) => RestartAgrees(g, order, answers);
    case ClientGone(gone, refused) =>
      if gone == client {
        OrphanedByClient(g, client, refused);
      }
    case _ =>
  }

  lemma OrphanedByClient(g: Fences, client: nat, refused: set<nat>)
    requires Agree(g) && NoOrphansOf(g, client)
    ensures NoOrphansOf(OnClientGone(g, client, refused), client) <==>
      !exists k :: k in g.byKey && k.client == client && g.byKey[k] in refused
  {
    var n := OnClientGone(g, client, refused);
    if k :| k in g.byKey && k.client == client && g.byKey[k] in refused {
      var h := g.byKey[k];
      forall c | c in OfClient(g, client) && c != k
        ensures g.byKey[c] != h
      {
        KeysApart(g, c, k);
      }
      assert h in n.byHwId && n.byHwId[h].key == k && k !in n.byKey;
    } else {
      forall h | h in g.byHwId && g.byHwId[h].key.client == client
        ensures h in Cleared(g, client, refused)
      {
        assert g.byKey[g.byHwId[h].key] == h;
      }
    }
  }

  lemma NoneHasNoOrphans(client: nat)
    ensures NoOrphansOf(NONE, client)
  {
  }

  lemma {:induction false} EveryRunOrphansIf(states: seq<Fences>, run: seq<Event>, n: nat, client: nat)
    requires n <= |run| && Happens(states, run) && (forall i :: 0 <= i < n ==> Trusty(states[i], run[i])) && forall i: nat :: i < n ==> !LeavesOrphan(states[i], run[i], client)
    ensures NoOrphansOf(states[n], client)
  {
    hide Step, CanHappen, Trusty, NoOrphansOf, LeavesOrphan;
    if n == 0 {
      NoneHasNoOrphans(client);
    } else {
      EveryRunOrphansIf(states, run, n - 1, client);
      EveryRunAgrees(states, run, n - 1);
      OrphanedIff(states[n - 1], run[n - 1], client);
    }
  }

  /** On every run in which the engine can be trusted with its ids: a client has no orphan
      at any time up to an event exactly if it never went with a removal refused. */
  lemma EveryRunOrphansIff(states: seq<Fences>, run: seq<Event>, n: nat, client: nat)
    requires Happens(states, run) && n <= |run|
    requires forall i :: 0 <= i < n ==> Trusty(states[i], run[i])
    ensures (forall i: nat :: i <= n ==> NoOrphansOf(states[i], client)) <==>
            forall i: nat :: i < n ==> !LeavesOrphan(states[i], run[i], client)
  {
    hide Step, CanHappen, Trusty, NoOrphansOf, LeavesOrphan;
    if forall i: nat :: i < n ==> !LeavesOrphan(states[i], run[i], client) {
      forall i: nat | i <= n
        ensures NoOrphansOf(states[i], client)
      {
        EveryRunOrphansIf(states, run, i, client);
      }
    }
    if forall i: nat :: i <= n ==> NoOrphansOf(states[i], client) {
      forall i: nat | i < n
        ensures !LeavesOrphan(states[i], run[i], client)
      {
        assert NoOrphansOf(states[i], client) && NoOrphansOf(states[i + 1], client);
        EveryRunAgrees(states, run, i);
        OrphanedIff(states[i], run[i], client);
      }
    }
  }

  /** The change that an event makes to the fence of its key. */
  function Changed(f: Fence, e: Event): Fence {
    match e
    case Pause(_, _) => f.(paused := true)
    case Resume(_, _) => f.(paused := false)
    case Modify(_, options, _) => f.(options := options)
    case _ => f
  }

  /** A pause, resumption or modification that the engine grants changes the one fence of
      the key, and what a client sees of any other key stays. */
  lemma ChangeIsLocal(g: Fences, e: Event, k: Key)
    requires Agree(g) && (e.Pause? || e.Resume? || e.Modify?) && e.ok && k in g.byKey
    ensures var n := Step(g, e);
      && n.byKey == g.byKey && n.byHwId.Keys == g.byHwId.Keys
      && n.byHwId[n.byKey[k]] == if k == e.key then Changed(g.byHwId[g.byKey[k]], e) else g.byHwId[g.byKey[k]]
  {
    if e.key in g.byKey && k != e.key {
      KeysApart(g, k, e.key);
    }
  }

  /** A removal that the engine grants takes out exactly the key and its fence, and one that
      it refuses nothing. */
  lemma RemovalIsExact(g: Fences, key: Key, ok: bool)
    requires Agree(g)
    ensures var n := Step(g, Remove(key, ok));
      && (forall k :: k in n.byKey <==> k in g.byKey && !(ok && k == key))
      && (forall k :: k in n.byKey ==> n.byKey[k] == g.byKey[k])
      && (forall h :: h in n.byHwId <==> h in g.byHwId && !(ok && key in g.byKey && h == g.byKey[key]))
      && (forall h :: h in n.byHwId ==> n.byHwId[h] == g.byHwId[h])
  {
  }

  /** A fence that is added has the key, options and place it was given, and is not paused;
      refused, nothing changes. */
  lemma AdditionIsExact(g: Fences, e: Event)
    requires e.Add?
    ensures var n := Step(g, e);
      match e.answer
      case None => n == g
      case Some(h) =>
        && h in n.byHwId && n.byHwId[h] == Fence(e.key, e.options, e.place, false)
        && e.key in n.byKey && n.byKey[e.key] == h
        && (forall k :: k != e.key ==> (k in n.byKey <==> k in g.byKey) && (k in g.byKey ==> n.byKey[k] == g.byKey[k]))
        && (forall i :: i != h ==> (i in n.byHwId <==> i in g.byHwId) && (i in g.byHwId ==> n.byHwId[i] == g.byHwId[i]))
  {
  }

  /** A client that goes takes all its keys with it, and exactly those of their fences that
      the engine removes; others lose nothing. */
  lemma ClientGoneIsExact(g: Fences, client: nat, refused: set<nat>)
    requires Agree(g)
    ensures var n := Step(g, ClientGone(client, refused));
      && (forall k :: k in n.byKey <==> k in g.byKey && k.client != client)
      && (forall k :: k in n.byKey ==> n.byKey[k] == g.byKey[k])
      && (forall h :: h in n.byHwId <==>
            h in g.byHwId && !(g.byHwId[h].key.client == client && g.byHwId[h].key in g.byKey && h !in refused))
      && (forall h :: h in n.byHwId ==> n.byHwId[h] == g.byHwId[h])
  {
    var n := Step(g, ClientGone(client, refused));
    forall h | h in g.byHwId
      ensures h in Cleared(g, client, refused) <==>
        g.byHwId[h].key.client == client && g.byHwId[h].key in g.byKey && h !in refused
    {
      var k := g.byHwId[h].key;
      if k in g.byKey {
        assert g.byKey[k] == h;
      }
    }
  }

  /** Removing what has just been added leaves everything as it was. */
  lemma AddedThenRemoved(g: Fences, e: Event)
    requires Agree(g) && CanHappen(g, e) && Trusty(g, e) && e.Add? && e.answer.Some? && e.answer.value !in g.byHwId
    requires e.key !in g.byKey
    ensures Step(Step(g, e), Remove(e.key, true)) == g
  {
    var n := Step(g, e);
    StepAgreesIff(g, e);
    AdditionIsExact(g, e);
    RemovalIsExact(n, e.key, true);
    var m := Step(n, Remove(e.key, true));
    assert m.byKey == g.byKey && m.byHwId == g.byHwId;
  }

  // ------------------------------------------------------------------ engine restart

  /** Without orphans, a restart that goes well keeps the keys and every fence but for its
      pause. */
  lemma RestartKeepsFences(g: Fences, order: seq<nat>, answers: seq<Option<nat>>)
    requires Agree(g) && NoOrphans(g) && InOrder(g, order, answers)
    requires forall i :: 0 <= i < |answers| ==> answers[i].Some?
    ensures var r := Step(g, Restart(order, answers));
      && Agree(r) && NoOrphans(r) && r.byKey.Keys == g.byKey.Keys
      && forall k :: k in g.byKey ==> g.byKey[k] in g.byHwId && r.byKey[k] in r.byHwId
                                      && r.byHwId[r.byKey[k]] == g.byHwId[g.byKey[k]].(paused := false)
  {
    hide Restarted;
    var r := Step(g, Restart(order, answers));
    StepAgreesIff(g, Restart(order, answers));
    if g.byHwId != map[] {
      RestartAgrees(g, order, answers);
      forall k | k in g.byKey
        ensures k in r.byKey && r.byKey[k] in r.byHwId && r.byHwId[r.byKey[k]] == g.byHwId[g.byKey[k]].(paused := false)
      {
        KeyIsBack(g, order, answers, k);
      }
      forall k | k in r.byKey
        ensures k in g.byKey
      {
        var i := OldIndexOfKey(g, order, answers, k);
      }
    }
  }

  lemma KeyIsBack(g: Fences, order: seq<nat>, answers: seq<Option<nat>>, k: Key)
    requires Agree(g) && InOrder(g, order, answers) && k in g.byKey
    requires forall i :: 0 <= i < |answers| ==> answers[i].Some?
    ensures var r := Restarted(g, order, answers, |order|);
      k in r.byKey && r.byKey[k] in r.byHwId && r.byHwId[r.byKey[k]] == g.byHwId[g.byKey[k]].(paused := false)
  {
    hide Restarted;
    assert g.byKey[k] in order;
    var i :| 0 <= i < |order| && order[i] == g.byKey[k];
    RestartedHas(g, order, answers, |order|, i);
  }

  /** During a restart the engine is asked to pause exactly the fences that were paused,
      under their new ids. */
  lemma {:induction false} PausesAreExact(g: Fences, order: seq<nat>, answers: seq<Option<nat>>, n: nat, p: (nat, nat))
    requires n <= |order| == |answers| && forall h :: h in order ==> h in g.byHwId
    ensures p in Pauses(g, order, answers, n) <==>
      exists i :: 0 <= i < n && answers[i] == Some(p.0) && g.byHwId[order[i]].paused && g.byHwId[order[i]].key.id == p.1
  {
    if n > 0 {
      PausesAreExact(g, order, answers, n - 1, p);
    }
  }

  /** But that they are paused is forgotten: a second restart pauses none of them. */
  lemma SecondRestartPausesNothing(g: Fences, order: seq<nat>, answers: seq<Option<nat>>, next: seq<nat>, more: seq<Option<nat>>)
    requires Agree(g) && g.byHwId != map[] && InOrder(g, order, answers)
    requires Enumerates(Step(g, Restart(order, answers)), next, more)
    ensures forall h :: h in next ==> h in Step(g, Restart(order, answers)).byHwId
    ensures Pauses(Step(g, Restart(order, answers)), next, more, |next|) == []
  {
    hide Restarted, Pauses;
    var r := Step(g, Restart(order, answers));
    RestartedOnly(g, order, answers, |order|);
    forall h | h in r.byHwId
      ensures !r.byHwId[h].paused
    {
      var i :| 0 <= i < |order| && answers[i] == Some(h);
      RestartedHas(g, order, answers, |order|, i);
    }
    NothingToPause(r, next, more, |next|);
  }

  lemma {:induction false} NothingToPause(g: Fences, order: seq<nat>, answers: seq<Option<nat>>, n: nat)
    requires n <= |order| == |answers| && forall h :: h in order ==> h in g.byHwId && !g.byHwId[h].paused
    ensures Pauses(g, order, answers, n) == []
  {
    if n > 0 {
      NothingToPause(g, order, answers, n - 1);
    }
  }

  lemma {:induction false} RestartedKeys(g: Fences, order: seq<nat>, answers: seq<Option<nat>>, n: nat, k: Key)
    requires n <= |order| == |answers| && forall h :: h in order ==> h in g.byHwId
    ensures k in Restarted(g, order, answers, n).byKey <==>
      exists i :: 0 <= i < n && answers[i].Some? && g.byHwId[order[i]].key == k
  {
    if n > 0 {
      RestartedKeys(g, order, answers, n - 1, k);
    }
  }

  /** Of every fence, an orphan or not: after a restart its client has its key exactly if the
      engine has added the fence, whatever it answered for the others. So an orphan is given
      back to its client, gone or not. */
  lemma RestartRevivesIff(g: Fences, order: seq<nat>, answers: seq<Option<nat>>, i: nat)
    requires Agree(g) && Enumerates(g, order, answers) && i < |order|
    ensures order[i] in g.byHwId
    ensures g.byHwId[order[i]].key in Step(g, Restart(order, answers)).byKey <==> answers[i].Some?
  {
    hide Restarted;
    assert order[i] in order;
    RestartedKeys(g, order, answers, |order|, g.byHwId[order[i]].key);
    forall j | 0 <= j < |order| && j != i
      ensures g.byHwId[order[j]].key != g.byHwId[order[i]].key
    {
      assert order[j] in order && order[j] != order[i];
    }
  }

  // ------------------------------------------------------------------ breaches

  /** The ids a client is told of when the engine reports the first n of these fences. */
  function Breached(g: Fences, hwIds: seq<nat>, n: nat, client: nat): seq<nat>
    requires n <= |hwIds|
  {
    if n == 0 then []
    else
      var r, h := Breached(g, hwIds, n - 1, client), hwIds[n - 1];
      if h in g.byHwId && g.byHwId[h].key.client == client then r + [g.byHwId[h].key.id] else r
  }

  /** The engine reports an orphan that has this key. */
  ghost predicate OrphanReported(g: Fences, hwIds: seq<nat>, n: nat, k: Key)
    requires n <= |hwIds|
  {
    k !in g.byKey && exists i :: 0 <= i < n && hwIds[i] in g.byHwId && g.byHwId[hwIds[i]].key == k
  }

  /** Every client is told of exactly its own fences, each by the id it knows, and of the
      orphans it should no longer know. */
  lemma {:induction false} BreachIsExact(g: Fences, hwIds: seq<nat>, n: nat, client: nat, id: nat)
    requires Agree(g) && n <= |hwIds|
    ensures var k := Key(client, id);
      id in Breached(g, hwIds, n, client) <==>
        (k in g.byKey && g.byKey[k] in hwIds[..n]) || OrphanReported(g, hwIds, n, k)
  {
    if n > 0 {
      BreachIsExact(g, hwIds, n - 1, client, id);
      assert hwIds[..n] == hwIds[..n - 1] + [hwIds[n - 1]];
    }
  }

  /** So a client none of whose fences is an orphan is told of exactly its own, whatever has
      become of those of others. */
  lemma BreachOfClientIsExact(g: Fences, hwIds: seq<nat>, client: nat, id: nat)
    requires Agree(g) && NoOrphansOf(g, client)
    ensures id in Breached(g, hwIds, |hwIds|, client) <==>
      Key(client, id) in g.byKey && g.byKey[Key(client, id)] in hwIds
  {
    BreachIsExact(g, hwIds, |hwIds|, client, id);
    assert hwIds[..|hwIds|] == hwIds;
  }

  // ------------------------------------------------------------------ runs that go wrong

  const ANY := Options(1, 1, 0)
  const HERE := Place(0.0, 0.0, 10.0)

  /** A client goes, the engine refuses to remove its fence, and the client is still told of
      breaches of it; a restart gives it back its key. */
  lemma GoneClientIsTold()
    ensures
      var k := Key(1, 5);
      var g1 := Step(NONE, Add(k, ANY, HERE, Some(7)));
      var g2 := Step(g1, ClientGone(1, {7}));
      var g3 := Step(g2, Restart([7], [Some(8)]));
      && NoOrphansOf(g1, 1) && !NoOrphansOf(g2, 1) && k !in g2.byKey && Breached(g2, [7], 1, 1) == [5]
      && k in g3.byKey
  {
    var k := Key(1, 5);
    var g1 := Step(NONE, Add(k, ANY, HERE, Some(7)));
    assert g1 == Fences(map[7 := Fence(k, ANY, HERE, false)], map[k := 7]);
    var g2 := Step(g1, ClientGone(1, {7}));
    assert k in g1.byKey && g1.byKey[k] == 7;
    OrphanedIff(g1, ClientGone(1, {7}), 1);
    assert Cleared(g1, 1, {7}) == {};
    assert g2 == Fences(map[7 := Fence(k, ANY, HERE, false)], map[]);
    assert Breached(g2, [7], 0, 1) == [];
    RestartRevivesIff(g2, [7], [Some(8)], 0);
  }

  /** The engine gives an id that is in use: the first key leads to the second fence. */
  lemma ReusedIdDisagrees()
    ensures
      var g1 := Step(NONE, Add(Key(1, 5), ANY, HERE, Some(7)));
      Agree(g1) && !Agree(Step(g1, Add(Key(2, 5), ANY, HERE, Some(7))))
  {
    var e := Add(Key(2, 5), ANY, HERE, Some(7));
    var g1 := Step(NONE, Add(Key(1, 5), ANY, HERE, Some(7)));
    assert g1 == Fences(map[7 := Fence(Key(1, 5), ANY, HERE, false)], map[Key(1, 5) := 7]);
    StepAgreesIff(g1, e);
  }

  // ------------------------------------------------------------------ the class

  /** The maps once these keys of a client that is gone have been dealt with. */
  function Without(g: Fences, gone: set<Key>, refused: set<nat>): Fences
    requires gone <= g.byKey.Keys
  {
    Fences(g.byHwId - ClearedIn(g, gone, refused), g.byKey - gone)
  }

  /** One key is taken out, and its fence if the engine removes it. */
  function Dropped(g: Fences, k: Key, refused: set<nat>): Fences
    requires k in g.byKey
  {
    Fences(if g.byKey[k] in refused then g.byHwId else g.byHwId - {g.byKey[k]}, g.byKey - {k})
  }

  lemma WithoutNone(g: Fences, refused: set<nat>)
    ensures Without(g, {}, refused) == g
  {
  }

  lemma WithoutNext(g: Fences, gone: set<Key>, k: Key, refused: set<nat>)
    requires gone <= g.byKey.Keys && k in g.byKey && k !in gone
    ensures var w := Without(g, gone, refused);
      && k in w.byKey && w.byKey[k] == g.byKey[k]
      && Without(g, gone + {k}, refused)
         == Dropped(w, k, refused)
  {
    assert ClearedIn(g, gone + {k}, refused)
        == ClearedIn(g, gone, refused) + if g.byKey[k] in refused then {} else {g.byKey[k]};
  }

  lemma WithoutIsClientGone(g: Fences, client: nat, refused: set<nat>)
    ensures Without(g, OfClient(g, client), refused) == OnClientGone(g, client, refused)
  {
  }

  class GeofenceAdapter {
    var geofences: map<nat, Fence>
    var geofenceIds: map<Key, nat>
    /** The pause requests made while restarting. */
    ghost var paused: seq<(nat, nat)>

    ghost function Abs(): Fences
      reads `geofences, `geofenceIds
    {
      Fences(geofences, geofenceIds)
    }

    constructor ()
      ensures Abs() == NONE
    {
      geofences, geofenceIds, paused := map[], map[], [];
    }

    method GetHwIdFromClient(key: Key) returns (hwId: Option<nat>)
      ensures hwId == HwIdOf(Abs(), key, true)
    {
      hwId := if key in geofenceIds then Some(geofenceIds[key]) else None;
    }

    method SaveGeofenceItem(key: Key, hwId: nat, options: Options, place: Place)
      modifies `geofences, `geofenceIds
      ensures Abs() == Saved(old(Abs()), key, hwId, options, place)
    {
      geofences := geofences[hwId := Fence(key, options, place, false)];
      geofenceIds := geofenceIds[key := hwId];
    }

    method RemoveGeofenceItem(hwId: nat)
      modifies `geofences, `geofenceIds
      ensures Abs() == RemovedItem(old(Abs()), hwId)
    {
      if hwId in geofences {
        var key := geofences[hwId].key;
        if key in geofenceIds {
          geofenceIds := geofenceIds - {key};
          geofences := geofences - {hwId};
        }
      }
    }

    method AddGeofence(key: Key, options: Options, place: Place, answer: Option<nat>)
      modifies this
      ensures Abs() == Step(old(Abs()), Add(key, options, place, answer))
    {
      if answer.Some? {
        SaveGeofenceItem(key, answer.value, options, place);
      }
    }

    method RemoveGeofence(key: Key, ok: bool)
      modifies this
      ensures Abs() == Step(old(Abs()), Remove(key, ok))
    {
      var hwId := GetHwIdFromClient(key);
      if hwId.Some? && ok {
        RemoveGeofenceItem(hwId.value);
      }
    }

    method PauseGeofence(key: Key, ok: bool)
      modifies this
      ensures Abs() == Step(old(Abs()), Pause(key, ok))
    {
      var hwId := GetHwIdFromClient(key);
      if hwId.Some? && ok && hwId.value in geofences {
        geofences := geofences[hwId.value := geofences[hwId.value].(paused := true)];
      }
    }

    method ResumeGeofence(key: Key, ok: bool)
      modifies this
      ensures Abs() == Step(old(Abs()), Resume(key, ok))
    {
      var hwId := GetHwIdFromClient(key);
      if hwId.Some? && ok && hwId.value in geofences {
        geofences := geofences[hwId.value := geofences[hwId.value].(paused := false)];
      }
    }

    method ModifyGeofence(key: Key, options: Options, ok: bool)
      modifies this
      ensures Abs() == Step(old(Abs()), Modify(key, options, ok))
    {
      var hwId := GetHwIdFromClient(key);
      if hwId.Some? && ok && hwId.value in geofences {
        geofences := geofences[hwId.value := geofences[hwId.value].(options := options)];
      }
    }

    method StopClientSession(key: Key, refused: set<nat>)
      requires key in geofenceIds
      modifies `geofences, `geofenceIds
      ensures Abs() == Dropped(old(Abs()), key, refused)
    {
      var hwId := geofenceIds[key];
      geofenceIds := geofenceIds - {key};
      if hwId !in refused {
        geofences := geofences - {hwId};
      }
    }

    method StopClientSessions(client: nat, refused: set<nat>)
      modifies this
      ensures Abs() == Step(old(Abs()), ClientGone(client, refused))
    {
      hide ClearedIn, Without, OnClientGone, Dropped;
      ghost var g := Abs();
      var todo := geofenceIds.Keys;
      ghost var gone: set<Key> := {};
      WithoutNone(g, refused);
      while todo != {}
        invariant todo <= g.byKey.Keys && gone == OfClient(g, client) - todo
        invariant Abs() == Without(g, gone, refused)
        decreases |todo|
      {
        var key :| key in todo;
        todo := todo - {key};
        if key.client == client {
          WithoutNext(g, gone, key, refused);
          StopClientSession(key, refused);
          gone := gone + {key};
        }
      }
      assert gone == OfClient(g, client);
      WithoutIsClientGone(g, client, refused);
    }

    method RestartGeofences(order: seq<nat>, answers: seq<Option<nat>>)
      requires Enumerates(Abs(), order, answers)
      modifies this
      ensures Abs() == Step(old(Abs()), Restart(order, answers))
      ensures paused == Pauses(old(Abs()), order, answers, |order|)
    {
      paused := [];
      ghost var g := Abs();
      if geofences == map[] {
        FirstIsIn(order);
        return;
      }
      var before := geofences;
      geofences, geofenceIds := map[], map[];
      for i := 0 to |order|
        invariant Abs() == Restarted(g, order, answers, i)
        invariant paused == Pauses(g, order, answers, i)
      {
        var fence := before[order[i]];
        if answers[i].Some? {
          if fence.paused {
            paused := paused + [(answers[i].value, fence.key.id)];
          }
          SaveGeofenceItem(fence.key, answers[i].value, fence.options, fence.place);
        }
      }
    }

    method GeofenceBreach(hwIds: seq<nat>, client: nat) returns (ids: seq<nat>)
      ensures ids == Breached(Abs(), hwIds, |hwIds|, client)
    {
      ids := [];
      for i := 0 to |hwIds|
        invariant ids == Breached(Abs(), hwIds, i, client)
      {
        if hwIds[i] in geofences && geofences[hwIds[i]].key.client == client {
          ids := ids + [geofences[hwIds[i]].key.id];
        }
      }
    }
  }
}
