/** The adapters registered with the location API: an array kept without holes, so that
    delivery can stop at the first empty place. */
module Adapters {
  import opened Wrappers

  const MAX_ADAPTERS: nat := 10

  /** An adapter is known by a number; its event mask is a set of bits. */
  type Adapter = nat
  type Mask = set<nat>

  datatype Message = Open(adapter: Option<Adapter>) | Close

  /** The registered adapters, in the places they have. */
  ghost predicate Tidy(list: seq<Adapter>) {
    |list| <= MAX_ADAPTERS && forall i, j :: 0 <= i < j < |list| ==> list[i] != list[j]
  }

  function Padded(list: seq<Adapter>): seq<Option<Adapter>>
    requires |list| <= MAX_ADAPTERS
  {
    seq(MAX_ADAPTERS, i requires 0 <= i < MAX_ADAPTERS => if i < |list| then Some(list[i]) else None)
  }

  function Added(list: seq<Adapter>, a: Adapter): seq<Adapter> {
    if a in list || |list| >= MAX_ADAPTERS then list else list + [a]
  }

  function Place(list: seq<Adapter>, a: Adapter): (p: nat)
    requires a in list
    ensures p < |list| && list[p] == a
  {
    if list[0] == a then 0 else 1 + Place(list[1..], a)
  }

  /** The last adapter takes the place of the one removed. */
  function Removed(list: seq<Adapter>, a: Adapter): seq<Adapter> {
    if a in list then list[Place(list, a) := list[|list| - 1]][..|list| - 1] else list
  }

  lemma AddedFacts(list: seq<Adapter>, a: Adapter)
    requires Tidy(list)
    ensures Tidy(Added(list, a))
    ensures forall b :: b in Added(list, a) <==> b in list || (b == a && |list| < MAX_ADAPTERS)
  {
  }

  /** Removing takes out exactly that adapter: the one that is moved stays registered. */
  lemma RemovedFacts(list: seq<Adapter>, a: Adapter)
    requires Tidy(list)
    ensures Tidy(Removed(list, a))
    ensures forall b :: b in Removed(list, a) <==> b in list && b != a
  {
    if a in list {
      var p, n, next := Place(list, a), |list|, Removed(list, a);
      forall b | b in list && b != a
        ensures b in next
      {
        var i :| 0 <= i < n && list[i] == b;
        assert next[if i == n - 1 then p else i] == b;
      }
    }
  }

  // ------------------------------------------------------------------ runs

  datatype Event = Add(adapter: Adapter) | Remove(adapter: Adapter)

  function At(run: seq<Event>, n: nat): seq<Adapter>
    requires n <= |run|
  {
    if n == 0 then []
    else
      match run[n - 1]
      case Add(a) => Added(At(run, n - 1), a)
      case Remove(a) => Removed(At(run, n - 1), a)
  }

  /** A set of at most ten adapters. */
  function SetAt(run: seq<Event>, n: nat): set<Adapter>
    requires n <= |run|
  {
    if n == 0 then {}
    else
      var s := SetAt(run, n - 1);
      match run[n - 1]
      case Add(a) => if |s| < MAX_ADAPTERS then s + {a} else s
      case Remove(a) => s - {a}
  }

  function Members(list: seq<Adapter>, n: nat): set<Adapter>
    requires n <= |list|
  {
    if n == 0 then {} else Members(list, n - 1) + {list[n - 1]}
  }

  lemma {:induction false} MembersHas(list: seq<Adapter>, n: nat, a: Adapter)
    requires n <= |list|
    ensures a in Members(list, n) <==> exists i :: 0 <= i < n && list[i] == a
  {
    if n > 0 {
      MembersHas(list, n - 1, a);
    }
  }

  lemma {:induction false} MembersSize(list: seq<Adapter>, n: nat)
    requires Tidy(list) && n <= |list|
    ensures |Members(list, n)| == n
  {
    if n > 0 {
      MembersSize(list, n - 1);
      MembersHas(list, n - 1, list[n - 1]);
    }
  }

  /** After every run of registrations and removals the array holds exactly the adapters of
      the set, each once. */
  lemma {:induction false} EveryRunRefinesSet(run: seq<Event>, n: nat)
    requires n <= |run|
    ensures Tidy(At(run, n))
    ensures |At(run, n)| == |SetAt(run, n)|
    ensures forall a :: a in At(run, n) <==> a in SetAt(run, n)
  {
    hide Removed, Tidy;
    if n > 0 {
      EveryRunRefinesSet(run, n - 1);
      AddedFacts(At(run, n - 1), run[n - 1].adapter);
      RemovedFacts(At(run, n - 1), run[n - 1].adapter);
      SizeIsSetSize(At(run, n), SetAt(run, n));
    } else {
      EmptyIsTidy();
    }
  }

  lemma EmptyIsTidy()
    ensures Tidy([])
  {
  }

  lemma SizeIsSetSize(list: seq<Adapter>, s: set<Adapter>)
    requires Tidy(list) && forall a :: a in list <==> a in s
    ensures |list| == |s|
  {
    MembersSize(list, |list|);
    forall a
      ensures a in Members(list, |list|) <==> a in s
    {
      MembersHas(list, |list|, a);
    }
    assert Members(list, |list|) == s;
  }

  /** An adapter has exactly one place in the array if it is registered, and none if it is
      not; the empty places come last. */
  lemma PlacesHold(list: seq<Adapter>, a: Adapter)
    requires Tidy(list)
    ensures (exists i :: 0 <= i < MAX_ADAPTERS && Padded(list)[i] == Some(a)) <==> a in list
    ensures forall i, j :: 0 <= i < j < MAX_ADAPTERS && Padded(list)[j].Some? ==> Padded(list)[i].Some? && Padded(list)[i] != Padded(list)[j]
  {
    if a in list {
      assert Padded(list)[Place(list, a)] == Some(a);
    }
  }

  // ------------------------------------------------------------------ delivery

  /** The events that any of the first n adapters wants. */
  function Wanted(list: seq<Adapter>, masks: Adapter -> Mask, n: nat): Mask
    requires n <= |list|
  {
    if n == 0 then {} else Wanted(list, masks, n - 1) + masks(list[n - 1])
  }

  lemma {:induction false} WantedBySome(list: seq<Adapter>, masks: Adapter -> Mask, n: nat, bit: nat)
    requires n <= |list|
    ensures bit in Wanted(list, masks, n) <==> exists a :: a in list[..n] && bit in masks(a)
  {
    if n > 0 {
      WantedBySome(list, masks, n - 1, bit);
      assert list[..n] == list[..n - 1] + [list[n - 1]];
    }
  }

  // ------------------------------------------------------------------ the class

  class LocApiBase {
    const locAdapters: array<Option<Adapter>>
    const excludedMask: Mask
    /** The registered adapters, as the array should hold them. */
    ghost var list: seq<Adapter>
    /** What was sent to the engine's thread, in order. */
    ghost var sent: seq<Message>

    ghost predicate Valid()
      reads this, locAdapters
    {
      Tidy(list) && locAdapters[..] == Padded(list)
    }

    constructor (excludedMask: Mask)
      ensures Valid() && fresh(locAdapters)
      ensures list == [] && sent == [] && this.excludedMask == excludedMask
    {
      this.excludedMask := excludedMask;
      locAdapters := new Option<Adapter>[MAX_ADAPTERS](_ => None);
      list, sent := [], [];
      new;
      assert locAdapters[..] == Padded([]);
    }

    method AddAdapter(a: Adapter)
      requires Valid()
      modifies this, locAdapters
      ensures Valid() && list == Added(old(list), a)
      ensures sent == old(sent) + if list != old(list) then [Open(Some(a))] else []
    {
      var i := 0;
      assert forall j :: 0 <= j < MAX_ADAPTERS ==> locAdapters[j] == Padded(list)[j];
      while i < MAX_ADAPTERS && locAdapters[i] != Some(a)
        invariant i <= MAX_ADAPTERS && i <= |list|
        invariant Valid() && list == old(list) && sent == old(sent)
        invariant forall j :: 0 <= j < i ==> list[j] != a
        decreases MAX_ADAPTERS - i
      {
        assert locAdapters[i] == Padded(list)[i];
        if locAdapters[i] == None {
          locAdapters[i] := Some(a);
          sent := sent + [Open(Some(a))];
          list := list + [a];
          assert locAdapters[..] == Padded(list);
          return;
        }
        i := i + 1;
      }
      assert i < MAX_ADAPTERS ==> locAdapters[i] == Padded(list)[i];
    }

    method RemoveAdapter(a: Adapter)
      requires Valid()
      modifies this, locAdapters
      ensures Valid() && list == Removed(old(list), a)
      ensures sent == old(sent) + if a !in old(list) then [] else if list == [] then [Close] else [Open(None)]
    {
      var i := 0;
      assert forall j :: 0 <= j < MAX_ADAPTERS ==> locAdapters[j] == Padded(list)[j];
      while i < MAX_ADAPTERS && locAdapters[i] != None && locAdapters[i] != Some(a)
        invariant i <= |list|
        invariant Valid() && list == old(list) && sent == old(sent)
        invariant forall j :: 0 <= j < i ==> list[j] != a
        decreases MAX_ADAPTERS - i
      {
        assert locAdapters[i] == Padded(list)[i];
        i := i + 1;
      }
      assert i < MAX_ADAPTERS ==> locAdapters[i] == Padded(list)[i];
      if i < MAX_ADAPTERS && locAdapters[i] != None {
        RemoveAt(a, i);
      }
    }

    method RemoveAt(a: Adapter, j: nat)
      requires Valid() && j < |list| && list[j] == a
      modifies this, locAdapters
      ensures Valid() && list == Removed(old(list), a)
      ensures sent == old(sent) + if list == [] then [Close] else [Open(None)]
    {
      ghost var n := |list|;
      assert Place(list, a) == j;
      assert forall k :: 0 <= k < MAX_ADAPTERS ==> locAdapters[k] == Padded(list)[k];
      locAdapters[j] := None;
      var i := j + 1;
      while i < MAX_ADAPTERS && locAdapters[i] != None
        invariant j < i <= n
        invariant locAdapters[..] == Padded(list)[j := None]
        invariant list == old(list) && sent == old(sent)
        decreases MAX_ADAPTERS - i
      {
        assert locAdapters[i] == Padded(list)[i];
        i := i + 1;
      }
      assert i < MAX_ADAPTERS ==> locAdapters[i] == Padded(list)[i];
      i := i - 1;
      assert i == n - 1;
      locAdapters[j] := locAdapters[i];
      locAdapters[i] := None;
      list := Removed(list, a);
      assert locAdapters[..] == Padded(list);
      RemovedFacts(old(list), a);
      sent := sent + [if i == 0 then Close else Open(None)];
    }

    method GetEvtMask(masks: Adapter -> Mask) returns (mask: Mask)
      requires Valid()
      ensures mask == Wanted(list, masks, |list|) - excludedMask
    {
      mask := {};
      var i := 0;
      while i < MAX_ADAPTERS && locAdapters[i] != None
        invariant i <= |list| && mask == Wanted(list, masks, i)
        decreases MAX_ADAPTERS - i
      {
        assert locAdapters[i] == Padded(list)[i];
        mask := mask + masks(locAdapters[i].value);
        i := i + 1;
      }
      assert i < MAX_ADAPTERS ==> locAdapters[i] == Padded(list)[i];
      mask := mask - excludedMask;
    }

    /** Delivers to every adapter. */
    method ToAllAdapters() returns (called: seq<Adapter>)
      requires Valid()
      ensures called == list
    {
      called := [];
      var i := 0;
      while i < MAX_ADAPTERS && locAdapters[i] != None
        invariant i <= |list| && called == list[..i]
        decreases MAX_ADAPTERS - i
      {
        assert locAdapters[i] == Padded(list)[i];
        called := called + [locAdapters[i].value];
        i := i + 1;
      }
      assert i < MAX_ADAPTERS ==> locAdapters[i] == Padded(list)[i];
    }

    /** Delivers to one adapter after the other until one handles it. */
    method ToFirstHandlingAdapter(handles: Adapter -> bool) returns (called: seq<Adapter>)
      requires Valid()
      ensures called <= list && forall i :: 0 <= i < |called| - 1 ==> !handles(called[i])
      ensures called == list || (called != [] && handles(called[|called| - 1]))
    {
      called := [];
      var i := 0;
      while i < MAX_ADAPTERS && locAdapters[i] != None
        invariant i <= |list| && called == list[..i]
        invariant forall k :: 0 <= k < i ==> !handles(list[k])
        decreases MAX_ADAPTERS - i
      {
        assert locAdapters[i] == Padded(list)[i];
        called := called + [locAdapters[i].value];
        if handles(locAdapters[i].value) {
          return;
        }
        i := i + 1;
      }
      assert i < MAX_ADAPTERS ==> locAdapters[i] == Padded(list)[i];
    }
  }
}
