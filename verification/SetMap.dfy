/** A map from keys to sets of values that never keeps an empty set: the behaviour of
    LocUnorderedSetMap, first on values, then as the class. */
module SetMap {
  /** The values of a key; no entry reads as the empty set. */
  function ValSet<K, V>(m: map<K, set<V>>, k: K): set<V> {
    if k in m then m[k] else {}
  }

  /** Removes vals from the entries of keys; an entry left empty goes away. */
  function Trimmed<K, V>(m: map<K, set<V>>, keys: set<K>, vals: set<V>): map<K, set<V>> {
    map k | k in m && !(k in keys && m[k] <= vals) :: if k in keys then m[k] - vals else m[k]
  }

  /** The keys whose entries go away in a trim. */
  function GoneKeys<K, V>(m: map<K, set<V>>, keys: set<K>, vals: set<V>): set<K> {
    set k | k in keys && k in m && m[k] <= vals
  }

  /** The values a trim removes from some entry. */
  function GoneVals<K, V>(m: map<K, set<V>>, keys: set<K>, vals: set<V>): set<V> {
    set v | v in vals && exists k :: k in keys && k in m && v in m[k]
  }

  /** Adds vals to the entries of keys, creating those that are missing. */
  function Added<K, V>(m: map<K, set<V>>, keys: set<K>, vals: set<V>): map<K, set<V>> {
    if vals == {} then m
    else map k | k in m.Keys + keys :: if k in keys then ValSet(m, k) + vals else m[k]
  }

  function NewKeys<K, V>(m: map<K, set<V>>, keys: set<K>, vals: set<V>): set<K> {
    if vals == {} then {} else keys - m.Keys
  }

  /** The entry of a key replaced by vals. */
  function Updated<K, V>(m: map<K, set<V>>, key: K, vals: set<V>): map<K, set<V>> {
    if vals == {} then m - {key} else m[key := vals]
  }

  /** What update hands back as no longer used. Its comment promises the values that left
      the entry; the code hands back the values that stayed, the intersection. */
  function HandedBack<K, V>(m: map<K, set<V>>, key: K, vals: set<V>): set<V> {
    if vals == {} then {} else ValSet(m, key) * vals
  }

  ghost predicate NoEmptyEntry<K, V>(m: map<K, set<V>>) {
    forall k :: k in m ==> m[k] != {}
  }

  lemma TrimmedEntry<K, V>(m: map<K, set<V>>, keys: set<K>, vals: set<V>, k: K)
    ensures ValSet(Trimmed(m, keys, vals), k) == if k in keys then ValSet(m, k) - vals else ValSet(m, k)
  {
  }

  lemma AddedEntry<K, V>(m: map<K, set<V>>, keys: set<K>, vals: set<V>, k: K)
    ensures ValSet(Added(m, keys, vals), k) == if k in keys then ValSet(m, k) + vals else ValSet(m, k)
  {
  }

  lemma NothingDone<K, V>(m: map<K, set<V>>, vals: set<V>)
    ensures Trimmed(m, {}, vals) == m && GoneKeys(m, {}, vals) == {} && GoneVals(m, {}, vals) == {}
    ensures Added(m, {}, vals) == m && NewKeys(m, {}, vals) == {}
  {
    assert Trimmed(m, {}, vals) == m;
    assert Added(m, {}, vals) == m;
  }

  lemma AbsentKey<K, V>(m: map<K, set<V>>, k: K, vals: set<V>)
    requires k !in m
    ensures Trimmed(m, {k}, vals) == m
  {
    assert Trimmed(m, {k}, vals) == m;
  }

  /** What the operations report is the difference they have made. */
  lemma ReportsAreDifferences<K, V>(m: map<K, set<V>>, keys: set<K>, vals: set<V>)
    ensures GoneKeys(m, keys, vals) == m.Keys - Trimmed(m, keys, vals).Keys
    ensures NewKeys(m, keys, vals) == Added(m, keys, vals).Keys - m.Keys
    ensures forall v :: v in GoneVals(m, keys, vals) <==>
      exists k :: k in m && v in ValSet(m, k) && v !in ValSet(Trimmed(m, keys, vals), k)
    ensures forall k :: HandedBack(m, k, vals) == ValSet(m, k) * ValSet(Updated(m, k, vals), k)
  {
    forall v
      ensures v in GoneVals(m, keys, vals) <==>
        exists k :: k in m && v in ValSet(m, k) && v !in ValSet(Trimmed(m, keys, vals), k)
    {
      if v in GoneVals(m, keys, vals) {
        var k :| k in keys && k in m && v in m[k];
        TrimmedEntry(m, keys, vals, k);
        assert k in m && v in ValSet(m, k) && v !in ValSet(Trimmed(m, keys, vals), k);
      }
    }
  }

  /** Trimming key by key. */
  lemma TrimOneMore<K, V>(m: map<K, set<V>>, done: set<K>, k: K, vals: set<V>)
    requires k !in done
    ensures var t := Trimmed(m, done, vals);
      && Trimmed(t, {k}, vals) == Trimmed(m, done + {k}, vals)
      && (k in t <==> k in m)
      && (k in m ==> t[k] == m[k])
  {
    var t := Trimmed(m, done, vals);
    var a, b := Trimmed(t, {k}, vals), Trimmed(m, done + {k}, vals);
    assert forall x :: x in a <==> x in b;
    assert forall x :: x in a ==> a[x] == b[x];
    assert a == b;
  }

  lemma GoneOneMore<K, V>(m: map<K, set<V>>, done: set<K>, k: K, vals: set<V>)
    ensures GoneKeys(m, done + {k}, vals) == GoneKeys(m, done, vals) + (if k in m && m[k] <= vals then {k} else {})
    ensures GoneVals(m, done + {k}, vals) == GoneVals(m, done, vals) + (if k in m then m[k] * vals else {})
  {
    var a := GoneVals(m, done + {k}, vals);
    var b := GoneVals(m, done, vals) + (if k in m then m[k] * vals else {});
    forall v | v in b ensures v in a {
      if k in m && v in m[k] * vals {
        assert k in done + {k} && v in m[k];
      } else {
        var x :| x in done && x in m && v in m[x];
        assert x in done + {k};
      }
    }
    forall v | v in a ensures v in b {
      var x :| x in done + {k} && x in m && v in m[x];
    }
  }

  lemma AddOneMore<K, V>(m: map<K, set<V>>, done: set<K>, k: K, vals: set<V>)
    requires k !in done
    ensures Added(Added(m, done, vals), {k}, vals) == Added(m, done + {k}, vals)
    ensures var isNew := k in NewKeys(Added(m, done, vals), {k}, vals);
      NewKeys(m, done + {k}, vals) == NewKeys(m, done, vals) + (if isNew then {k} else {})
  {
    if vals != {} {
      var a, b := Added(Added(m, done, vals), {k}, vals), Added(m, done + {k}, vals);
      assert a.Keys == b.Keys;
      forall x | x in a ensures a[x] == b[x] {
        AddedEntry(Added(m, done, vals), {k}, vals, x);
        AddedEntry(m, done, vals, x);
        AddedEntry(m, done + {k}, vals, x);
      }
      assert a == b;
    }
  }

  /** Extracts the common elements of two sets and removes them from both. The loop of the
      source visits each element of the second set once. */
  method RemoveAndReturnInterset<T(==)>(s1: set<T>, s2: set<T>)
    returns (common: set<T>, left1: set<T>, left2: set<T>)
    ensures common == s1 * s2 && left1 == s1 - s2 && left2 == s2 - s1
  {
    common, left1, left2 := {}, s1, s2;
    var todo := s2;
    while todo != {}
      invariant todo <= s2
      invariant common == s1 * (s2 - todo)
      invariant left1 == s1 - common && left2 == s2 - common
      decreases |todo|
    {
      var b :| b in todo;
      todo := todo - {b};
      if b in left1 {
        common := common + {b};
        left1 := left1 - {b};
        left2 := left2 - {b};
      }
    }
  }

  class LocUnorderedSetMap<K(==), V(==)> {
    var entries: map<K, set<V>>

    constructor ()
      ensures entries == map[]
    {
      entries := map[];
    }

    method Remove(key: K)
      modifies this
      ensures entries == old(entries) - {key}
    {
      entries := entries - {key};
    }

    /** Trims one entry; reports whether it went away, and what it lost. */
    method TrimEntry(key: K, vals: set<V>) returns (gone: bool, lost: set<V>)
      requires key in entries
      modifies this
      ensures entries == Trimmed(old(entries), {key}, vals)
      ensures gone == (old(entries)[key] <= vals)
      ensures lost == old(entries)[key] * vals
    {
      var rest := entries[key];
      lost := {};
      var todo := vals;
      while todo != {}
        invariant todo <= vals
        invariant rest == old(entries)[key] - (vals - todo)
        invariant lost == old(entries)[key] * (vals - todo)
        decreases |todo|
      {
        var v :| v in todo;
        todo := todo - {v};
        if v in rest {
          rest := rest - {v};
          lost := lost + {v};
        }
      }
      assert vals - todo == vals;
      gone := rest == {};
      entries := if gone then entries - {key} else entries[key := rest];
      assert entries == Trimmed(old(entries), {key}, vals);
    }

    method TrimOrRemove(keys: set<K>, vals: set<V>) returns (goneKeys: set<K>, goneVals: set<V>)
      modifies this
      ensures entries == Trimmed(old(entries), keys, vals)
      ensures goneKeys == GoneKeys(old(entries), keys, vals)
      ensures goneVals == GoneVals(old(entries), keys, vals)
    {
      goneKeys, goneVals := {}, {};
      ghost var was := entries;
      ghost var done: set<K> := {};
      var todo := keys;
      NothingDone(was, vals);
      hide Trimmed, GoneKeys, GoneVals;
      while todo != {}
        invariant todo <= keys && done == keys - todo
        invariant entries == Trimmed(was, done, vals)
        invariant goneKeys == GoneKeys(was, done, vals)
        invariant goneVals == GoneVals(was, done, vals)
        decreases |todo|
      {
        var k :| k in todo;
        todo := todo - {k};
        TrimOneMore(was, done, k, vals);
        GoneOneMore(was, done, k, vals);
        if k !in entries {
          AbsentKey(entries, k, vals);
        } else {
          var gone, lost := TrimEntry(k, vals);
          goneVals := goneVals + lost;
          if gone {
            goneKeys := goneKeys + {k};
          }
        }
        done := done + {k};
      }
      assert done == keys;
    }

    /** Adds to one entry; reports whether the entry is new. */
    method AddEntry(key: K, vals: set<V>) returns (fresh_: bool)
      modifies this
      ensures entries == Added(old(entries), {key}, vals)
      ensures fresh_ == (key in NewKeys(old(entries), {key}, vals))
    {
      fresh_ := false;
      if vals != {} {
        if key in entries {
          entries := entries[key := entries[key] + vals];
        } else {
          entries := entries[key := vals];
          fresh_ := true;
        }
        assert ValSet(old(entries), key) + vals == entries[key];
        assert entries == Added(old(entries), {key}, vals);
      }
    }

    method AddAll(keys: set<K>, vals: set<V>) returns (newKeys: set<K>)
      modifies this
      ensures entries == Added(old(entries), keys, vals)
      ensures newKeys == NewKeys(old(entries), keys, vals)
    {
      newKeys := {};
      ghost var was := entries;
      ghost var done: set<K> := {};
      var todo := keys;
      NothingDone(was, vals);
      hide Added, NewKeys;
      while todo != {}
        invariant todo <= keys && done == keys - todo
        invariant entries == Added(was, done, vals)
        invariant newKeys == NewKeys(was, done, vals)
        decreases |todo|
      {
        var k :| k in todo;
        todo := todo - {k};
        AddOneMore(was, done, k, vals);
        var isNew := AddEntry(k, vals);
        if isNew {
          newKeys := newKeys + {k};
        }
        done := done + {k};
      }
      assert done == keys;
    }

    /** Replaces an entry. Returns what HandedBack says, and the values new to the entry. */
    method Update(key: K, vals: set<V>) returns (handedBack: set<V>, newVals: set<V>)
      modifies this
      ensures entries == Updated(old(entries), key, vals)
      ensures handedBack == HandedBack(old(entries), key, vals)
      ensures newVals == if vals == {} then {} else vals - ValSet(old(entries), key)
    {
      handedBack, newVals := {}, vals;
      if vals == {} {
        entries := entries - {key};
      } else {
        var current := if key in entries then entries[key] else {};
        entries := entries[key := vals];
        var rest;
        handedBack, rest, newVals := RemoveAndReturnInterset(current, vals);
      }
    }
  }
}
