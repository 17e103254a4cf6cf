/**
 * Insertion-ordered tables. The mobile node's sequence table and record table and the base
 * node's buffer are all searched front to back by key: a known key is overwritten in place
 * and a new one is appended while there is room.
 */
module Tables {

  datatype Entry<+K, +V> = Entry(key: K, value: V)

  function IndexOf<K(==), V>(table: seq<Entry<K, V>>, key: K): (i: nat)
    ensures i <= |table|
    ensures i < |table| ==> table[i].key == key
    ensures forall j :: 0 <= j < i ==> table[j].key != key
  {
    if table == [] || table[0].key == key then 0 else
    var rest := table[1..];
    assert forall j :: 0 < j < |table| ==> table[j] == rest[j - 1];
    1 + IndexOf(rest, key)
  }

  function Upsert<K(==), V>(table: seq<Entry<K, V>>, e: Entry<K, V>): seq<Entry<K, V>> {
    var i := IndexOf(table, e.key);
    if i < |table| then table[i := e] else table + [e]
  }

  /** A new key is dropped when the table is full. */
  function UpsertBounded<K(==), V>(capacity: nat, table: seq<Entry<K, V>>, e: Entry<K, V>): seq<Entry<K, V>> {
    if IndexOf(table, e.key) == |table| >= capacity then table else Upsert(table, e)
  }

  /** The table after a sequence of events, from an empty table. */
  function Collapse<K(==), V>(events: seq<Entry<K, V>>): seq<Entry<K, V>> {
    if events == [] then []
    else Upsert(Collapse(events[..|events| - 1]), events[|events| - 1])
  }

  ghost predicate DistinctKeys<K, V>(table: seq<Entry<K, V>>) {
    forall i, j :: 0 <= i < j < |table| ==> table[i].key != table[j].key
  }

  ghost function KeySet<K, V>(table: seq<Entry<K, V>>): set<K> {
    set e | e in table :: e.key
  }

  lemma IndexIsUnique<K, V>(table: seq<Entry<K, V>>, key: K, i: nat)
    requires i <= |table| && (i < |table| ==> table[i].key == key)
    requires forall j :: 0 <= j < i ==> table[j].key != key
    ensures IndexOf(table, key) == i
  {
  }

  lemma UpsertKeys<K, V>(table: seq<Entry<K, V>>, e: Entry<K, V>)
    ensures KeySet(Upsert(table, e)) == KeySet(table) + {e.key}
    ensures DistinctKeys(table) ==> DistinctKeys(Upsert(table, e))
    ensures |table| <= |Upsert(table, e)|
    ensures forall i :: 0 <= i < |table| ==> Upsert(table, e)[i].key == table[i].key
  {
    var i, after := IndexOf(table, e.key), Upsert(table, e);
    assert after[i] == e;
    forall k | k in KeySet(table) + {e.key}
      ensures k in KeySet(after)
    {
      if k != e.key {
        var x :| x in table && x.key == k;
        var j :| 0 <= j < |table| && table[j] == x;
        assert after[j] == x;
      }
    }
    forall k | k in KeySet(after)
      ensures k in KeySet(table) + {e.key}
    {
      var x :| x in after && x.key == k;
    }
  }

  /** Distinct keys drawn from a small set fit a small table. */
  lemma {:induction false} DistinctKeysFit<K, V>(table: seq<Entry<K, V>>, universe: set<K>)
    requires DistinctKeys(table) && KeySet(table) <= universe
    ensures |table| <= |universe|
  {
    if table != [] {
      var shorter, last := table[..|table| - 1], table[|table| - 1];
      assert last.key in KeySet(table);
      forall k | k in KeySet(shorter)
        ensures k in universe - {last.key}
      {
        var x :| x in shorter && x.key == k;
        var j :| 0 <= j < |shorter| && shorter[j] == x;
        assert table[j] == x && x in table;
        assert k in KeySet(table);
      }
      DistinctKeysFit(shorter, universe - {last.key});
    }
  }

  /** The "full" branch is unreachable while all keys come from a set no larger than the table. */
  lemma {:induction false} NeverFull<K, V>(capacity: nat, table: seq<Entry<K, V>>, e: Entry<K, V>, universe: set<K>)
    requires DistinctKeys(table) && KeySet(table) + {e.key} <= universe && |universe| <= capacity
    ensures UpsertBounded(capacity, table, e) == Upsert(table, e)
    ensures IndexOf(table, e.key) == |table| ==> |table| < capacity
  {
    if IndexOf(table, e.key) == |table| {
      assert DistinctKeys(table + [e]);
      UpsertKeys(table, e);
      DistinctKeysFit(table + [e], universe);
    }
  }

  // ----- An independent reading of the collapsed table -----

  /** The keys of the events, each at its first appearance. */
  function FirstKeys<K(==), V>(events: seq<Entry<K, V>>): seq<K> {
    if events == [] then []
    else
      var before, key := FirstKeys(events[..|events| - 1]), events[|events| - 1].key;
      if key in before then before else before + [key]
  }

  /** The position of the last event with a given key. */
  ghost predicate LastAt<K, V>(events: seq<Entry<K, V>>, key: K, at: nat) {
    && at < |events| && events[at].key == key
    && forall j :: at < j < |events| ==> events[j].key != key
  }

  lemma {:induction false} CollapseKeys<K, V>(events: seq<Entry<K, V>>)
    ensures DistinctKeys(Collapse(events)) && |Collapse(events)| == |FirstKeys(events)|
    ensures forall i :: 0 <= i < |Collapse(events)| ==> Collapse(events)[i].key == FirstKeys(events)[i]
  {
    if events != [] {
      var shorter, e := events[..|events| - 1], events[|events| - 1];
      CollapseKeys(shorter);
      var before, keys := Collapse(shorter), FirstKeys(shorter);
      UpsertKeys(before, e);
      if e.key in keys {
        var k :| 0 <= k < |keys| && keys[k] == e.key;
        assert before[k].key == e.key;
      }
    }
  }

  lemma {:induction false} CollapseValue<K, V>(events: seq<Entry<K, V>>, i: nat) returns (at: nat)
    requires i < |Collapse(events)|
    ensures LastAt(events, Collapse(events)[i].key, at) && Collapse(events)[i] == events[at]
  {
    var shorter, e := events[..|events| - 1], events[|events| - 1];
    if Collapse(events)[i].key == e.key {
      CollapseKeys(events);
      var j := IndexOf(Collapse(shorter), e.key);
      assert Collapse(events)[j] == e;
      at := |events| - 1;
    } else {
      at := CollapseValue(shorter, i);
    }
  }

  /**
   * The collapsed table lists each key once, in order of first appearance, with the value
   * of its last event.
   */
  lemma {:induction false} CollapseIsLastValues<K, V>(events: seq<Entry<K, V>>)
    ensures DistinctKeys(Collapse(events))
    ensures |Collapse(events)| == |FirstKeys(events)|
    ensures forall i :: 0 <= i < |Collapse(events)| ==>
      Collapse(events)[i].key == FirstKeys(events)[i]
    ensures forall i :: 0 <= i < |Collapse(events)| ==>
      exists at: nat :: LastAt(events, FirstKeys(events)[i], at) && Collapse(events)[i] == events[at]
  {
    CollapseKeys(events);
    forall i | 0 <= i < |Collapse(events)|
      ensures exists at: nat :: LastAt(events, FirstKeys(events)[i], at) && Collapse(events)[i] == events[at]
    {
      var at := CollapseValue(events, i);
      assert LastAt(events, FirstKeys(events)[i], at);
    }
  }

  /** A table that lists each key once is left alone. */
  lemma {:induction false} CollapseTwice<K, V>(table: seq<Entry<K, V>>)
    requires DistinctKeys(table)
    ensures Collapse(table) == table
  {
    if table != [] {
      var n := |table| - 1;
      CollapseTwice(table[..n]);
      IndexIsUnique(table[..n], table[n].key, n);
    }
  }

  // ----- Renaming keys -----

  function Rename<K, L, V>(table: seq<Entry<K, V>>, f: K -> L): (r: seq<Entry<L, V>>)
    ensures |r| == |table|
    ensures forall i :: 0 <= i < |r| ==> r[i] == Entry(f(table[i].key), table[i].value)
  {
    seq(|table|, i requires 0 <= i < |table| => Entry(f(table[i].key), table[i].value))
  }

  ghost predicate InjectiveOn<K(!new), L>(f: K -> L, keys: set<K>) {
    forall a, b :: a in keys && b in keys && f(a) == f(b) ==> a == b
  }

  /** Tables keyed by an injective name refine tables keyed by what is named. */
  lemma {:induction false} CollapseRenames<K(!new), L, V>(events: seq<Entry<K, V>>, f: K -> L)
    requires InjectiveOn(f, KeySet(events))
    ensures Collapse(Rename(events, f)) == Rename(Collapse(events), f)
    ensures KeySet(Collapse(events)) <= KeySet(events)
  {
    if events != [] {
      var shorter, e := events[..|events| - 1], events[|events| - 1];
      assert Rename(events, f)[..|events| - 1] == Rename(shorter, f);
      assert KeySet(shorter) <= KeySet(events) && e in events;
      CollapseRenames(shorter, f);
      UpsertRenames(Collapse(shorter), e, f, KeySet(events));
    }
  }

  lemma UpsertRenames<K(!new), L, V>(table: seq<Entry<K, V>>, e: Entry<K, V>, f: K -> L, keys: set<K>)
    requires InjectiveOn(f, keys) && KeySet(table) <= keys && e.key in keys
    ensures Upsert(Rename(table, f), Entry(f(e.key), e.value)) == Rename(Upsert(table, e), f)
    ensures KeySet(Upsert(table, e)) <= keys
  {
    var i, renamed := IndexOf(table, e.key), Rename(table, f);
    forall j | 0 <= j < i
      ensures renamed[j].key != f(e.key)
    {
      assert table[j] in table && table[j].key in KeySet(table);
    }
    IndexIsUnique(renamed, f(e.key), i);
    UpsertKeys(table, e);
    var l, r := Upsert(renamed, Entry(f(e.key), e.value)), Rename(Upsert(table, e), f);
    assert |l| == |r| && forall j :: 0 <= j < |l| ==> l[j] == r[j];
  }
}
