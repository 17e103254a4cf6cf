/**
 * The "seen" caches of a flooding node: a 32-entry ring that overwrites its oldest
 * entry. The sensor cache holds (origin, sequence) keys and the command cache holds
 * (sequence, command) keys; the two are the same algorithm over different keys.
 *
 * The specification is a sliding log: `log` lists every key ever accepted, and the ring
 * remembers exactly its last 32 elements.
 */
module SeenRings {

  const CACHE_SIZE: nat := 32

  datatype Slot<K> = Empty | Used(key: K)

  /** What the ring still remembers of a log of accepted keys. */
  function Window<K>(log: seq<K>): seq<K> {
    if |log| <= CACHE_SIZE then log else log[|log| - CACHE_SIZE..]
  }

  /** The log after one check-and-add. */
  function Accept<K(==)>(log: seq<K>, key: K): seq<K> {
    if key in Window(log) then log else log + [key]
  }

  /** The log after a whole sequence of check-and-add calls, from an empty ring. */
  function AcceptAll<K(==)>(calls: seq<K>): seq<K> {
    if calls == [] then []
    else Accept(AcceptAll(calls[..|calls| - 1]), calls[|calls| - 1])
  }

  ghost predicate NoDuplicates<K>(s: seq<K>) {
    forall i, j :: 0 <= i < j < |s| ==> s[i] != s[j]
  }

  /** The latest position below n that is congruent to i modulo the ring size. */
  function Latest(n: nat, i: nat): nat
    requires i < n
  {
    n - 1 - (n - 1 - i) % CACHE_SIZE
  }

  /** What slot i of the ring holds once `log` has been accepted. */
  function SlotOf<K>(log: seq<K>, i: nat): Slot<K> {
    if i < |log| then Used(log[Latest(|log|, i)]) else Empty
  }

  class SeenRing<K(==)> {
    const cache: array<Slot<K>>
    var writeIndex: nat
    ghost var log: seq<K>

    ghost predicate Valid()
      reads this, cache
    {
      && cache.Length == CACHE_SIZE
      && writeIndex == |log| % CACHE_SIZE
      && forall i :: 0 <= i < CACHE_SIZE ==> cache[i] == SlotOf(log, i)
    }

    constructor ()
      ensures Valid() && fresh(cache) && log == []
    {
      cache := new Slot<K>[CACHE_SIZE](_ => Empty);
      writeIndex := 0;
      log := [];
    }

    method Contains(key: K) returns (found: bool)
      requires Valid()
      ensures found <==> key in Window(log)
    {
      var i := 0;
      while i < CACHE_SIZE
        invariant i <= CACHE_SIZE
        invariant forall j :: 0 <= j < i ==> cache[j] != Used(key)
      {
        if cache[i] == Used(key) {
          SlotInWindow(log, i);
          return true;
        }
        i := i + 1;
      }
      if key in Window(log) {
        WindowInSlot(log, key);
      }
      return false;
    }

    method Add(key: K)
      requires Valid()
      modifies this, cache
      ensures Valid() && log == old(log) + [key]
    {
      cache[writeIndex] := Used(key);
      writeIndex := writeIndex + 1;
      if writeIndex >= CACHE_SIZE {
        writeIndex := 0;
      }
      log := log + [key];
      forall i | 0 <= i < CACHE_SIZE
        ensures cache[i] == SlotOf(log, i)
      {
        SlotAfterAdd(old(log), key, i);
      }
    }

    method CheckAndAdd(key: K) returns (alreadySeen: bool)
      requires Valid()
      modifies this, cache
      ensures Valid() && log == Accept(old(log), key)
      ensures alreadySeen <==> key in Window(old(log))
    {
      alreadySeen := Contains(key);
      if !alreadySeen {
        Add(key);
      }
    }
  }

  // ----- The ring refines the sliding log -----

  lemma SlotAfterAdd<K>(log: seq<K>, key: K, i: nat)
    requires i < CACHE_SIZE
    ensures SlotOf(log + [key], i) == if i == |log| % CACHE_SIZE then Used(key) else SlotOf(log, i)
  {
    if i < |log| {
      RemainderSteps(|log| - 1 - i, i);
    }
  }

  lemma RemainderSteps(x: nat, i: nat)
    requires i < CACHE_SIZE
    ensures (x + 1) % CACHE_SIZE == if x % CACHE_SIZE == CACHE_SIZE - 1 then 0 else x % CACHE_SIZE + 1
    ensures (x + 1) % CACHE_SIZE == 0 <==> (x + 1 + i) % CACHE_SIZE == i
  {
    var q, d := x / CACHE_SIZE, x % CACHE_SIZE;
    assert x == CACHE_SIZE * q + d;
    RemainderIs(x + 1, if d == CACHE_SIZE - 1 then q + 1 else q, if d == CACHE_SIZE - 1 then 0 else d + 1);
    var q', e := (x + 1) / CACHE_SIZE, (x + 1) % CACHE_SIZE;
    assert x + 1 == CACHE_SIZE * q' + e;
    var sum := e + i;
    RemainderIs(x + 1 + i, if sum < CACHE_SIZE then q' else q' + 1, if sum < CACHE_SIZE then sum else sum - CACHE_SIZE);
  }

  lemma RemainderIs(x: nat, q: nat, r: nat)
    requires x == CACHE_SIZE * q + r && r < CACHE_SIZE
    ensures x % CACHE_SIZE == r
  {
  }

  lemma SlotInWindow<K>(log: seq<K>, i: nat)
    requires i < CACHE_SIZE && SlotOf(log, i).Used?
    ensures SlotOf(log, i).key in Window(log)
  {
    var j := Latest(|log|, i);
    if |log| <= CACHE_SIZE {
      assert log[j] in Window(log);
    } else {
      assert Window(log)[j - (|log| - CACHE_SIZE)] == log[j];
    }
  }

  lemma WindowInSlot<K>(log: seq<K>, key: K)
    requires key in Window(log)
    ensures exists i :: 0 <= i < CACHE_SIZE && SlotOf(log, i) == Used(key)
  {
    var k :| 0 <= k < |Window(log)| && Window(log)[k] == key;
    var j := if |log| <= CACHE_SIZE then k else k + |log| - CACHE_SIZE;
    var i := j % CACHE_SIZE;
    assert j == CACHE_SIZE * (j / CACHE_SIZE) + i;
    RemainderIs(|log| - 1 - i, j / CACHE_SIZE, |log| - 1 - j);
    assert SlotOf(log, i) == Used(key);
  }

  // ----- What the sliding log promises -----

  /** Any 33 consecutive accepted keys are pairwise distinct, over runs of any length. */
  lemma {:induction false} AcceptedKeysSpread<K>(calls: seq<K>, i: nat, j: nat)
    requires i < j < |AcceptAll(calls)| && j - i <= CACHE_SIZE
    ensures AcceptAll(calls)[i] != AcceptAll(calls)[j]
  {
    var shorter := calls[..|calls| - 1];
    var before, key := AcceptAll(shorter), calls[|calls| - 1];
    if j < |before| {
      AcceptedKeysSpread(shorter, i, j);
    } else {
      assert key !in Window(before);
      assert before[i] in Window(before) by {
        var offset := if |before| <= CACHE_SIZE then 0 else |before| - CACHE_SIZE;
        assert Window(before)[i - offset] == before[i];
      }
    }
  }

  lemma SetOfDistinct<K>(s: seq<K>, universe: set<K>)
    requires NoDuplicates(s) && forall k :: k in s ==> k in universe
    ensures |s| <= |universe|
  {
    if s != [] {
      var last := s[|s| - 1];
      SetOfDistinct(s[..|s| - 1], universe - {last});
    }
  }

  /** While the keys come from a universe of at most 32, a duplicate-free log stays so. */
  lemma AcceptInSmallUniverse<K>(log: seq<K>, key: K, universe: set<K>)
    requires NoDuplicates(log) && (forall k :: k in log ==> k in universe)
    requires key in universe && |universe| <= CACHE_SIZE
    ensures Window(log) == log
    ensures NoDuplicates(Accept(log, key))
  {
    SetOfDistinct(log, universe);
  }

  /**
   * With at most 32 distinct keys the ring is an exact set: every key that is offered is
   * accepted, and it is accepted once, however often and in whatever order it is offered.
   */
  lemma {:induction false} SmallUniverseExact<K>(calls: seq<K>, universe: set<K>)
    requires |universe| <= CACHE_SIZE && forall k :: k in calls ==> k in universe
    ensures NoDuplicates(AcceptAll(calls))
    ensures forall k :: k in AcceptAll(calls) ==> k in calls
    ensures forall k :: k in calls ==> k in AcceptAll(calls)
  {
    if calls != [] {
      var shorter, key := calls[..|calls| - 1], calls[|calls| - 1];
      assert calls == shorter + [key];
      SmallUniverseExact(shorter, universe);
      AcceptInSmallUniverse(AcceptAll(shorter), key, universe);
    }
  }

  /** The keys offered, each at its first offer. */
  function Firsts<K(==)>(calls: seq<K>): seq<K> {
    if calls == [] then []
    else
      var before, key := Firsts(calls[..|calls| - 1]), calls[|calls| - 1];
      if key in before then before else before + [key]
  }

  /** A key is offered again only while it is among the last 32 that were offered at all. */
  predicate RepeatsAreRecent<K(==)>(calls: seq<K>) {
    calls == [] ||
    (var before, key := Firsts(calls[..|calls| - 1]), calls[|calls| - 1];
     RepeatsAreRecent(calls[..|calls| - 1]) && (key in before ==> key in Window(before)))
  }

  lemma {:induction false} RecentRepeatsIgnored<K>(calls: seq<K>)
    requires RepeatsAreRecent(calls)
    ensures AcceptAll(calls) == Firsts(calls) && NoDuplicates(Firsts(calls))
  {
    if calls != [] {
      RecentRepeatsIgnored(calls[..|calls| - 1]);
      WindowIncluded(Firsts(calls[..|calls| - 1]), calls[|calls| - 1]);
    }
  }

  lemma {:induction false} LateRepeatAccepted<K>(calls: seq<K>) returns (i: nat, j: nat)
    requires !RepeatsAreRecent(calls)
    ensures i < j < |AcceptAll(calls)| && AcceptAll(calls)[i] == AcceptAll(calls)[j]
  {
    var shorter, key := calls[..|calls| - 1], calls[|calls| - 1];
    var before := AcceptAll(shorter);
    if RepeatsAreRecent(shorter) {
      RecentRepeatsIgnored(shorter);
      i :| 0 <= i < |before| && before[i] == key;
      j := |before|;
    } else {
      i, j := LateRepeatAccepted(shorter);
    }
  }

  /**
   * No key is ever accepted twice if and only if every repeated offer comes while its key is
   * among the last 32 that were offered; the ring then accepts each key at its first offer.
   */
  lemma {:induction false} ExactOnceIff<K>(calls: seq<K>)
    ensures NoDuplicates(AcceptAll(calls)) <==> RepeatsAreRecent(calls)
    ensures RepeatsAreRecent(calls) ==> AcceptAll(calls) == Firsts(calls)
  {
    if RepeatsAreRecent(calls) {
      RecentRepeatsIgnored(calls);
    } else {
      var i, j := LateRepeatAccepted(calls);
    }
  }

  lemma WindowIncluded<K>(log: seq<K>, key: K)
    ensures key in Window(log) ==> key in log
  {
  }

  lemma {:induction false} DistinctCallsAccepted<K>(calls: seq<K>)
    requires NoDuplicates(calls)
    ensures AcceptAll(calls) == calls
  {
    if calls != [] {
      var shorter, key := calls[..|calls| - 1], calls[|calls| - 1];
      DistinctCallsAccepted(shorter);
      assert calls == shorter + [key];
      assert forall i :: 0 <= i < |shorter| ==> shorter[i] == calls[i] && calls[i] != calls[|shorter|];
      WindowIncluded(shorter, key);
      assert Accept(shorter, key) == shorter + [key];
    }
  }

  /** The bound 32 is tight: any 33 distinct keys make the first of them accepted again. */
  lemma {:induction false} OneKeyTooMany<K>(keys: seq<K>)
    requires NoDuplicates(keys) && |keys| == CACHE_SIZE + 1
    ensures AcceptAll(keys + [keys[0]]) == keys + [keys[0]]
  {
    DistinctCallsAccepted(keys);
    assert (keys + [keys[0]])[..|keys|] == keys;
    assert Window(keys) == keys[1..];
  }
}
