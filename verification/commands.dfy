/**
 * Command numbering. The mobile node numbers its broadcasts with an 8-bit counter that
 * wraps, and a sensor node recognises a command by (number, command) among the last 32 it
 * accepted. This module says exactly when that is enough to handle every command once.
 */
module Commands {
  import opened Bytes
  import opened SeenRings
  import opened ThingyNodes

  const BROADCAST_COUNT: nat := 3

  /** A broadcast: its number, counted without wrapping, and its command. */
  datatype Numbered = Numbered(number: nat, cmd: byte)

  /** The key under which a broadcast travels. */
  function KeyOf(b: Numbered): CommandKey {
    (b.number % 0x100, b.cmd)
  }

  function Keys(bs: seq<Numbered>): (keys: seq<CommandKey>)
    ensures |keys| == |bs|
  {
    seq(|bs|, i requires 0 <= i < |bs| => KeyOf(bs[i]))
  }

  /** The mobile node's broadcaster; `used` counts the numbers it has used up. */
  class Broadcaster {
    var seqno: byte
    ghost var used: nat

    ghost predicate Valid()
      reads this
    {
      seqno == used % 0x100
    }

    constructor ()
      ensures Valid() && used == 0
    {
      seqno := 0;
      used := 0;
    }

    /**
     * Broadcasts a command three times under consecutive numbers; `starts(i)` is whether the
     * controller starts the i-th advertisement. The first failure ends the broadcast, and the
     * number it was to carry is used up.
     */
    method DoBroadcastCommand(cmd: byte, starts: nat -> bool) returns (sent: seq<CommandKey>)
      requires Valid()
      modifies this
      ensures Valid()
      ensures |sent| <= BROADCAST_COUNT && (forall i :: 0 <= i < |sent| ==> starts(i))
      ensures |sent| < BROADCAST_COUNT ==> !starts(|sent|)
      ensures used == old(used) + |sent| + if |sent| < BROADCAST_COUNT then 1 else 0
      ensures sent == Keys(seq(|sent|, i requires i >= 0 => Numbered(old(used) + i, cmd)))
    {
      sent := [];
      for i := 0 to BROADCAST_COUNT
        invariant Valid() && |sent| == i && used == old(used) + i
        invariant forall j :: 0 <= j < i ==> starts(j)
        invariant sent == Keys(seq(i, j requires j >= 0 => Numbered(old(used) + j, cmd)))
      {
        var key := (seqno, cmd);
        seqno := (seqno + 1) % 0x100;
        used := used + 1;
        if !starts(i) {
          return;
        }
        sent := sent + [key];
      }
    }
  }

  // ----- What a node hears -----

  /**
   * A node first hears broadcasts in the order they were sent, perhaps missing some, and
   * otherwise hears repeats only of the latest 32 it has heard.
   */
  predicate InOrder(hs: seq<Numbered>) {
    hs == [] ||
    (var before, h := Firsts(hs[..|hs| - 1]), hs[|hs| - 1];
     InOrder(hs[..|hs| - 1]) && (h in Window(before) || forall b :: b in before ==> b.number < h.number))
  }

  /** Of any 33 consecutive broadcasts heard, no two share both wrapped number and command. */
  predicate NoCollision(first: seq<Numbered>) {
    forall i, j :: 0 <= i < j < |first| && j - i <= CACHE_SIZE ==> KeyOf(first[i]) != KeyOf(first[j])
  }

  lemma WindowOfKeys(first: seq<Numbered>, key: CommandKey)
    ensures key in Window(Keys(first)) <==> exists b :: b in Window(first) && KeyOf(b) == key
  {
    var keys, w := Window(Keys(first)), Window(first);
    assert |keys| == |w| && forall i :: 0 <= i < |w| ==> keys[i] == KeyOf(w[i]);
    if key in keys {
      var i :| 0 <= i < |keys| && keys[i] == key;
      assert w[i] in w;
    }
  }

  lemma NewKeyNotInWindow(first: seq<Numbered>, h: Numbered)
    requires NoCollision(first + [h])
    ensures NoCollision(first) && KeyOf(h) !in Window(Keys(first))
  {
    var all := first + [h];
    forall i, j | 0 <= i < j < |first| && j - i <= CACHE_SIZE
      ensures KeyOf(first[i]) != KeyOf(first[j])
    {
      assert all[i] == first[i] && all[j] == first[j];
    }
    var w := Window(first);
    forall i | 0 <= i < |w|
      ensures KeyOf(w[i]) != KeyOf(h)
    {
      var at := i + |first| - |w|;
      assert all[at] == w[i] && all[|first|] == h;
    }
    WindowOfKeys(first, KeyOf(h));
  }

  lemma RepeatIgnored(before: seq<Numbered>, h: Numbered)
    requires h in before && (h in Window(before) || forall b :: b in before ==> b.number < h.number)
    ensures Accept(Keys(before), KeyOf(h)) == Keys(before)
  {
    WindowOfKeys(before, KeyOf(h));
  }

  lemma NewAccepted(before: seq<Numbered>, h: Numbered)
    requires NoCollision(before + [h])
    ensures NoCollision(before)
    ensures Accept(Keys(before), KeyOf(h)) == Keys(before + [h])
  {
    NewKeyNotInWindow(before, h);
    assert Keys(before + [h]) == Keys(before) + [KeyOf(h)];
  }

  /** Without collisions each command is handled exactly once, in broadcast order. */
  lemma {:induction false} HandledOnce(hs: seq<Numbered>)
    requires InOrder(hs) && NoCollision(Firsts(hs))
    ensures AcceptAll(Keys(hs)) == Keys(Firsts(hs))
  {
    if hs != [] {
      var shorter, h := hs[..|hs| - 1], hs[|hs| - 1];
      var before := Firsts(shorter);
      assert Keys(hs)[..|hs| - 1] == Keys(shorter);
      if h in before {
        RepeatIgnored(before, h);
      } else {
        NewAccepted(before, h);
      }
      HandledOnce(shorter);
    }
  }

  /**
   * Exactly-once handling under 8-bit wrap-around, over runs of any length: a node's accept
   * log equals the list of broadcasts it heard if and only if no broadcast it heard shares
   * wrapped number and command with one of the 32 it heard before it.
   */
  lemma {:induction false} ExactlyOnceIff(hs: seq<Numbered>)
    requires InOrder(hs)
    ensures AcceptAll(Keys(hs)) == Keys(Firsts(hs)) <==> NoCollision(Firsts(hs))
  {
    var first := Firsts(hs);
    if NoCollision(first) {
      HandledOnce(hs);
    }
    if AcceptAll(Keys(hs)) == Keys(first) {
      forall i, j | 0 <= i < j < |first| && j - i <= CACHE_SIZE
        ensures KeyOf(first[i]) != KeyOf(first[j])
      {
        AcceptedKeysSpread(Keys(hs), i, j);
      }
    }
  }

  lemma {:induction false} FirstsAreSorted(hs: seq<Numbered>, i: nat, j: nat)
    requires InOrder(hs) && i < j < |Firsts(hs)|
    ensures Firsts(hs)[i].number < Firsts(hs)[j].number
  {
    var shorter, h := hs[..|hs| - 1], hs[|hs| - 1];
    var before := Firsts(shorter);
    if j < |before| {
      FirstsAreSorted(shorter, i, j);
    } else {
      assert before[i] in before;
    }
  }

  /**
   * A node handles every command it hears exactly once as long as any 33 broadcasts it hears
   * in a row span fewer than 256 numbers; in particular when it misses none.
   */
  lemma {:induction false} ShortGapsSuffice(hs: seq<Numbered>)
    requires InOrder(hs)
    requires var first := Firsts(hs);
      forall i, j :: 0 <= i < j < |first| && j - i <= CACHE_SIZE ==> first[j].number < first[i].number + 0x100
    ensures AcceptAll(Keys(hs)) == Keys(Firsts(hs))
  {
    var first := Firsts(hs);
    forall i, j | 0 <= i < j < |first| && j - i <= CACHE_SIZE
      ensures KeyOf(first[i]) != KeyOf(first[j])
    {
      FirstsAreSorted(hs, i, j);
      DifferentNumbers(first[i].number, first[j].number);
    }
    HandledOnce(hs);
  }

  lemma DifferentNumbers(a: nat, b: nat)
    requires a < b < a + 0x100
    ensures a % 0x100 != b % 0x100
  {
  }

  /** The condition matters: a node that sleeps through 255 broadcasts suppresses the next equal one. */
  lemma SleptThroughACycle(b: Numbered)
    ensures var hs := [b, b.(number := b.number + 0x100)];
      InOrder(hs) && Firsts(hs) == hs && AcceptAll(Keys(hs)) == [KeyOf(b)]
  {
    var c := b.(number := b.number + 0x100);
    var hs := [b, c];
    assert hs[..1] == [b];
    OneOffer(b);
    OneOffer(KeyOf(b));
    assert InOrder([b]) by {
      assert [b][..0] == [];
    }
    assert Keys(hs)[..1] == [KeyOf(b)] && KeyOf(c) == KeyOf(b);
  }

  lemma OneOffer<K>(key: K)
    ensures Firsts([key]) == [key] && AcceptAll([key]) == [key]
  {
    assert [key][..0] == [];
  }
}
