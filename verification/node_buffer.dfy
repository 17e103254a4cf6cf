/** The base node's buffer: the latest record of each node heard in the current window. */
module NodeBuffers {
  import opened Bytes
  import opened Packets
  import opened Tables
  import opened EnvPackets

  const NODE_BUFFER_MAX: nat := 8

  class NodeBuffer {
    const buffer: array<EnvRecord>
    var count: nat

    ghost predicate Valid()
      reads this, buffer
    {
      buffer.Length == NODE_BUFFER_MAX && count <= NODE_BUFFER_MAX
    }

    ghost function Contents(): seq<EnvRecord>
      reads this, buffer
      requires Valid()
    {
      buffer[..count]
    }

    constructor ()
      ensures Valid() && fresh(buffer) && Contents() == []
    {
      buffer := new EnvRecord[NODE_BUFFER_MAX](_ => Entry([], Telemetry(0, Reading(0, 0, 0, 0))));
      count := 0;
    }

    /** A known node is overwritten in place, a new one is appended, or dropped when the buffer is full. */
    method Add(rec: EnvRecord)
      requires Valid()
      modifies this, buffer
      ensures Valid() && Contents() == UpsertBounded(NODE_BUFFER_MAX, old(Contents()), rec)
    {
      for i := 0 to count
        invariant forall j :: 0 <= j < i ==> buffer[j].key != rec.key
        invariant count == old(count) && Contents() == old(Contents())
      {
        if buffer[i].key == rec.key {
          IndexIsUnique(Contents(), rec.key, i);
          buffer[i] := rec;
          assert Contents() == old(Contents())[i := rec];
          return;
        }
      }
      IndexIsUnique(Contents(), rec.key, count);
      if count < NODE_BUFFER_MAX {
        buffer[count] := rec;
        count := count + 1;
        assert Contents() == old(Contents()) + [rec];
      }
    }

    method Get(index: int) returns (rec: Option<EnvRecord>)
      requires Valid()
      ensures rec == if 0 <= index < count then Some(Contents()[index]) else None
    {
      if index < 0 || index >= count {
        return None;
      }
      return Some(buffer[index]);
    }

    method Clear()
      requires Valid()
      modifies this, buffer
      ensures Valid() && Contents() == []
    {
      for i := 0 to buffer.Length
        invariant Valid()
      {
        buffer[i] := Entry([], Telemetry(0, Reading(0, 0, 0, 0)));
      }
      count := 0;
    }
  }

  /** The buffer after a sequence of additions, from an empty one. */
  function AddAll(events: seq<EnvRecord>): seq<EnvRecord> {
    if events == [] then []
    else UpsertBounded(NODE_BUFFER_MAX, AddAll(events[..|events| - 1]), events[|events| - 1])
  }

  /** The events of the first eight nodes to appear; a ninth node is never recorded. */
  function Recorded(events: seq<EnvRecord>): seq<EnvRecord> {
    if events == [] then []
    else
      var before, e := Recorded(events[..|events| - 1]), events[|events| - 1];
      var known := FirstKeys(before);
      if e.key in known || |known| < NODE_BUFFER_MAX then before + [e] else before
  }

  /**
   * After any additions the buffer is the ordered map of the recorded events: each node once,
   * in order of first appearance, with its last record. Only nodes beyond the eighth are lost.
   */
  lemma {:induction false} BufferIsOrderedMap(events: seq<EnvRecord>)
    ensures AddAll(events) == Collapse(Recorded(events))
    ensures DistinctKeys(AddAll(events)) && |AddAll(events)| <= NODE_BUFFER_MAX
  {
    if events != [] {
      BufferIsOrderedMap(events[..|events| - 1]);
      RecordOneMore(Recorded(events[..|events| - 1]), events[|events| - 1]);
    }
  }

  lemma RecordOneMore(before: seq<EnvRecord>, e: EnvRecord)
    requires |Collapse(before)| <= NODE_BUFFER_MAX
    ensures |FirstKeys(before)| == |Collapse(before)|
    ensures var table, known := Collapse(before), FirstKeys(before);
      var after := if e.key in known || |known| < NODE_BUFFER_MAX then before + [e] else before;
      && UpsertBounded(NODE_BUFFER_MAX, table, e) == Collapse(after)
      && DistinctKeys(Collapse(after)) && |Collapse(after)| <= NODE_BUFFER_MAX
  {
    CollapseIsLastValues(before);
    var table, known := Collapse(before), FirstKeys(before);
    if e.key in known {
      var k :| 0 <= k < |known| && known[k] == e.key;
      assert table[k].key == e.key;
    }
    assert e.key in known <==> IndexOf(table, e.key) < |table|;
    assert (before + [e])[..|before|] == before;
    UpsertKeys(table, e);
  }
}
