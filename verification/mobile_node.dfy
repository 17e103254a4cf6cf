/**
 * The mobile node: the scan callback queues what it sniffs, the processing thread filters
 * by sequence number and keeps the latest record of each node, and the sender thread
 * transmits the records, an end-of-window marker, and clears.
 *
 * The processing thread is two steps, because the sender can run between the freshness
 * check and the moment the record is stored under the mutex.
 */
module MobileNodes {
  import opened Bytes
  import opened NodeNames
  import opened Packets
  import opened Tables
  import opened EnvPackets

  const SNIFFER_MAX_NODES: nat := 8
  const ADV_MSGQ_SIZE: nat := 32
  const NODE_TIMEOUT_MS: u32 := 30000

  datatype RawAdv = RawAdv(nodeId: Name, seqno: byte, telemetry: Telemetry)
  datatype LastSeen = LastSeen(seqno: byte, seenMs: u32)

  type SeqTable = seq<Entry<Name, LastSeen>>

  datatype Mobile = Mobile(queue: seq<RawAdv>, table: SeqTable, held: Option<RawAdv>, records: seq<EnvRecord>)

  const INITIAL_MOBILE := Mobile([], [], None, [])
  const NEVER_SEEN := LastSeen(0, 0)

  // ----- Steps on values -----

  /** The scan callback at true uptime `now`. */
  function Sniffing(width: nat, m: Mobile, ad: Advert, now: nat): Mobile
    requires width > 0
  {
    var s := Sniff(width, ad);
    if Usable(s) && |m.queue| < ADV_MSGQ_SIZE then
      m.(queue := m.queue + [RawAdv(s.nodeId, s.sample.seqno, Telemetry(TruncateU32(now), s.sample.reading))])
    else m
  }

  /** A sequence number is fresh when it grew, or when the node has been silent too long. */
  predicate SeqIsValid(entry: LastSeen, seqno: byte, now: u32) {
    SubU32(now, entry.seenMs) > NODE_TIMEOUT_MS || seqno > entry.seqno
  }

  /** The table with an entry for `name`, if it has one or has room for one. */
  function Tabled(table: SeqTable, name: Name): SeqTable {
    if IndexOf(table, name) < |table| || |table| >= SNIFFER_MAX_NODES then table
    else table + [Entry(name, NEVER_SEEN)]
  }

  /** Whether the filter passes a raw advertisement on to be stored. */
  predicate Passes(m: Mobile, raw: RawAdv, now: u32) {
    var table := Tabled(m.table, raw.nodeId);
    var i := IndexOf(table, raw.nodeId);
    i < |table| && SeqIsValid(table[i].value, raw.seqno, now)
  }

  function Filter(m: Mobile, now: u32): Mobile
    requires m.queue != []
  {
    var raw := m.queue[0];
    var table := Tabled(m.table, raw.nodeId);
    var dequeued := m.(queue := m.queue[1..], table := table);
    if Passes(m, raw, now) then
      dequeued.(held := Some(raw),
                table := table[IndexOf(table, raw.nodeId)
                                := Entry(raw.nodeId, LastSeen(raw.seqno, raw.telemetry.timestampMs))])
    else dequeued
  }

  function Store(m: Mobile): Mobile
    requires m.held.Some?
  {
    m.(held := None,
       records := UpsertBounded(SNIFFER_MAX_NODES, m.records, Entry(m.held.value.nodeId, m.held.value.telemetry)))
  }

  /** The state of the link when a notification is sent: down, up but failing, or working. */
  datatype Link = Down | Fails | Delivers

  /** The records that get through, from the i-th on; the first record that meets a dead link ends the loop. */
  function DeliveredFrom(records: seq<EnvRecord>, link: nat -> Link, i: nat): seq<EnvRecord>
    requires i <= |records|
    decreases |records| - i
  {
    if i == |records| || link(i).Down? then []
    else (if link(i).Delivers? then [records[i]] else []) + DeliveredFrom(records, link, i + 1)
  }

  /** The notifications of one window; the marker is attempted even if the loop was cut short. */
  function Window(width: nat, records: seq<EnvRecord>, link: nat -> Link): seq<EnvRecord>
    requires width >= |EOW_MARKER|
  {
    DeliveredFrom(records, link, 0) + if link(|records|).Delivers? then [EowRecord(width)] else []
  }

  /** Record j is attempted: the link was not down for it, nor for any record before it. */
  predicate Attempted(link: nat -> Link, j: nat) {
    forall k :: 0 <= k <= j ==> !link(k).Down?
  }

  /** The positions of the records that get through, from the i-th on. */
  function DeliveredAt(n: nat, link: nat -> Link, i: nat): seq<nat>
    requires i <= n
    decreases n - i
  {
    if i == n || link(i).Down? then []
    else (if link(i).Delivers? then [i] else []) + DeliveredAt(n, link, i + 1)
  }

  lemma {:induction false} DeliveredInOrder(records: seq<EnvRecord>, link: nat -> Link, i: nat)
    requires i <= |records|
    ensures var at, got := DeliveredAt(|records|, link, i), DeliveredFrom(records, link, i);
      && |at| == |got| && (forall n :: 0 <= n < |at| ==> i <= at[n] < |records| && got[n] == records[at[n]])
      && (forall n, m :: 0 <= n < m < |at| ==> at[n] < at[m])
    decreases |records| - i
  {
    if i < |records| && !link(i).Down? {
      DeliveredInOrder(records, link, i + 1);
    }
  }

  lemma {:induction false} DeliveredIff(records: seq<EnvRecord>, link: nat -> Link, i: nat, j: nat)
    requires i <= j < |records| && (forall k :: 0 <= k < i ==> !link(k).Down?)
    ensures j in DeliveredAt(|records|, link, i) <==> link(j).Delivers? && Attempted(link, j)
    decreases |records| - i
  {
    if !link(i).Down? {
      DeliveredInOrder(records, link, i + 1);
      if i < j {
        DeliveredIff(records, link, i + 1, j);
      }
    }
  }

  /**
   * Exactly which records get through: those attempted over a working link, in order. A record
   * that fails is skipped, and the first one that meets a dead link is the last one tried.
   */
  lemma DeliveredExactly(records: seq<EnvRecord>, link: nat -> Link)
    ensures var at, got := DeliveredAt(|records|, link, 0), DeliveredFrom(records, link, 0);
      && |at| == |got| && (forall n :: 0 <= n < |at| ==> at[n] < |records| && got[n] == records[at[n]])
      && (forall n, m :: 0 <= n < m < |at| ==> at[n] < at[m])
      && (forall j :: 0 <= j < |records| ==> (j in at <==> link(j).Delivers? && Attempted(link, j)))
  {
    DeliveredInOrder(records, link, 0);
    forall j | 0 <= j < |records|
      ensures j in DeliveredAt(|records|, link, 0) <==> link(j).Delivers? && Attempted(link, j)
    {
      DeliveredIff(records, link, 0, j);
    }
  }

  // ----- The node in place -----

  datatype SeqEntry = SeqEntry(nodeId: Name, lastSeq: byte, lastSeenMs: u32, valid: bool)

  class MobileNode {
    const width: nat
    const seqTable: array<SeqEntry>
    const nodeRecords: array<EnvRecord>
    var nodeCount: nat
    var advQueue: seq<RawAdv>
    var held: Option<RawAdv>
    ghost var tabled: nat  // how many table slots are in use: slots are never freed

    ghost predicate Valid()
      reads this, seqTable, nodeRecords
    {
      && width >= |EOW_MARKER|
      && seqTable.Length == SNIFFER_MAX_NODES && nodeRecords.Length == SNIFFER_MAX_NODES
      && tabled <= SNIFFER_MAX_NODES && nodeCount <= SNIFFER_MAX_NODES
      && forall i :: 0 <= i < SNIFFER_MAX_NODES ==> (seqTable[i].valid <==> i < tabled)
    }

    ghost function Table(): (table: SeqTable)
      reads this, seqTable
      requires tabled <= seqTable.Length
      ensures |table| == tabled
    {
      seq(tabled, i requires 0 <= i < tabled <= seqTable.Length reads this, seqTable =>
        Entry(seqTable[i].nodeId, LastSeen(seqTable[i].lastSeq, seqTable[i].lastSeenMs)))
    }

    ghost function View(): Mobile
      reads this, seqTable, nodeRecords
      requires Valid()
    {
      Mobile(advQueue, Table(), held, nodeRecords[..nodeCount])
    }

    constructor (width: nat)
      requires width >= |EOW_MARKER|
      ensures Valid() && fresh(seqTable) && fresh(nodeRecords)
      ensures this.width == width && View() == INITIAL_MOBILE
    {
      this.width := width;
      seqTable := new SeqEntry[SNIFFER_MAX_NODES](_ => SeqEntry([], 0, 0, false));
      nodeRecords := new EnvRecord[SNIFFER_MAX_NODES](_ => Entry([], Telemetry(0, Reading(0, 0, 0, 0))));
      nodeCount, advQueue, held, tabled := 0, [], None, 0;
    }

    method SnifferDeviceFound(ad: Advert, uptime: nat)
      requires Valid()
      modifies this`advQueue
      ensures Valid() && View() == Sniffing(width, old(View()), ad, uptime)
    {
      var s := ParseSnifferAdvert(width, ad);
      if s.isCmd || !s.hasName || !s.hasData {
        return;
      }
      var raw := RawAdv(s.nodeId, s.sample.seqno, Telemetry(TruncateU32(uptime), s.sample.reading));
      if |advQueue| < ADV_MSGQ_SIZE {
        advQueue := advQueue + [raw];
      }
    }

    /** Returns -1 when the name is not in the table and every slot is taken. */
    method FindOrAllocSeq(name: Name) returns (slot: int)
      requires Valid()
      modifies seqTable, this`tabled
      ensures Valid() && Table() == Tabled(old(Table()), name)
      ensures slot == if IndexOf(Table(), name) < |Table()| then IndexOf(Table(), name) else -1
    {
      for i := 0 to SNIFFER_MAX_NODES
        invariant Valid() && Table() == old(Table()) && unchanged(seqTable)
        invariant forall j :: 0 <= j < i && j < tabled ==> Table()[j].key != name
      {
        if seqTable[i].valid && seqTable[i].nodeId == name {
          IndexIsUnique(Table(), name, i);
          return i;
        }
      }
      IndexIsUnique(Table(), name, tabled);
      for i := 0 to SNIFFER_MAX_NODES
        invariant Valid() && i <= tabled && Table() == old(Table()) && unchanged(seqTable)
        invariant IndexOf(Table(), name) == tabled
      {
        if !seqTable[i].valid {
          seqTable[i] := SeqEntry(name, 0, 0, true);
          tabled := tabled + 1;
          assert Table() == old(Table()) + [Entry(name, NEVER_SEEN)];
          IndexIsUnique(Table(), name, i);
          return i;
        }
      }
      return -1;
    }

    /** The processing thread's freshness check on the oldest queued advertisement. */
    method ProcFilter(now: u32)
      requires Valid() && advQueue != []
      modifies this, seqTable
      ensures Valid() && View() == Filter(old(View()), now)
    {
      ghost var was := View();
      var raw := advQueue[0];
      advQueue := advQueue[1..];
      assert Table() == was.table;
      var slot := FindOrAllocSeq(raw.nodeId);
      if slot < 0 {
        return;
      }
      var entry := seqTable[slot];
      if SubU32(now, entry.lastSeenMs) > NODE_TIMEOUT_MS || raw.seqno > entry.lastSeq {
        RecordSeen(slot, raw);
        held := Some(raw);
      }
      assert Table() == Filter(was, now).table;
      assert nodeRecords[..nodeCount] == was.records;
    }

    method RecordSeen(slot: nat, raw: RawAdv)
      requires Valid() && slot < tabled && Table()[slot].key == raw.nodeId
      modifies seqTable
      ensures Valid()
      ensures Table() == old(Table())[slot := Entry(raw.nodeId, LastSeen(raw.seqno, raw.telemetry.timestampMs))]
    {
      var entry := seqTable[slot];
      seqTable[slot] := entry.(lastSeq := raw.seqno, lastSeenMs := raw.telemetry.timestampMs);
      assert entry.nodeId == raw.nodeId;
    }

    /** Returns -1 when the name has no record and every record is taken. */
    method FindOrAllocNode(name: Name) returns (slot: int)
      requires Valid()
      modifies this`nodeCount
      ensures Valid()
      ensures var before := old(nodeRecords[..nodeCount]);
        var i := IndexOf(before, name);
        if i < |before| then slot == i && nodeCount == old(nodeCount)
        else if |before| < SNIFFER_MAX_NODES then slot == |before| && nodeCount == old(nodeCount) + 1
        else slot == -1 && nodeCount == old(nodeCount)
    {
      for i := 0 to nodeCount
        invariant forall j :: 0 <= j < i ==> nodeRecords[j].key != name
      {
        if nodeRecords[i].key == name {
          IndexIsUnique(nodeRecords[..nodeCount], name, i);
          return i;
        }
      }
      IndexIsUnique(nodeRecords[..nodeCount], name, nodeCount);
      if nodeCount < SNIFFER_MAX_NODES {
        nodeCount := nodeCount + 1;
        return nodeCount - 1;
      }
      return -1;
    }

    method ProcStore()
      requires Valid() && held.Some?
      modifies this, nodeRecords
      ensures Valid() && View() == Store(old(View()))
    {
      ghost var before := nodeRecords[..nodeCount];
      var raw := held.value;
      var slot := FindOrAllocNode(raw.nodeId);
      if slot >= 0 {
        nodeRecords[slot] := Entry(raw.nodeId, raw.telemetry);
        ghost var e := Entry(raw.nodeId, raw.telemetry);
        assert nodeRecords[..nodeCount] == if slot < |before| then before[slot := e] else before + [e];
      }
      held := None;
    }

    /** The sender's loop over the records; `link(i)` is the link when notification i is attempted. */
    method SendRecords(link: nat -> Link) returns (delivered: seq<EnvRecord>)
      requires Valid()
      ensures delivered == DeliveredFrom(View().records, link, 0)
    {
      ghost var records := nodeRecords[..nodeCount];
      delivered := [];
      var i := 0;
      while i < nodeCount && !link(i).Down?
        invariant i <= nodeCount
        invariant delivered + DeliveredFrom(records, link, i) == DeliveredFrom(records, link, 0)
      {
        ghost var rest := DeliveredFrom(records, link, i + 1);
        if link(i).Delivers? {
          assert delivered + [nodeRecords[i]] + rest == delivered + ([nodeRecords[i]] + rest);
          delivered := delivered + [nodeRecords[i]];
        } else {
          assert [] + rest == rest;
        }
        i := i + 1;
      }
    }

    method ClearRecords()
      requires Valid()
      modifies this`nodeCount, nodeRecords
      ensures Valid() && View() == old(View()).(records := [])
    {
      for i := 0 to nodeRecords.Length
        invariant Valid()
      {
        nodeRecords[i] := Entry([], Telemetry(0, Reading(0, 0, 0, 0)));
      }
      nodeCount := 0;
      assert Table() == old(Table());
    }

    /** One window of the sender thread. */
    method NusSendWindow(link: nat -> Link) returns (delivered: seq<EnvRecord>)
      requires Valid()
      modifies this`nodeCount, nodeRecords
      ensures Valid() && View() == old(View()).(records := [])
      ensures delivered == Window(width, old(View()).records, link)
    {
      delivered := SendRecords(link);
      if link(nodeCount).Delivers? {
        delivered := delivered + [EowRecord(width)];
      }
      ClearRecords();
    }
  }
}
