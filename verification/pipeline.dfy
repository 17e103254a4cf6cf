/**
 * From an advertisement to the Kalman filters: the mobile node and the base node together,
 * under every interleaving of scan callbacks, processing steps and send windows.
 *
 * The two nodes are taken to share one record layout, with names of `width` bytes, and the
 * base node's work item to run after each notification. `clock` is the true uptime of the
 * mobile node in milliseconds; only its low 32 bits are ever stored. The fields after
 * `base` are history, which no step reads.
 */
module Pipelines {
  import opened Bytes
  import opened NodeNames
  import opened Packets
  import opened Tables
  import opened EnvPackets
  import opened NodeBuffers
  import Kalman
  import opened AirQualities
  import opened MobileNodes
  import opened BaseNodes

  /** The sample of a queued advertisement, and when it was heard. */
  datatype Heard = Heard(sample: Sample, at: nat)

  /** An advertisement that passed the freshness filter. */
  datatype Acceptance = Acceptance(nodeId: Name, sample: Sample, heardAt: nat, processedAt: nat)

  datatype Pipeline = Pipeline(
    clock: nat,
    mobile: Mobile,
    base: Base,
    heard: seq<Heard>,           // what the mobile node's queue holds
    accepted: seq<Acceptance>,
    windowStart: nat,            // how many acceptances had been stored at the last window
    delivered: seq<EnvRecord>)   // records the base node received since the last marker it received

  const INITIAL_PIPELINE := Pipeline(0, INITIAL_MOBILE, INITIAL_BASE, [], [], 0, [])

  /** Any advertisement may be heard that fits legacy advertising, usable or not. */
  datatype Step =
    | Tick(ms: nat)
    | Hear(ad: Advert)
    | FilterOne
    | StoreOne
    | SendWindow(link: nat -> Link)
    | BaseDisconnects
    | BaseSleeps

  predicate WidthOk(width: nat) {
    width == MOBILE_NAME_LEN || width == BASE_NAME_LEN
  }

  predicate Enabled(s: Pipeline, step: Step) {
    match step
    case Hear(ad) => AdvertSize(ad) <= LEGACY_ADVERT_MAX
    case FilterOne => s.mobile.queue != [] && s.mobile.held.None?
    case StoreOne => s.mobile.held.Some?
    case _ => true
  }

  /** The sample an advertisement carries. */
  function Carried(ad: Advert): Sample {
    if SensorSamples(ad) == [] then EMPTY_SAMPLE else SensorSamples(ad)[0]
  }

  /** How many acceptances have been stored: all but the one the processing thread holds. */
  function StoredCount(holding: bool, log: seq<Acceptance>): nat {
    if holding && log != [] then |log| - 1 else |log|
  }

  function WindowOf(holding: bool, log: seq<Acceptance>, start: nat): seq<Acceptance> {
    if start <= StoredCount(holding, log) then log[start..StoredCount(holding, log)] else []
  }

  /** The acceptances stored since the last window. */
  function InWindow(s: Pipeline): seq<Acceptance> {
    WindowOf(s.mobile.held.Some?, s.accepted, s.windowStart)
  }

  /** The records the base node has received since its last marker, once a window was sent as well. */
  function Received(s: Pipeline, link: nat -> Link): seq<EnvRecord> {
    s.delivered + DeliveredFrom(s.mobile.records, link, 0)
  }

  predicate MarkerDelivered(s: Pipeline, link: nat -> Link) {
    link(|s.mobile.records|).Delivers?
  }

  function Apply(width: nat, s: Pipeline, step: Step): (r: Pipeline)
    requires WidthOk(width) && Measuring(s.base.air) && Enabled(s, step)
    ensures Measuring(r.base.air)
  {
    match step
    case Tick(ms) => s.(clock := s.clock + ms)
    case Hear(ad) =>
      var mobile := Sniffing(width, s.mobile, ad, s.clock);
      s.(mobile := mobile,
         heard := if mobile.queue == s.mobile.queue then s.heard else s.heard + [Heard(Carried(ad), s.clock)])
    case FilterOne =>
      var raw := s.mobile.queue[0];
      var passes := Passes(s.mobile, raw, TruncateU32(s.clock));
      s.(mobile := Filter(s.mobile, TruncateU32(s.clock)),
         heard := if s.heard == [] then [] else s.heard[1..],
         accepted := if passes && s.heard != []
                     then s.accepted + [Acceptance(raw.nodeId, s.heard[0].sample, s.heard[0].at, s.clock)]
                     else s.accepted)
    case StoreOne => s.(mobile := Store(s.mobile))
    case SendWindow(link) =>
      s.(mobile := s.mobile.(records := []),
         base := ProcessAll(s.base, MobileNodes.Window(width, s.mobile.records, link)),
         windowStart := StoredCount(s.mobile.held.Some?, s.accepted),
         delivered := if MarkerDelivered(s, link) then [] else Received(s, link))
    case BaseDisconnects => s.(base := Disconnected(s.base))
    case BaseSleeps =>
      InitialMeasuring();
      s.(base := SleepSent(s.base))
  }

  predicate CanRun(width: nat, s: Pipeline, steps: seq<Step>)
    requires WidthOk(width) && Measuring(s.base.air)
    decreases |steps|
  {
    steps == [] || (Enabled(s, steps[0]) && CanRun(width, Apply(width, s, steps[0]), steps[1..]))
  }

  function After(width: nat, s: Pipeline, steps: seq<Step>): (r: Pipeline)
    requires WidthOk(width) && Measuring(s.base.air) && CanRun(width, s, steps)
    ensures Measuring(r.base.air)
    decreases |steps|
  {
    if steps == [] then s else After(width, Apply(width, s, steps[0]), steps[1..])
  }

  // ----- Invariant -----

  function Named(width: nat): byte -> Name
    requires width > 0
  {
    (o: byte) => NodeName(width, o)
  }

  /** What the mobile node makes of a sample heard at a given time. */
  function RawOf(width: nat, sample: Sample, at: nat): RawAdv
    requires width > 0
  {
    RawAdv(NodeName(width, sample.origin), sample.seqno, Telemetry(TruncateU32(at), sample.reading))
  }

  predicate HeardAs(width: nat, clock: nat, raw: RawAdv, h: Heard)
    requires width > 0
  {
    raw == RawOf(width, h.sample, h.at) && h.at <= clock
  }

  /** The readings of acceptances, by origin. */
  function Readings(log: seq<Acceptance>): (r: seq<Entry<byte, Telemetry>>)
    ensures |r| == |log|
    ensures forall i :: 0 <= i < |r| ==>
      r[i] == Entry(log[i].sample.origin, Telemetry(TruncateU32(log[i].heardAt), log[i].sample.reading))
  {
    seq(|log|, i requires 0 <= i < |log| =>
      Entry(log[i].sample.origin, Telemetry(TruncateU32(log[i].heardAt), log[i].sample.reading)))
  }

  predicate QueueMatches(width: nat, clock: nat, queue: seq<RawAdv>, heard: seq<Heard>)
    requires width > 0
  {
    |heard| == |queue| && forall i :: 0 <= i < |queue| ==> HeardAs(width, clock, queue[i], heard[i])
  }

  /** The held advertisement is the last one accepted. */
  predicate HoldsLast(width: nat, held: Option<RawAdv>, log: seq<Acceptance>)
    requires width > 0
  {
    held.Some? ==>
      log != [] && held.value == RawOf(width, log[|log| - 1].sample, log[|log| - 1].heardAt)
  }

  ghost predicate TableInvariant(table: SeqTable) {
    DistinctKeys(table) && |table| <= SNIFFER_MAX_NODES && forall k :: k in KeySet(table) ==> !IsEow(k)
  }

  /** The record table after these acceptances have been stored. */
  function RecordsOf(width: nat, log: seq<Acceptance>): seq<EnvRecord>
    requires width > 0
  {
    Collapse(Rename(Readings(log), Named(width)))
  }

  /** What is held and the record table, against the log of acceptances. */
  ghost predicate StorageInvariant(width: nat, m: Mobile, log: seq<Acceptance>, start: nat)
    requires WidthOk(width)
  {
    && HoldsLast(width, m.held, log) && (m.held.Some? ==> m.held.value.nodeId in KeySet(m.table))
    && KeySet(m.records) <= KeySet(m.table)
    && start <= StoredCount(m.held.Some?, log)
    && m.records == RecordsOf(width, WindowOf(m.held.Some?, log, start))
  }

  ghost predicate BufferWithin(b: Base, keys: set<Name>) {
    DistinctKeys(b.buffer) && KeySet(b.buffer) <= keys
  }

  ghost predicate BaseInvariant(b: Base, table: SeqTable, delivered: seq<EnvRecord>) {
    Measuring(b.air) && BufferWithin(b, KeySet(table)) && b.buffer == Collapse(delivered)
  }

  ghost predicate Invariant(width: nat, s: Pipeline)
    requires WidthOk(width)
  {
    && QueueMatches(width, s.clock, s.mobile.queue, s.heard)
    && StorageInvariant(width, s.mobile, s.accepted, s.windowStart)
    && TableInvariant(s.mobile.table)
    && BaseInvariant(s.base, s.mobile.table, s.delivered)
    && Freshness(s.clock, s.mobile.table, s.accepted)
  }

  // ----- Freshness -----

  function LastFor(log: seq<Acceptance>, id: Name): Option<Acceptance> {
    if log == [] then None
    else if log[|log| - 1].nodeId == id then Some(log[|log| - 1])
    else LastFor(log[..|log| - 1], id)
  }

  /** A later acceptance has a larger sequence number, or comes more than the timeout after the earlier was heard. */
  predicate Follows(earlier: Option<Acceptance>, later: Acceptance) {
    earlier.None? || later.sample.seqno > earlier.value.sample.seqno || later.processedAt - earlier.value.heardAt > NODE_TIMEOUT_MS
  }

  predicate FreshLog(log: seq<Acceptance>) {
    forall j :: 0 <= j < |log| ==> Follows(LastFor(log[..j], log[j].nodeId), log[j])
  }

  /** A table entry holds what the last acceptance under its name left there. */
  predicate Reflects(clock: nat, entry: Entry<Name, LastSeen>, last: Option<Acceptance>) {
    match last
    case None => entry.value == NEVER_SEEN
    case Some(a) => entry.value == LastSeen(a.sample.seqno, TruncateU32(a.heardAt)) && a.heardAt <= clock
  }

  ghost predicate Freshness(clock: nat, table: SeqTable, log: seq<Acceptance>) {
    FreshLog(log) && TableReflects(clock, table, log) && AllTabled(table, log)
  }

  ghost predicate TableReflects(clock: nat, table: SeqTable, log: seq<Acceptance>) {
    forall i :: 0 <= i < |table| ==> Reflects(clock, table[i], LastFor(log, table[i].key))
  }

  ghost predicate AllTabled(table: SeqTable, log: seq<Acceptance>) {
    forall i :: 0 <= i < |log| ==> IndexOf(table, log[i].nodeId) < |table|
  }

  lemma LastForIsLogged(log: seq<Acceptance>, id: Name)
    ensures LastFor(log, id).Some? ==> LastFor(log, id).value in log && LastFor(log, id).value.nodeId == id
  {
  }

  lemma LastForSnoc(log: seq<Acceptance>, a: Acceptance, id: Name)
    ensures LastFor(log + [a], id) == if a.nodeId == id then Some(a) else LastFor(log, id)
  {
    assert (log + [a])[..|log|] == log;
  }

  lemma FreshLogSnoc(log: seq<Acceptance>, a: Acceptance)
    requires FreshLog(log) && Follows(LastFor(log, a.nodeId), a)
    ensures FreshLog(log + [a])
  {
    var all := log + [a];
    forall j | 0 <= j < |all|
      ensures Follows(LastFor(all[..j], all[j].nodeId), all[j])
    {
      if j < |log| {
        assert all[..j] == log[..j] && all[j] == log[j];
      } else {
        assert all[..j] == log;
      }
    }
  }

  /** A later clock and a longer table change nothing. */
  lemma TabledKeepsFreshness(clock: nat, clock': nat, table: SeqTable, name: Name, log: seq<Acceptance>)
    requires clock <= clock' && TableReflects(clock, table, log) && AllTabled(table, log)
    ensures TableReflects(clock', Tabled(table, name), log) && AllTabled(Tabled(table, name), log)
    ensures TableReflects(clock', table, log)
  {
    var after := Tabled(table, name);
    LastForIsLogged(log, name);
    forall i | 0 <= i < |log|
      ensures IndexOf(after, log[i].nodeId) < |after|
    {
      var k := IndexOf(table, log[i].nodeId);
      assert after[k] == table[k];
    }
    forall i | 0 <= i < |after|
      ensures Reflects(clock', after[i], LastFor(log, after[i].key))
    {
      if i < |table| {
        assert Reflects(clock, table[i], LastFor(log, table[i].key));
      }
    }
  }

  /** What the wrapped clock arithmetic of the filter means in true time. */
  predicate PassesInTrueTime(last: Option<Acceptance>, seqno: byte, now: nat) {
    match last
    case None => seqno > 0 || now % U32_RANGE > NODE_TIMEOUT_MS
    case Some(a) => seqno > a.sample.seqno || (a.heardAt <= now && (now - a.heardAt) % U32_RANGE > NODE_TIMEOUT_MS)
  }

  lemma ValidInTrueTime(entry: Entry<Name, LastSeen>, last: Option<Acceptance>, seqno: byte, now: nat)
    requires Reflects(now, entry, last)
    ensures SeqIsValid(entry.value, seqno, TruncateU32(now)) <==> PassesInTrueTime(last, seqno, now)
    ensures PassesInTrueTime(last, seqno, now) && last.Some? ==>
      seqno > last.value.sample.seqno || now - last.value.heardAt > NODE_TIMEOUT_MS
  {
    if last.Some? {
      SubU32IsElapsed(now, last.value.heardAt);
      RemainderAtMost(now - last.value.heardAt);
    }
  }

  lemma RemainderAtMost(x: nat)
    ensures x % U32_RANGE <= x
  {
  }

  lemma AcceptKeepsFreshness(clock: nat, table: SeqTable, log: seq<Acceptance>, at: nat, i: nat, sample: Sample)
    requires FreshLog(log) && TableReflects(clock, table, log) && AllTabled(table, log) && DistinctKeys(table)
    requires i < |table| && at <= clock && SeqIsValid(table[i].value, sample.seqno, TruncateU32(clock))
    ensures var id := table[i].key;
      var log' := log + [Acceptance(id, sample, at, clock)];
      var table' := table[i := Entry(id, LastSeen(sample.seqno, TruncateU32(at)))];
      FreshLog(log') && TableReflects(clock, table', log') && AllTabled(table', log')
  {
    var id := table[i].key;
    var a := Acceptance(id, sample, at, clock);
    var table' := table[i := Entry(id, LastSeen(sample.seqno, TruncateU32(at)))];
    ValidInTrueTime(table[i], LastFor(log, id), sample.seqno, clock);
    FreshLogSnoc(log, a);
    forall j | 0 <= j < |table'|
      ensures Reflects(clock, table'[j], LastFor(log + [a], table'[j].key))
    {
      LastForSnoc(log, a, table'[j].key);
    }
    forall j | 0 <= j < |log + [a]|
      ensures IndexOf(table', (log + [a])[j].nodeId) < |table'|
    {
      var name := (log + [a])[j].nodeId;
      var k := if j < |log| then IndexOf(table, name) else i;
      assert table'[k].key == name;
    }
  }

  // ----- Every step keeps the invariant -----

  lemma UsableIsHeard(width: nat, m: Mobile, ad: Advert, now: nat)
    requires WidthOk(width) && AdvertSize(ad) <= LEGACY_ADVERT_MAX
    ensures var m' := Sniffing(width, m, ad, now);
      if Usable(Sniff(width, ad)) && |m.queue| < ADV_MSGQ_SIZE
      then SensorSamples(ad) == [Carried(ad)] && m' == m.(queue := m.queue + [RawOf(width, Carried(ad), now)])
      else m' == m
  {
    if Usable(Sniff(width, ad)) {
      LegacyNamesAreTrue(width, ad);
    }
  }

  lemma HearKeeps(width: nat, s: Pipeline, ad: Advert)
    requires WidthOk(width) && Invariant(width, s) && Enabled(s, Hear(ad))
    ensures Invariant(width, Apply(width, s, Hear(ad)))
  {
    HearQueues(width, s, ad);
    if Apply(width, s, Hear(ad)) != s {
      QueueingKeeps(width, s, Heard(Carried(ad), s.clock));
    }
  }

  function Queueing(width: nat, s: Pipeline, h: Heard): Pipeline
    requires width > 0
  {
    s.(mobile := s.mobile.(queue := s.mobile.queue + [RawOf(width, h.sample, h.at)]), heard := s.heard + [h])
  }

  /** A usable advertisement is queued while there is room; others, and overflow, change nothing. */
  lemma HearQueues(width: nat, s: Pipeline, ad: Advert)
    requires WidthOk(width) && Measuring(s.base.air) && Enabled(s, Hear(ad))
    ensures var usable := HasNodeName(ad) && !HasCommand(ad) && SensorSamples(ad) != [];
      Apply(width, s, Hear(ad)) ==
        if usable && |s.mobile.queue| < 32 then Queueing(width, s, Heard(Carried(ad), s.clock)) else s
    ensures Apply(width, s, Hear(ad)) != s ==> SensorSamples(ad) == [Carried(ad)]
  {
    UsableIsHeard(width, s.mobile, ad, s.clock);
  }

  lemma QueueingKeeps(width: nat, s: Pipeline, h: Heard)
    requires WidthOk(width) && Invariant(width, s) && h.at <= s.clock
    ensures Invariant(width, Queueing(width, s, h))
  {
    QueueGrows(width, s.clock, s.mobile.queue, s.heard, h);
  }

  lemma QueueGrows(width: nat, clock: nat, queue: seq<RawAdv>, heard: seq<Heard>, h: Heard)
    requires WidthOk(width) && QueueMatches(width, clock, queue, heard) && h.at <= clock
    ensures QueueMatches(width, clock, queue + [RawOf(width, h.sample, h.at)], heard + [h])
  {
  }

  lemma QueueLater(width: nat, clock: nat, clock': nat, queue: seq<RawAdv>, heard: seq<Heard>)
    requires WidthOk(width) && QueueMatches(width, clock, queue, heard) && clock <= clock'
    ensures QueueMatches(width, clock', queue, heard)
  {
    forall i | 0 <= i < |queue|
      ensures HeardAs(width, clock', queue[i], heard[i])
    {
      assert HeardAs(width, clock, queue[i], heard[i]);
    }
  }

  lemma TickKeeps(width: nat, s: Pipeline, ms: nat)
    requires WidthOk(width) && Invariant(width, s)
    ensures Invariant(width, Apply(width, s, Tick(ms)))
  {
    TabledKeepsFreshness(s.clock, s.clock + ms, s.mobile.table, [], s.accepted);
    QueueLater(width, s.clock, s.clock + ms, s.mobile.queue, s.heard);
  }

  /** Adding a node name to the sequence table. */
  lemma TabledKeepsTable(width: nat, table: SeqTable, origin: byte)
    requires WidthOk(width) && DistinctKeys(table) && |table| <= SNIFFER_MAX_NODES
    requires forall k :: k in KeySet(table) ==> !IsEow(k)
    ensures var after := Tabled(table, NodeName(width, origin));
      && DistinctKeys(after) && |after| <= SNIFFER_MAX_NODES && KeySet(table) <= KeySet(after)
      && forall k :: k in KeySet(after) ==> !IsEow(k)
  {
    var name := NodeName(width, origin);
    NodeNameIsNotEow(width, origin);
    if IndexOf(table, name) == |table| {
      UpsertKeys(table, Entry(name, NEVER_SEEN));
    }
  }

  lemma ReplaceKeepsKeys<V>(table: seq<Entry<Name, V>>, i: nat, e: Entry<Name, V>)
    requires i < |table| && table[i].key == e.key && DistinctKeys(table)
    ensures KeySet(table[i := e]) == KeySet(table) && DistinctKeys(table[i := e]) && e.key in KeySet(table)
  {
    IndexIsUnique(table, e.key, i);
    UpsertKeys(table, e);
    assert table[i] in table;
  }

  /** What one filtering step does to the sequence table and the log. */
  lemma FilterTable(width: nat, s: Pipeline)
    requires WidthOk(width) && Invariant(width, s) && Enabled(s, FilterOne)
    ensures var s', m := Apply(width, s, FilterOne), s.mobile;
      && TableInvariant(s'.mobile.table) && KeySet(m.table) <= KeySet(s'.mobile.table)
      && Freshness(s'.clock, s'.mobile.table, s'.accepted)
      && (s'.mobile.held.Some? ==> s'.mobile.held.value == m.queue[0] && m.queue[0].nodeId in KeySet(s'.mobile.table))
  {
    var raw, h, m := s.mobile.queue[0], s.heard[0], s.mobile;
    assert HeardAs(width, s.clock, raw, h);
    var table := Tabled(m.table, raw.nodeId);
    TabledKeepsTable(width, m.table, h.sample.origin);
    TabledKeepsFreshness(s.clock, s.clock, m.table, raw.nodeId, s.accepted);
    if Passes(m, raw, TruncateU32(s.clock)) {
      var i := IndexOf(table, raw.nodeId);
      ReplaceKeepsKeys(table, i, Entry(raw.nodeId, LastSeen(raw.seqno, raw.telemetry.timestampMs)));
      AcceptKeepsFreshness(s.clock, table, s.accepted, h.at, i, h.sample);
    }
  }

  /** And to what is held, the rest staying as it is. */
  lemma FilterHolds(width: nat, s: Pipeline)
    requires WidthOk(width) && Measuring(s.base.air) && Enabled(s, FilterOne) && s.heard != []
    ensures var s', raw := Apply(width, s, FilterOne), s.mobile.queue[0];
      && s'.mobile.queue == s.mobile.queue[1..] && s'.heard == s.heard[1..] && s'.clock == s.clock
      && s'.base == s.base && s'.delivered == s.delivered && s'.windowStart == s.windowStart
      && s'.mobile.records == s.mobile.records
      && if Passes(s.mobile, raw, TruncateU32(s.clock))
         then s'.mobile.held == Some(raw)
              && s'.accepted == s.accepted + [Acceptance(raw.nodeId, s.heard[0].sample, s.heard[0].at, s.clock)]
         else s'.mobile.held == None && s'.accepted == s.accepted
  {
  }

  lemma QueueTail(width: nat, clock: nat, queue: seq<RawAdv>, heard: seq<Heard>)
    requires width > 0 && QueueMatches(width, clock, queue, heard) && queue != []
    ensures HeardAs(width, clock, queue[0], heard[0]) && QueueMatches(width, clock, queue[1..], heard[1..])
  {
    forall i | 0 <= i < |queue[1..]|
      ensures HeardAs(width, clock, queue[1..][i], heard[1..][i])
    {
      assert HeardAs(width, clock, queue[i + 1], heard[i + 1]);
    }
  }

  /** What is held is not stored yet, so the window stays the same. */
  lemma HoldingWindow(log: seq<Acceptance>, start: nat, a: Acceptance)
    requires start <= |log|
    ensures WindowOf(true, log + [a], start) == WindowOf(false, log, start)
    ensures StoredCount(true, log + [a]) == |log|
  {
  }

  lemma FilterKeeps(width: nat, s: Pipeline)
    requires WidthOk(width) && Invariant(width, s) && Enabled(s, FilterOne)
    ensures Invariant(width, Apply(width, s, FilterOne))
  {
    FilterTable(width, s);
    FilterHolds(width, s);
    QueueTail(width, s.clock, s.mobile.queue, s.heard);
    HoldingWindow(s.accepted, s.windowStart,
                  Acceptance(s.mobile.queue[0].nodeId, s.heard[0].sample, s.heard[0].at, s.clock));
  }

  lemma KeysFit<V>(table: seq<Entry<Name, V>>)
    ensures |KeySet(table)| <= |table|
  {
    if table == [] {
      assert KeySet(table) == {};
    } else {
      var shorter, last := table[..|table| - 1], table[|table| - 1];
      KeysFit(shorter);
      assert table == shorter + [last];
      assert KeySet(table) == KeySet(shorter) + {last.key};
    }
  }

  /** The branch in which the record table is full is never taken. */
  lemma RecordTableHasRoom(width: nat, s: Pipeline)
    requires WidthOk(width) && Invariant(width, s) && Enabled(s, StoreOne)
    ensures var e := Entry(s.mobile.held.value.nodeId, s.mobile.held.value.telemetry);
      && UpsertBounded(SNIFFER_MAX_NODES, s.mobile.records, e) == Upsert(s.mobile.records, e)
      && (IndexOf(s.mobile.records, e.key) < |s.mobile.records| || |s.mobile.records| < SNIFFER_MAX_NODES)
  {
    var m := s.mobile;
    CollapseIsLastValues(Rename(Readings(InWindow(s)), Named(width)));
    KeysFit(m.table);
    NeverFull(SNIFFER_MAX_NODES, m.records, Entry(m.held.value.nodeId, m.held.value.telemetry), KeySet(m.table));
  }

  lemma RecordsStep(width: nat, log: seq<Acceptance>, a: Acceptance)
    requires width > 0
    ensures RecordsOf(width, log + [a])
         == Upsert(RecordsOf(width, log), Entry(NodeName(width, a.sample.origin),
                                                Telemetry(TruncateU32(a.heardAt), a.sample.reading)))
  {
    var named, longer := Rename(Readings(log), Named(width)), Rename(Readings(log + [a]), Named(width));
    assert longer[..|log|] == named;
  }

  lemma StoreEffect(width: nat, s: Pipeline)
    requires WidthOk(width) && Invariant(width, s) && Enabled(s, StoreOne)
    ensures var e := Entry(s.mobile.held.value.nodeId, s.mobile.held.value.telemetry);
      Apply(width, s, StoreOne) == s.(mobile := s.mobile.(held := None, records := Upsert(s.mobile.records, e)))
  {
    RecordTableHasRoom(width, s);
  }

  lemma StoreWindow(log: seq<Acceptance>, start: nat)
    requires log != [] && start <= StoredCount(true, log)
    ensures WindowOf(false, log, start) == WindowOf(true, log, start) + [log[|log| - 1]]
  {
  }

  lemma StoreKeepsStorage(width: nat, m: Mobile, log: seq<Acceptance>, start: nat)
    requires WidthOk(width) && StorageInvariant(width, m, log, start) && m.held.Some?
    ensures var e := Entry(m.held.value.nodeId, m.held.value.telemetry);
      StorageInvariant(width, m.(held := None, records := Upsert(m.records, e)), log, start)
  {
    StoreWindow(log, start);
    RecordsStep(width, WindowOf(true, log, start), log[|log| - 1]);
    UpsertKeys(m.records, Entry(m.held.value.nodeId, m.held.value.telemetry));
  }

  lemma StoreKeeps(width: nat, s: Pipeline)
    requires WidthOk(width) && Invariant(width, s) && Enabled(s, StoreOne)
    ensures Invariant(width, Apply(width, s, StoreOne))
  {
    StoreEffect(width, s);
    StoreKeepsStorage(width, s.mobile, s.accepted, s.windowStart);
  }

  // ----- The base node's side of a window -----

  lemma ProcessKeepsWithin(b: Base, rec: EnvRecord, keys: set<Name>)
    requires Measuring(b.air) && BufferWithin(b, keys) && |keys| <= NODE_BUFFER_MAX
    requires rec.key in keys || IsEow(rec.key)
    ensures BufferWithin(Process(b, rec), keys)
    ensures !IsEow(rec.key) ==> Process(b, rec).buffer == Upsert(b.buffer, rec)
    ensures !IsEow(rec.key) ==> IndexOf(b.buffer, rec.key) < |b.buffer| || |b.buffer| < NODE_BUFFER_MAX
  {
    if !IsEow(rec.key) {
      NeverFull(NODE_BUFFER_MAX, b.buffer, rec, keys);
      UpsertKeys(b.buffer, rec);
    }
  }

  lemma {:induction false} ProcessAllKeepsWithin(b: Base, recs: seq<EnvRecord>, keys: set<Name>)
    requires Measuring(b.air) && BufferWithin(b, keys) && |keys| <= NODE_BUFFER_MAX
    requires forall r :: r in recs ==> r.key in keys || IsEow(r.key)
    ensures BufferWithin(ProcessAll(b, recs), keys)
  {
    if recs != [] {
      ProcessAllKeepsWithin(b, recs[..|recs| - 1], keys);
      ProcessKeepsWithin(ProcessAll(b, recs[..|recs| - 1]), recs[|recs| - 1], keys);
    }
  }

  lemma {:induction false} DeliveredAreRecords(records: seq<EnvRecord>, link: nat -> Link, i: nat)
    requires i <= |records|
    ensures forall r :: r in DeliveredFrom(records, link, i) ==> r in records
    decreases |records| - i
  {
    if i < |records| {
      DeliveredAreRecords(records, link, i + 1);
    }
  }

  lemma WindowKeys(width: nat, records: seq<EnvRecord>, link: nat -> Link, keys: set<Name>)
    requires WidthOk(width) && KeySet(records) <= keys
    ensures forall r :: r in MobileNodes.Window(width, records, link) ==> r.key in keys || IsEow(r.key)
  {
    DeliveredAreRecords(records, link, 0);
    EowIsEow(width);
    forall r | r in MobileNodes.Window(width, records, link)
      ensures r.key in keys || IsEow(r.key)
    {
      if r in records {
        assert r.key in KeySet(records);
      }
    }
  }

  /** The base node's buffer keeps the records received since its last marker, each node once. */
  lemma {:induction false} BufferCollects(b: Base, delivered: seq<EnvRecord>, records: seq<EnvRecord>, keys: set<Name>)
    requires Measuring(b.air) && b.buffer == Collapse(delivered) && BufferWithin(b, keys) && |keys| <= NODE_BUFFER_MAX
    requires forall r :: r in records ==> r.key in keys && !IsEow(r.key)
    ensures ProcessAll(b, records) == b.(buffer := Collapse(delivered + records))
    ensures BufferWithin(ProcessAll(b, records), keys)
  {
    if records == [] {
      assert delivered + records == delivered;
    } else {
      var shorter, last := records[..|records| - 1], records[|records| - 1];
      assert last in records;
      BufferCollects(b, delivered, shorter, keys);
      ProcessKeepsWithin(ProcessAll(b, shorter), last, keys);
      assert (delivered + records)[..|delivered + records| - 1] == delivered + shorter;
    }
  }

  lemma DeliveredAreNodes(records: seq<EnvRecord>, link: nat -> Link, keys: set<Name>)
    requires KeySet(records) <= keys && forall k :: k in keys ==> !IsEow(k)
    ensures forall r :: r in DeliveredFrom(records, link, 0) ==> r.key in keys && !IsEow(r.key)
  {
    DeliveredAreRecords(records, link, 0);
    forall r | r in DeliveredFrom(records, link, 0)
      ensures r.key in keys
    {
      assert r.key in KeySet(records);
    }
  }

  /** The base node's handling of some records, and of some records and a marker. */
  lemma MarkerFeeds(b: Base, delivered: seq<EnvRecord>, records: seq<EnvRecord>, marker: EnvRecord, keys: set<Name>)
    requires Measuring(b.air) && b.buffer == Collapse(delivered) && BufferWithin(b, keys) && |keys| <= NODE_BUFFER_MAX
    requires (forall r :: r in records ==> r.key in keys && !IsEow(r.key)) && IsEow(marker.key)
    ensures ProcessAll(b, records) == b.(buffer := Collapse(delivered + records))
    ensures var air := Feed(b.air, Collapse(delivered + records));
      ProcessAll(b, records + [marker]) == Base([], air, Alarms.Announce(b.panel, Eco2Class(air), TvocClass(air)))
  {
    BufferCollects(b, delivered, records, keys);
    assert (records + [marker])[..|records|] == records;
  }

  lemma ReceivedWindow(width: nat, s: Pipeline, link: nat -> Link)
    requires WidthOk(width) && BaseInvariant(s.base, s.mobile.table, s.delivered)
    requires TableInvariant(s.mobile.table) && KeySet(s.mobile.records) <= KeySet(s.mobile.table)
    ensures var records, got := DeliveredFrom(s.mobile.records, link, 0), Collapse(Received(s, link));
      var air := Feed(s.base.air, got);
      && ProcessAll(s.base, records) == s.base.(buffer := got)
      && ProcessAll(s.base, records + [EowRecord(width)])
           == Base([], air, Alarms.Announce(s.base.panel, Eco2Class(air), TvocClass(air)))
  {
    KeysFit(s.mobile.table);
    EowIsEow(width);
    DeliveredAreNodes(s.mobile.records, link, KeySet(s.mobile.table));
    MarkerFeeds(s.base, s.delivered, DeliveredFrom(s.mobile.records, link, 0), EowRecord(width), KeySet(s.mobile.table));
  }

  /** A window over any link, by whether its marker gets through. */
  lemma WindowCollects(width: nat, s: Pipeline, link: nat -> Link)
    requires WidthOk(width) && BaseInvariant(s.base, s.mobile.table, s.delivered)
    requires TableInvariant(s.mobile.table) && KeySet(s.mobile.records) <= KeySet(s.mobile.table)
    ensures var after, got := Apply(width, s, SendWindow(link)).base, Collapse(Received(s, link));
      if MarkerDelivered(s, link) then
        var air := Feed(s.base.air, got);
        after == Base([], air, Alarms.Announce(s.base.panel, Eco2Class(air), TvocClass(air)))
      else after == s.base.(buffer := got)
  {
    ReceivedWindow(width, s, link);
    WindowProcessed(width, s, link);
  }

  lemma WindowProcessed(width: nat, s: Pipeline, link: nat -> Link)
    requires WidthOk(width) && Measuring(s.base.air)
    ensures var records := DeliveredFrom(s.mobile.records, link, 0);
      Apply(width, s, SendWindow(link)).base
        == ProcessAll(s.base, if MarkerDelivered(s, link) then records + [EowRecord(width)] else records)
  {
    WindowIs(width, s, link);
  }

  lemma WindowIs(width: nat, s: Pipeline, link: nat -> Link)
    requires WidthOk(width)
    ensures MobileNodes.Window(width, s.mobile.records, link)
         == if MarkerDelivered(s, link) then DeliveredFrom(s.mobile.records, link, 0) + [EowRecord(width)]
            else DeliveredFrom(s.mobile.records, link, 0)
  {
  }

  lemma SendKeepsWithin(width: nat, b: Base, m: Mobile, link: nat -> Link)
    requires WidthOk(width) && Measuring(b.air) && BufferWithin(b, KeySet(m.table))
    requires |m.table| <= NODE_BUFFER_MAX && KeySet(m.records) <= KeySet(m.table)
    ensures BufferWithin(ProcessAll(b, MobileNodes.Window(width, m.records, link)), KeySet(m.table))
  {
    KeysFit(m.table);
    WindowKeys(width, m.records, link, KeySet(m.table));
    ProcessAllKeepsWithin(b, MobileNodes.Window(width, m.records, link), KeySet(m.table));
  }

  lemma SendKeepsBase(width: nat, s: Pipeline, link: nat -> Link)
    requires WidthOk(width) && BaseInvariant(s.base, s.mobile.table, s.delivered)
    requires TableInvariant(s.mobile.table) && KeySet(s.mobile.records) <= KeySet(s.mobile.table)
    ensures var s' := Apply(width, s, SendWindow(link)); BaseInvariant(s'.base, s.mobile.table, s'.delivered)
  {
    SendKeepsWithin(width, s.base, s.mobile, link);
    WindowCollects(width, s, link);
  }

  lemma SendKeepsStorage(width: nat, m: Mobile, log: seq<Acceptance>, start: nat)
    requires WidthOk(width) && StorageInvariant(width, m, log, start)
    ensures StorageInvariant(width, m.(records := []), log, StoredCount(m.held.Some?, log))
  {
    assert WindowOf(m.held.Some?, log, StoredCount(m.held.Some?, log)) == [];
    assert Rename(Readings([]), Named(width)) == [];
    assert KeySet<Name, Telemetry>([]) == {};
  }

  lemma SendKeeps(width: nat, s: Pipeline, link: nat -> Link)
    requires WidthOk(width) && Invariant(width, s)
    ensures Invariant(width, Apply(width, s, SendWindow(link)))
  {
    SendKeepsBase(width, s, link);
    SendKeepsStorage(width, s.mobile, s.accepted, s.windowStart);
  }

  lemma StepKeepsInvariant(width: nat, s: Pipeline, step: Step)
    requires WidthOk(width) && Invariant(width, s) && Enabled(s, step)
    ensures Invariant(width, Apply(width, s, step))
  {
    match step
    case Tick(ms) => TickKeeps(width, s, ms);
    case Hear(ad) => HearKeeps(width, s, ad);
    case FilterOne => FilterKeeps(width, s);
    case StoreOne => StoreKeeps(width, s);
    case SendWindow(link) => SendKeeps(width, s, link);
    case BaseDisconnects =>
    case BaseSleeps => InitialMeasuring();
  }

  lemma {:induction false} RunKeepsInvariant(width: nat, s: Pipeline, steps: seq<Step>)
    requires WidthOk(width) && Invariant(width, s) && CanRun(width, s, steps)
    ensures Invariant(width, After(width, s, steps))
    decreases |steps|
  {
    if steps != [] {
      StepKeepsInvariant(width, s, steps[0]);
      RunKeepsInvariant(width, Apply(width, s, steps[0]), steps[1..]);
    }
  }

  lemma InitialInvariant(width: nat)
    requires WidthOk(width)
    ensures Invariant(width, INITIAL_PIPELINE)
  {
    InitialMeasuring();
    assert Rename(Readings([]), Named(width)) == [];
  }

  // ----- What the pipeline promises -----

  /**
   * Freshness over runs. For any node, each acceptance after another either has a larger
   * sequence number or comes more than 30 seconds of true time after the other was heard,
   * however long packets queue and however often the 32-bit clock wraps.
   */
  lemma AcceptancesAreFresh(width: nat, steps: seq<Step>, i: nat, j: nat)
    requires WidthOk(width) && CanRun(width, INITIAL_PIPELINE, steps)
    requires var log := After(width, INITIAL_PIPELINE, steps).accepted;
      && i < j < |log| && log[i].nodeId == log[j].nodeId
      && forall k :: i < k < j ==> log[k].nodeId != log[i].nodeId
    ensures var log := After(width, INITIAL_PIPELINE, steps).accepted;
      log[j].sample.seqno > log[i].sample.seqno || log[j].processedAt - log[i].heardAt > NODE_TIMEOUT_MS
  {
    InitialInvariant(width);
    RunKeepsInvariant(width, INITIAL_PIPELINE, steps);
    var log := After(width, INITIAL_PIPELINE, steps).accepted;
    LastForIs(log[..j], i);
    assert Follows(LastFor(log[..j], log[j].nodeId), log[j]);
  }

  lemma {:induction false} LastForIs(log: seq<Acceptance>, i: nat)
    requires i < |log| && forall k :: i < k < |log| ==> log[k].nodeId != log[i].nodeId
    ensures LastFor(log, log[i].nodeId) == Some(log[i])
  {
    if i < |log| - 1 {
      LastForIs(log[..|log| - 1], i);
    }
  }

  /**
   * The filter decides exactly as follows, in true time: an advertisement of a node the table
   * has room for passes when its sequence number exceeds the last accepted one (0 for a node
   * never accepted), or when the time since that one was heard (since boot, likewise),
   * modulo 2^32 ms, is more than 30 seconds.
   */
  lemma {:induction false} FilterDecides(width: nat, s: Pipeline)
    requires WidthOk(width) && Invariant(width, s) && Enabled(s, FilterOne)
    ensures var raw, m := s.mobile.queue[0], s.mobile;
      Passes(m, raw, TruncateU32(s.clock)) <==>
        && (IndexOf(m.table, raw.nodeId) < |m.table| || |m.table| < SNIFFER_MAX_NODES)
        && PassesInTrueTime(LastFor(s.accepted, raw.nodeId), raw.seqno, s.clock)
  {
    var raw, m := s.mobile.queue[0], s.mobile;
    var table := Tabled(m.table, raw.nodeId);
    TabledKeepsFreshness(s.clock, s.clock, m.table, raw.nodeId, s.accepted);
    RoomIff(m.table, raw.nodeId);
    var i := IndexOf(table, raw.nodeId);
    if i < |table| {
      ValidInTrueTime(table[i], LastFor(s.accepted, raw.nodeId), raw.seqno, s.clock);
    }
  }

  lemma RoomIff(table: SeqTable, name: Name)
    ensures IndexOf(Tabled(table, name), name) < |Tabled(table, name)|
       <==> IndexOf(table, name) < |table| || |table| < SNIFFER_MAX_NODES
  {
    var after := Tabled(table, name);
    if IndexOf(table, name) == |table| < SNIFFER_MAX_NODES {
      assert after[|table|].key == name;
    }
  }

  lemma LongSilencePasses(last: Acceptance, seqno: byte, now: nat)
    requires NODE_TIMEOUT_MS < now - last.heardAt < U32_RANGE
    ensures PassesInTrueTime(Some(last), seqno, now)
  {
  }

  lemma LastIsTabled(table: SeqTable, log: seq<Acceptance>, id: Name)
    requires AllTabled(table, log) && LastFor(log, id).Some?
    ensures IndexOf(table, id) < |table|
  {
    LastForIsLogged(log, id);
    var k :| 0 <= k < |log| && log[k] == LastFor(log, id).value;
    assert IndexOf(table, log[k].nodeId) < |table|;
  }

  /** So a node that was silent for more than 30 seconds, and less than 2^32 ms, is heard again at once. */
  lemma {:induction false} SilentNodeReturns(width: nat, s: Pipeline)
    requires WidthOk(width) && Invariant(width, s) && Enabled(s, FilterOne)
    requires var last := LastFor(s.accepted, s.mobile.queue[0].nodeId);
      last.Some? && NODE_TIMEOUT_MS < s.clock - last.value.heardAt < U32_RANGE
    ensures Passes(s.mobile, s.mobile.queue[0], TruncateU32(s.clock))
  {
    var id := s.mobile.queue[0].nodeId;
    FilterDecides(width, s);
    LastIsTabled(s.mobile.table, s.accepted, id);
    LongSilencePasses(LastFor(s.accepted, id).value, s.mobile.queue[0].seqno, s.clock);
  }

  /**
   * Capacity. Whatever the link does, and even when end-of-window markers are lost, neither
   * the record table of the mobile node nor the buffer of the base node ever turns a node
   * away: only the eight-entry sequence table limits the nodes that are followed.
   */
  lemma NeverTurnsAway(width: nat, steps: seq<Step>, link: nat -> Link, k: nat)
    requires WidthOk(width) && CanRun(width, INITIAL_PIPELINE, steps)
    ensures var s := After(width, INITIAL_PIPELINE, steps);
      s.mobile.held.Some? ==>
        var id := s.mobile.held.value.nodeId;
        IndexOf(s.mobile.records, id) < |s.mobile.records| || |s.mobile.records| < SNIFFER_MAX_NODES
    ensures var s := After(width, INITIAL_PIPELINE, steps);
      var window := MobileNodes.Window(width, s.mobile.records, link);
      k < |window| && !IsEow(window[k].key) ==>
        var buffer := ProcessAll(s.base, window[..k]).buffer;
        IndexOf(buffer, window[k].key) < |buffer| || |buffer| < NODE_BUFFER_MAX
  {
    InitialInvariant(width);
    RunKeepsInvariant(width, INITIAL_PIPELINE, steps);
    var s := After(width, INITIAL_PIPELINE, steps);
    if s.mobile.held.Some? {
      RecordTableHasRoom(width, s);
    }
    var window, keys := MobileNodes.Window(width, s.mobile.records, link), KeySet(s.mobile.table);
    KeysFit(s.mobile.table);
    WindowKeys(width, s.mobile.records, link, keys);
    if k < |window| && !IsEow(window[k].key) {
      ProcessAllKeepsWithin(s.base, window[..k], keys);
      ProcessKeepsWithin(ProcessAll(s.base, window[..k]), window[k], keys);
    }
  }

  // ----- From the air to the log -----

  /** Step h of the run is the one in which x was heard. */
  predicate HeardIn(width: nat, s: Pipeline, steps: seq<Step>, h: nat, x: Heard)
    requires WidthOk(width) && Measuring(s.base.air)
  {
    && h < |steps| && CanRun(width, s, steps[..h])
    && steps[h].Hear? && SensorSamples(steps[h].ad) == [x.sample]
    && After(width, s, steps[..h]).clock == x.at
  }

  /** Waiting in the queue, or accepted. */
  predicate Known(s: Pipeline, x: Heard) {
    x in s.heard || exists k :: 0 <= k < |s.accepted| && Heard(s.accepted[k].sample, s.accepted[k].heardAt) == x
  }

  lemma OthersAddNothing(width: nat, s: Pipeline, step: Step, x: Heard)
    requires WidthOk(width) && Measuring(s.base.air) && Enabled(s, step) && !step.Hear?
    requires Known(Apply(width, s, step), x)
    ensures Known(s, x)
  {
    var s' := Apply(width, s, step);
    if step.FilterOne? && x !in s.heard {
      var k :| 0 <= k < |s'.accepted| && Heard(s'.accepted[k].sample, s'.accepted[k].heardAt) == x;
      assert s'.accepted[k] == s.accepted[k];
    }
  }

  lemma OnlyHearingAdds(width: nat, s: Pipeline, step: Step, x: Heard)
    requires WidthOk(width) && Measuring(s.base.air) && Enabled(s, step)
    requires Known(Apply(width, s, step), x) && !Known(s, x)
    ensures step.Hear? && SensorSamples(step.ad) == [x.sample] && x.at == s.clock
  {
    if step.Hear? {
      HearQueues(width, s, step.ad);
    } else {
      OthersAddNothing(width, s, step, x);
    }
  }

  /** Every sample that was accepted, or waits to be filtered, was heard in a step of the run. */
  lemma {:induction false} KnownWasHeard(width: nat, s: Pipeline, steps: seq<Step>, x: Heard) returns (h: nat)
    requires WidthOk(width) && Measuring(s.base.air) && CanRun(width, s, steps)
    requires Known(After(width, s, steps), x) && !Known(s, x)
    ensures HeardIn(width, s, steps, h, x)
    decreases |steps|
  {
    var s' := Apply(width, s, steps[0]);
    if Known(s', x) {
      OnlyHearingAdds(width, s, steps[0], x);
      h := 0;
      assert steps[..0] == [];
    } else {
      h := KnownWasHeard(width, s', steps[1..], x);
      assert steps[..h + 1][1..] == steps[1..][..h];
      h := h + 1;
    }
  }

  /**
   * Each acceptance is of a sample that was on air in some step of the run, carried by the
   * single sensor field of the advertisement heard in that step, at the recorded time; and it
   * is filed under the name of the sample's origin.
   */
  lemma {:induction false} AcceptedWasHeard(width: nat, steps: seq<Step>, k: nat) returns (h: nat)
    requires WidthOk(width) && CanRun(width, INITIAL_PIPELINE, steps)
    requires k < |After(width, INITIAL_PIPELINE, steps).accepted|
    ensures var a := After(width, INITIAL_PIPELINE, steps).accepted[k];
      HeardIn(width, INITIAL_PIPELINE, steps, h, Heard(a.sample, a.heardAt))
  {
    var a := After(width, INITIAL_PIPELINE, steps).accepted[k];
    h := KnownWasHeard(width, INITIAL_PIPELINE, steps, Heard(a.sample, a.heardAt));
  }

  /** What a node of the mesh has on air is such an advertisement, and carries the sample in its packet. */
  lemma MeshSampleCarried(width: nat, relay: byte, p: Packet)
    requires WidthOk(width) && WellFormed(p) && p.SensorPacket?
    ensures Enabled(INITIAL_PIPELINE, Hear(NodeAdvert(relay, p)))
    ensures SensorSamples(NodeAdvert(relay, p)) == [DecodeSample(p.data)]
  {
    MobileReadsPacket(width, relay, p);
    NodeAdvertIsLegacy(relay, p);
    LegacyNamesAreTrue(width, NodeAdvert(relay, p));
  }

  // ----- End to end -----

  ghost predicate AlwaysDelivers(link: nat -> Link) {
    forall i: nat :: link(i).Delivers?
  }

  ghost predicate LinkUp(steps: seq<Step>) {
    forall k :: 0 <= k < |steps| && steps[k].SendWindow? ==> AlwaysDelivers(steps[k].link)
  }

  lemma {:induction false} AllDelivered(records: seq<EnvRecord>, link: nat -> Link, i: nat)
    requires i <= |records| && AlwaysDelivers(link)
    ensures DeliveredFrom(records, link, i) == records[i..]
    decreases |records| - i
  {
    if i < |records| {
      AllDelivered(records, link, i + 1);
    }
  }

  /**
   * Every window, over any link: if its marker gets through, the filters are updated once for
   * each node with a record received since the last marker that got through, in the order in
   * which these were first received, with the last one received, and the base node starts
   * afresh; if it does not, the records received wait for the next marker.
   */
  lemma {:induction false} AnyWindow(width: nat, steps: seq<Step>, link: nat -> Link)
    requires WidthOk(width) && CanRun(width, INITIAL_PIPELINE, steps)
    ensures var s := After(width, INITIAL_PIPELINE, steps);
      var s', got := Apply(width, s, SendWindow(link)), Collapse(Received(s, link));
      if MarkerDelivered(s, link) then
        && s'.base.air == Air(Kalman.Run(s.base.air.eco2, Eco2Of(got)), Kalman.Run(s.base.air.tvoc, TvocOf(got)))
        && s'.base.buffer == [] && s'.delivered == []
        && s'.base.panel == Alarms.Announce(s.base.panel, Eco2Class(s'.base.air), TvocClass(s'.base.air))
      else s'.base == s.base.(buffer := got)
    ensures var s := After(width, INITIAL_PIPELINE, steps);
      s.mobile.records == RecordsOf(width, InWindow(s))
  {
    InitialInvariant(width);
    RunKeepsInvariant(width, INITIAL_PIPELINE, steps);
    var s := After(width, INITIAL_PIPELINE, steps);
    WindowCollects(width, s, link);
    FeedRunsFilters(s.base.air, Collapse(Received(s, link)));
  }

  lemma {:induction false} NothingWaits(width: nat, s: Pipeline, steps: seq<Step>)
    requires WidthOk(width) && Measuring(s.base.air) && CanRun(width, s, steps) && s.delivered == [] && LinkUp(steps)
    ensures After(width, s, steps).delivered == []
    decreases |steps|
  {
    if steps != [] {
      NothingWaits(width, Apply(width, s, steps[0]), steps[1..]);
    }
  }

  /** The position of an origin's last acceptance. */
  ghost predicate LastOf(log: seq<Acceptance>, origin: byte, at: nat) {
    && at < |log| && log[at].sample.origin == origin
    && forall j :: at < j < |log| ==> log[j].sample.origin != origin
  }

  /**
   * The table lists the origins of the log, each once and in order of first acceptance, with
   * the reading of its last accepted sample.
   */
  ghost predicate LastReadingsOf(table: seq<Entry<byte, Telemetry>>, log: seq<Acceptance>) {
    && DistinctKeys(table) && |table| == |FirstKeys(Readings(log))|
    && forall i :: 0 <= i < |table| ==>
         && table[i].key == FirstKeys(Readings(log))[i]
         && exists at: nat :: LastOf(log, table[i].key, at) && table[i].value.reading == log[at].sample.reading
  }

  /**
   * End to end. In every run over a working link, under every interleaving of hearing,
   * filtering, storing and sending, a window updates the Kalman filters exactly once for
   * each distinct origin accepted and stored since the last window, in the order in which the
   * origins were first accepted, each with the reading of its last accepted sample; the
   * classes announced are those of the updated filters, and the next window starts afresh.
   */
  lemma {:induction false} EndToEnd(steps: seq<Step>, link: nat -> Link)
    requires CanRun(MOBILE_NAME_LEN, INITIAL_PIPELINE, steps)
    requires LinkUp(steps) && AlwaysDelivers(link)
    ensures var s := After(MOBILE_NAME_LEN, INITIAL_PIPELINE, steps);
      var s', log := Apply(MOBILE_NAME_LEN, s, SendWindow(link)), InWindow(s);
      var window := Collapse(Readings(log));
      && s'.base.air == Air(Kalman.Run(s.base.air.eco2, Eco2Of(window)), Kalman.Run(s.base.air.tvoc, TvocOf(window)))
      && LastReadingsOf(window, log)
      && s'.base.panel == Alarms.Announce(s.base.panel, Eco2Class(s'.base.air), TvocClass(s'.base.air))
      && s'.base.buffer == [] && s'.mobile.records == [] && InWindow(s') == []
  {
    var width := MOBILE_NAME_LEN;
    AnyWindow(width, steps, link);
    InitialMeasuring();
    NothingWaits(width, INITIAL_PIPELINE, steps);
    var s := After(width, INITIAL_PIPELINE, steps);
    WholeWindow(s, link);
    LastReadings(InWindow(s));
    NextWindowEmpty(width, s, link);
  }

  lemma NextWindowEmpty(width: nat, s: Pipeline, link: nat -> Link)
    requires WidthOk(width) && Measuring(s.base.air)
    ensures var s' := Apply(width, s, SendWindow(link)); s'.mobile.records == [] && InWindow(s') == []
  {
  }

  lemma LastReadings(log: seq<Acceptance>)
    ensures LastReadingsOf(Collapse(Readings(log)), log)
  {
    var events := Readings(log);
    CollapseIsLastValues(events);
    forall i | 0 <= i < |Collapse(events)|
      ensures exists at: nat :: LastOf(log, Collapse(events)[i].key, at)
                             && Collapse(events)[i].value.reading == log[at].sample.reading
    {
      var at := CollapseValue(events, i);
      assert LastOf(log, Collapse(events)[i].key, at);
    }
  }

  /**
   * Over a working link, and with nothing left over, what the base node receives is the
   * record table, which feeds the filters as a table by origin would.
   */
  lemma WholeWindow(s: Pipeline, link: nat -> Link)
    requires s.delivered == [] && AlwaysDelivers(link)
    requires s.mobile.records == RecordsOf(MOBILE_NAME_LEN, InWindow(s))
    ensures MarkerDelivered(s, link)
    ensures Eco2Of(Collapse(Received(s, link))) == Eco2Of(Collapse(Readings(InWindow(s))))
    ensures TvocOf(Collapse(Received(s, link))) == TvocOf(Collapse(Readings(InWindow(s))))
  {
    var records := s.mobile.records;
    AllDelivered(records, link, 0);
    assert Received(s, link) == records;
    CollapseIsLastValues(Rename(Readings(InWindow(s)), Named(MOBILE_NAME_LEN)));
    CollapseTwice(records);
    RecordsByOrigin(Readings(InWindow(s)));
  }

  /** Keying the records by name, as the nodes do, is keying them by origin. */
  lemma RecordsByOrigin(events: seq<Entry<byte, Telemetry>>)
    ensures var byName := Collapse(Rename(events, Named(MOBILE_NAME_LEN)));
      Eco2Of(byName) == Eco2Of(Collapse(events)) && TvocOf(byName) == TvocOf(Collapse(events))
  {
    var f := Named(MOBILE_NAME_LEN);
    forall a: byte, b: byte | f(a) == f(b)
      ensures a == b
    {
      NamesAgree(MOBILE_NAME_LEN, a, b);
    }
    CollapseRenames(events, f);
  }
}
