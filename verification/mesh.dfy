/**
 * The flooding mesh: any number of Thingy:52 nodes and the mobile node's broadcasts, as a
 * transition system. An advertisement stays on air until it is replaced or stopped, so a
 * neighbour may receive it any number of times, or never.
 *
 * `sampled` and `issued` are history: every sample a node has encoded and every command
 * the mobile node has put on air. No step reads them.
 */
module Mesh {
  import opened Bytes
  import opened NodeNames
  import opened Packets
  import opened SeenRings
  import opened ThingyNodes

  datatype State = State(
    nodes: seq<Node>,
    mobileSeq: byte,
    mobileAir: Option<CommandKey>,
    sampled: set<Sample>,
    issued: set<CommandKey>)

  datatype Source = FromNode(j: nat) | FromMobile

  datatype Step =
    | Wake(i: nat)
    | DoSample(i: nat, reading: Reading)
    | Receive(i: nat, source: Source)
    | Take(i: nat)
    | Send(i: nat, ok: bool)
    | StopAdv(i: nat, ok: bool)
    | Suspend(i: nat)
    | Resume(i: nat)
    | Broadcast(cmd: byte, ok: bool)
    | BroadcastEnds

  function Boot(ids: seq<byte>): State {
    State(seq(|ids|, i requires 0 <= i < |ids| => InitialNode(ids[i])), 0, None, {}, {})
  }

  /** The advertisement a receiver hears from a source, if that source is transmitting. */
  function OnAir(m: State, source: Source): Option<Advert> {
    match source
    case FromMobile =>
      if m.mobileAir.Some? then Some(BroadcastAdvert(m.mobileAir.value.0, m.mobileAir.value.1)) else None
    case FromNode(j) =>
      if j < |m.nodes| && m.nodes[j].onAir.Some?
      then Some(NodeAdvert(m.nodes[j].id, m.nodes[j].onAir.value)) else None
  }

  predicate Enabled(m: State, s: Step) {
    match s
    case Wake(i) => i < |m.nodes| && !m.nodes[i].sampling
    case DoSample(i, _) => i < |m.nodes| && m.nodes[i].sampling
    case Receive(i, source) => i < |m.nodes| && OnAir(m, source).Some?
    case Take(i) => i < |m.nodes| && m.nodes[i].queue != [] && m.nodes[i].held.None?
    case Send(i, _) => i < |m.nodes| && m.nodes[i].held.Some?
    case StopAdv(i, _) => i < |m.nodes|
    case Suspend(i) => i < |m.nodes|
    case Resume(i) => i < |m.nodes|
    case Broadcast(_, ok) => ok ==> m.mobileAir.None?
    case BroadcastEnds => true
  }

  function Update(m: State, i: nat, n: Node): State
    requires i < |m.nodes|
  {
    m.(nodes := m.nodes[i := n])
  }

  function Apply(m: State, s: Step): State
    requires Enabled(m, s)
  {
    match s
    case Wake(i) => Update(m, i, StartSample(m.nodes[i]))
    case DoSample(i, reading) =>
      Update(m, i, FinishSample(m.nodes[i], reading).0).(sampled := m.sampled + {SampleTaken(m.nodes[i], reading)})
    case Receive(i, source) => Update(m, i, Heard(m.nodes[i], OnAir(m, source).value).0)
    case Take(i) => Update(m, i, TakePacket(m.nodes[i]))
    case Send(i, ok) => Update(m, i, SendHeld(m.nodes[i], ok))
    case StopAdv(i, ok) => Update(m, i, StopAdvertising(m.nodes[i], ok))
    case Suspend(i) => Update(m, i, m.nodes[i].(suspended := true))
    case Resume(i) => Update(m, i, m.nodes[i].(suspended := false))
    case Broadcast(cmd, ok) =>
      // The sequence number is consumed even when advertising cannot be started.
      if ok then m.(mobileSeq := (m.mobileSeq + 1) % 0x100, mobileAir := Some((m.mobileSeq, cmd)),
                    issued := m.issued + {(m.mobileSeq, cmd)})
      else m.(mobileSeq := (m.mobileSeq + 1) % 0x100)
    case BroadcastEnds => m.(mobileAir := None)
  }

  predicate CanRun(m: State, steps: seq<Step>)
    decreases |steps|
  {
    steps == [] || (Enabled(m, steps[0]) && CanRun(Apply(m, steps[0]), steps[1..]))
  }

  function After(m: State, steps: seq<Step>): State
    requires CanRun(m, steps)
    decreases |steps|
  {
    if steps == [] then m else After(Apply(m, steps[0]), steps[1..])
  }

  /** A step of one node that hears nothing and samples nothing. */
  predicate Local(s: Step) {
    s.Wake? || s.Take? || s.Send? || s.StopAdv? || s.Suspend? || s.Resume?
  }

  // ----- Integrity: every packet in the network is genuine -----

  function KeysOf(sampled: set<Sample>): set<SensorKey> {
    set s | s in sampled :: (s.origin, s.seqno)
  }

  function SensorKeys(m: State): set<SensorKey> {
    KeysOf(m.sampled)
  }

  predicate Genuine(m: State, p: Packet) {
    WellFormed(p) &&
    if p.SensorPacket? then DecodeSample(p.data) in m.sampled else (p.data[2], p.data[3]) in m.issued
  }

  predicate GenuineNode(m: State, n: Node) {
    && |n.queue| <= FLOOD_QUEUE_SIZE
    && (forall p :: p in n.queue ==> Genuine(m, p))
    && (n.held.Some? ==> Genuine(m, n.held.value))
    && (n.onAir.Some? ==> Genuine(m, n.onAir.value))
    && (forall k :: k in n.sensorLog ==> k in SensorKeys(m))
    && (forall k :: k in n.commandLog ==> k in m.issued)
    && n.mode == ModeOfLog(n.commandLog)
  }

  predicate Invariant(m: State) {
    && (forall i :: 0 <= i < |m.nodes| ==> GenuineNode(m, m.nodes[i]))
    && (m.mobileAir.Some? ==> m.mobileAir.value in m.issued)
  }

  /** What reaches a node's parser is a genuine packet, unaltered. */
  lemma HeardIsGenuine(m: State, source: Source)
    requires Invariant(m) && OnAir(m, source).Some?
    ensures FirstPacket(OnAir(m, source).value).Some?
    ensures Genuine(m, FirstPacket(OnAir(m, source).value).value)
  {
    match source
    case FromMobile => RelayReadsBroadcast(m.mobileAir.value.0, m.mobileAir.value.1);
    case FromNode(j) => RelayReadsPacket(m.nodes[j].id, m.nodes[j].onAir.value);
  }

  lemma GenuineKeys(m: State, p: Packet)
    requires Genuine(m, p) && p.SensorPacket?
    ensures SensorKeyOf(p) in SensorKeys(m)
  {
    var s := DecodeSample(p.data);
    assert (s.origin, s.seqno) in SensorKeys(m);
  }

  lemma HeardKeepsNode(m: State, n: Node, ad: Advert)
    requires GenuineNode(m, n) && FirstPacket(ad).Some? && Genuine(m, FirstPacket(ad).value)
    ensures GenuineNode(m, Heard(n, ad).0)
  {
    var p := FirstPacket(ad).value;
    if p.SensorPacket? {
      GenuineKeys(m, p);
      SensorKeepsNode(m, n, p);
    } else {
      CommandKeepsNode(m, n, p);
    }
  }

  lemma SensorKeepsNode(m: State, n: Node, p: Packet)
    requires GenuineNode(m, n) && Genuine(m, p) && p.SensorPacket? && SensorKeyOf(p) in SensorKeys(m)
    ensures GenuineNode(m, HeardSensor(n, p).0)
  {
  }

  lemma CommandKeepsNode(m: State, n: Node, p: Packet)
    requires GenuineNode(m, n) && Genuine(m, p) && p.CommandPacket?
    ensures GenuineNode(m, HeardCommand(n, p).0)
  {
    ModeLogStep(n.commandLog, (p.data[2], p.data[3]));
  }

  lemma ModeLogStep(log: seq<CommandKey>, key: CommandKey)
    ensures ModeOfLog(log + [key]) == ModeAfter(ModeOfLog(log), key.1)
  {
    assert (log + [key])[..|log|] == log;
  }

  lemma FinishSampleKeepsNode(m: State, m': State, n: Node, reading: Reading)
    requires GenuineNode(m, n)
    requires m'.sampled == m.sampled + {SampleTaken(n, reading)} && m'.issued == m.issued
    ensures GenuineNode(m', FinishSample(n, reading).0)
  {
    var s := SampleTaken(n, reading);
    SensorRoundTrip(s);
    assert (s.origin, s.seqno) in SensorKeys(m');
    MoreHistory(m, m', n);
  }

  lemma MoreHistory(m: State, m': State, n: Node)
    requires GenuineNode(m, n) && m.sampled <= m'.sampled && m.issued <= m'.issued
    ensures GenuineNode(m', n)
    ensures SensorKeys(m) <= SensorKeys(m')
  {
    forall k | k in SensorKeys(m)
      ensures k in SensorKeys(m')
    {
      var s :| s in m.sampled && k == (s.origin, s.seqno);
      assert s in m'.sampled;
    }
  }

  lemma StepKeepsInvariant(m: State, s: Step)
    requires Invariant(m) && Enabled(m, s)
    ensures Invariant(Apply(m, s))
    ensures m.sampled <= Apply(m, s).sampled && m.issued <= Apply(m, s).issued
    ensures |Apply(m, s).nodes| == |m.nodes|
  {
    match s
    case Receive(i, source) =>
      HeardIsGenuine(m, source);
      HeardKeepsNode(m, m.nodes[i], OnAir(m, source).value);
      UpdateKeepsInvariant(m, i, Heard(m.nodes[i], OnAir(m, source).value).0, m.sampled);
    case DoSample(i, reading) =>
      var sampled := m.sampled + {SampleTaken(m.nodes[i], reading)};
      FinishSampleKeepsNode(m, m.(sampled := sampled), m.nodes[i], reading);
      UpdateKeepsInvariant(m, i, FinishSample(m.nodes[i], reading).0, sampled);
    case Wake(i) => UpdateKeepsInvariant(m, i, StartSample(m.nodes[i]), m.sampled);
    case Take(i) => UpdateKeepsInvariant(m, i, TakePacket(m.nodes[i]), m.sampled);
    case Send(i, ok) => UpdateKeepsInvariant(m, i, SendHeld(m.nodes[i], ok), m.sampled);
    case StopAdv(i, ok) => UpdateKeepsInvariant(m, i, StopAdvertising(m.nodes[i], ok), m.sampled);
    case Suspend(i) => UpdateKeepsInvariant(m, i, m.nodes[i].(suspended := true), m.sampled);
    case Resume(i) => UpdateKeepsInvariant(m, i, m.nodes[i].(suspended := false), m.sampled);
    case Broadcast(cmd, ok) =>
      forall i | 0 <= i < |m.nodes|
        ensures GenuineNode(Apply(m, s), m.nodes[i])
      {
        MoreHistory(m, Apply(m, s), m.nodes[i]);
      }
    case BroadcastEnds =>
      forall i | 0 <= i < |m.nodes|
        ensures GenuineNode(Apply(m, s), m.nodes[i])
      {
        MoreHistory(m, Apply(m, s), m.nodes[i]);
      }
  }

  lemma UpdateKeepsInvariant(m: State, i: nat, n: Node, sampled: set<Sample>)
    requires Invariant(m) && i < |m.nodes| && m.sampled <= sampled
    requires GenuineNode(m.(sampled := sampled), n)
    ensures Invariant(Update(m, i, n).(sampled := sampled))
  {
    var m', later := Update(m, i, n).(sampled := sampled), m.(sampled := sampled);
    forall j | 0 <= j < |m'.nodes|
      ensures GenuineNode(m', m'.nodes[j])
    {
      if j == i {
        MoreHistory(later, m', n);
      } else {
        MoreHistory(m, m', m.nodes[j]);
      }
    }
  }

  lemma {:induction false} RunKeepsInvariant(m: State, steps: seq<Step>)
    requires Invariant(m) && CanRun(m, steps)
    ensures Invariant(After(m, steps))
    ensures m.sampled <= After(m, steps).sampled && m.issued <= After(m, steps).issued
    ensures |After(m, steps).nodes| == |m.nodes|
    decreases |steps|
  {
    if steps != [] {
      StepKeepsInvariant(m, steps[0]);
      RunKeepsInvariant(Apply(m, steps[0]), steps[1..]);
    }
  }

  lemma BootInvariant(ids: seq<byte>)
    ensures Invariant(Boot(ids))
  {
  }

  /**
   * Integrity over any number of hops. In every reachable state a sensor packet that a node
   * has queued, is about to send or has on air is, byte for byte, the encoding of a sample
   * that some node really took; and the mobile node, hearing it from any relay, reads back
   * exactly that sample under its origin's name.
   */
  lemma Integrity(ids: seq<byte>, steps: seq<Step>, i: nat, p: Packet, width: nat)
    requires CanRun(Boot(ids), steps) && i < |After(Boot(ids), steps).nodes| && width > 0
    requires var n := After(Boot(ids), steps).nodes[i];
      p.SensorPacket? && (p in n.queue || n.held == Some(p) || n.onAir == Some(p))
    ensures |p.data| == SENSOR_PACKET_LEN
    ensures var s := DecodeSample(p.data);
      && s in After(Boot(ids), steps).sampled
      && p.data == SensorBytes(s)
      && forall relay: byte :: var heard := Sniff(width, NodeAdvert(relay, p));
           Usable(heard) && heard.sample == s && heard.nodeId == NodeName(width, s.origin)
  {
    BootInvariant(ids);
    RunKeepsInvariant(Boot(ids), steps);
    assert GenuineNode(After(Boot(ids), steps), After(Boot(ids), steps).nodes[i]);
    DecodedReencodes(p.data);
    forall relay: byte
      ensures var heard := Sniff(width, NodeAdvert(relay, p));
        Usable(heard) && heard.sample == DecodeSample(p.data) && heard.nodeId == NodeName(width, p.data[2])
    {
      MobileReadsPacket(width, relay, p);
    }
  }

  /** Step k is the one in which node i, numbering on from its last sample, took sample s. */
  predicate Sampled(m: State, steps: seq<Step>, k: nat, i: nat, s: Sample) {
    && k < |steps| && CanRun(m, steps[..k])
    && var before := After(m, steps[..k]);
    && steps[k] == DoSample(i, s.reading) && i < |before.nodes| && s == SampleTaken(before.nodes[i], s.reading)
  }

  /** What happened in the rest of a run happened in the run. */
  lemma SampledLater(m: State, steps: seq<Step>, k: nat, i: nat, s: Sample)
    requires CanRun(m, steps) && steps != [] && Sampled(Apply(m, steps[0]), steps[1..], k, i, s)
    ensures Sampled(m, steps, k + 1, i, s)
  {
    assert steps[..k + 1][1..] == steps[1..][..k];
    assert CanRun(m, steps[..k + 1]);
  }

  lemma StepKeepsIds(m: State, s: Step, i: nat)
    requires Enabled(m, s) && i < |m.nodes|
    ensures |Apply(m, s).nodes| == |m.nodes| && Apply(m, s).nodes[i].id == m.nodes[i].id
  {
    match s
    case Receive(j, source) => HeardKeepsId(m.nodes[j], OnAir(m, source).value);
    case _ =>
  }

  lemma HeardKeepsId(n: Node, ad: Advert)
    ensures Heard(n, ad).0.id == n.id
  {
  }

  /** Every sample in the history was taken, in some step of the run, by the node it names. */
  lemma {:induction false} SamplesAreOwn(m: State, steps: seq<Step>, s: Sample) returns (k: nat, i: nat)
    requires CanRun(m, steps) && s in After(m, steps).sampled && s !in m.sampled
    ensures Sampled(m, steps, k, i, s)
    decreases |steps|
  {
    if s in Apply(m, steps[0]).sampled {
      k, i := 0, steps[0].i;
      assert steps[..0] == [];
    } else {
      k, i := SamplesAreOwn(Apply(m, steps[0]), steps[1..], s);
      SampledLater(m, steps, k, i, s);
      k := k + 1;
    }
  }

  // ----- No node relays its own packets -----

  predicate Carrying(n: Node, p: Packet) {
    p in n.queue || n.held == Some(p) || n.onAir == Some(p)
  }

  predicate CarriesAt(m: State, i: nat, p: Packet) {
    i < |m.nodes| && Carrying(m.nodes[i], p)
  }

  predicate IsOwn(n: Node, p: Packet) {
    p.SensorPacket? && |p.data| == SENSOR_PACKET_LEN && p.data[2] == n.id
  }

  lemma OnlySamplingBringsOwn(m: State, s: Step, i: nat, p: Packet)
    requires Enabled(m, s) && i < |m.nodes| && IsOwn(m.nodes[i], p)
    ensures |Apply(m, s).nodes| == |m.nodes|
    ensures Carrying(Apply(m, s).nodes[i], p) && !Carrying(m.nodes[i], p) ==>
      s.DoSample? && s.i == i && p == SensorPacket(SensorBytes(SampleTaken(m.nodes[i], s.reading)))
  {
    if s.Receive? && s.i == i {
      NoSelfRelay(m.nodes[i], OnAir(m, s.source).value);
      HeardOnlyQueues(m.nodes[i], OnAir(m, s.source).value);
    }
  }

  lemma HeardOnlyQueues(n: Node, ad: Advert)
    ensures var n' := Heard(n, ad).0; n'.held == n.held && n'.onAir == n.onAir
  {
  }

  /**
   * No self-relay, over runs: a packet of its own origin that a node carries, queued, about to
   * be sent or on air, and did not carry at the start, is one it sampled itself in a step of
   * this run. This holds whatever the node hears, also when another node uses the same
   * identifier.
   */
  lemma {:induction false} OwnPacketsAreSampled(m: State, steps: seq<Step>, i: nat, p: Packet) returns (k: nat)
    requires CanRun(m, steps) && CarriesAt(After(m, steps), i, p)
    requires i < |m.nodes| && IsOwn(m.nodes[i], p) && !Carrying(m.nodes[i], p)
    ensures p.data == SensorBytes(DecodeSample(p.data)) && Sampled(m, steps, k, i, DecodeSample(p.data))
    decreases |steps|
  {
    var m' := Apply(m, steps[0]);
    StepKeepsIds(m, steps[0], i);
    if Carrying(m'.nodes[i], p) {
      OnlySamplingBringsOwn(m, steps[0], i, p);
      SensorRoundTrip(SampleTaken(m.nodes[i], steps[0].reading));
      k := 0;
      assert steps[..0] == [];
    } else {
      k := OwnPacketsAreSampled(m', steps[1..], i, p);
      SampledLater(m, steps, k, i, DecodeSample(p.data));
      k := k + 1;
    }
  }

  /** In particular from boot, where nothing is carried. */
  lemma NoSelfRelayFromBoot(ids: seq<byte>, steps: seq<Step>, i: nat, p: Packet) returns (k: nat)
    requires CanRun(Boot(ids), steps) && CarriesAt(After(Boot(ids), steps), i, p)
    requires i < |ids| && IsOwn(InitialNode(ids[i]), p)
    ensures p.data == SensorBytes(DecodeSample(p.data)) && Sampled(Boot(ids), steps, k, i, DecodeSample(p.data))
  {
    k := OwnPacketsAreSampled(Boot(ids), steps, i, p);
  }

  // ----- The mode of a node -----

  /** The last known command of a log is sleep: it is in the log, and no measure command after it. */
  predicate EndsAsleep(log: seq<CommandKey>) {
    exists j :: 0 <= j < |log| && log[j].1 == CMD_SLEEP && forall l :: j < l < |log| ==> log[l].1 != CMD_MEASURE
  }

  lemma EndsAsleepStep(log: seq<CommandKey>, key: CommandKey)
    ensures EndsAsleep(log + [key]) <==> key.1 == CMD_SLEEP || (key.1 != CMD_MEASURE && EndsAsleep(log))
  {
    var all := log + [key];
    assert all[|log|] == key && forall j :: 0 <= j < |log| ==> all[j] == log[j];
    if key.1 != CMD_SLEEP && key.1 != CMD_MEASURE {
      if EndsAsleep(all) {
        var j :| 0 <= j < |all| && all[j].1 == CMD_SLEEP && forall l :: j < l < |all| ==> all[l].1 != CMD_MEASURE;
        assert log[j].1 == CMD_SLEEP && forall l :: j < l < |log| ==> log[l] == all[l];
      }
      if EndsAsleep(log) {
        var j :| 0 <= j < |log| && log[j].1 == CMD_SLEEP && forall l :: j < l < |log| ==> log[l].1 != CMD_MEASURE;
        assert all[j].1 == CMD_SLEEP && forall l :: j < l < |all| ==> all[l].1 != CMD_MEASURE;
      }
    }
  }

  lemma {:induction false} ModeOfLogIs(log: seq<CommandKey>)
    ensures ModeOfLog(log) == LowPower <==> EndsAsleep(log)
  {
    if log != [] {
      var n := |log| - 1;
      ModeOfLogIs(log[..n]);
      EndsAsleepStep(log[..n], log[n]);
      assert log == log[..n] + [log[n]];
    }
  }

  /**
   * In every reachable state a node is in low power exactly when the last known command it
   * accepted is the sleep command; it does not matter what was dropped for want of room.
   */
  lemma ModeIsLastCommand(ids: seq<byte>, steps: seq<Step>, i: nat)
    requires CanRun(Boot(ids), steps) && i < |ids|
    ensures |After(Boot(ids), steps).nodes| == |ids|
    ensures var n := After(Boot(ids), steps).nodes[i]; n.mode == LowPower <==> EndsAsleep(n.commandLog)
  {
    BootInvariant(ids);
    RunKeepsInvariant(Boot(ids), steps);
    assert GenuineNode(After(Boot(ids), steps), After(Boot(ids), steps).nodes[i]);
    ModeOfLogIs(After(Boot(ids), steps).nodes[i].commandLog);
  }

  predicate Carries(p: Packet, cmd: byte) {
    p.CommandPacket? ==> |p.data| == COMMAND_PACKET_LEN && p.data[3] == cmd
  }

  predicate CarriesOnly(n: Node, cmd: byte) {
    && (forall p :: p in n.queue ==> Carries(p, cmd))
    && (n.held.Some? ==> Carries(n.held.value, cmd))
    && (n.onAir.Some? ==> Carries(n.onAir.value, cmd))
  }

  /** Every command packet queued, about to be sent or on air carries `cmd`. */
  predicate OnlyCommand(m: State, cmd: byte) {
    && (forall i :: 0 <= i < |m.nodes| ==> CarriesOnly(m.nodes[i], cmd))
    && (m.mobileAir.Some? ==> m.mobileAir.value.1 == cmd)
  }

  predicate BroadcastsOnly(steps: seq<Step>, cmd: byte) {
    forall k :: 0 <= k < |steps| && steps[k].Broadcast? ==> steps[k].cmd == cmd
  }

  lemma ReceiptKeepsOnlyCommand(m: State, i: nat, source: Source, cmd: byte)
    requires Invariant(m) && Enabled(m, Receive(i, source)) && OnlyCommand(m, cmd) && KnownCommand(cmd)
    ensures var n' := Heard(m.nodes[i], OnAir(m, source).value).0;
      CarriesOnly(n', cmd) && SameOrCommanded(m.nodes[i], n', cmd)
  {
    HeardIsGenuine(m, source);
    match source {
      case FromMobile => RelayReadsBroadcast(m.mobileAir.value.0, m.mobileAir.value.1);
      case FromNode(j) => RelayReadsPacket(m.nodes[j].id, m.nodes[j].onAir.value);
    }
    HeardOnlyCommand(m.nodes[i], OnAir(m, source).value, cmd);
  }

  lemma LocalKeepsOnlyCommand(m: State, s: Step, cmd: byte)
    requires Enabled(m, s) && (Local(s) || s.DoSample?) && CarriesOnly(m.nodes[s.i], cmd)
    ensures |Apply(m, s).nodes| == |m.nodes|
    ensures CarriesOnly(Apply(m, s).nodes[s.i], cmd) && SameOrCommanded(m.nodes[s.i], Apply(m, s).nodes[s.i], cmd)
  {
  }

  lemma StepKeepsOnlyCommand(m: State, s: Step, cmd: byte)
    requires Invariant(m) && Enabled(m, s) && OnlyCommand(m, cmd) && KnownCommand(cmd)
    requires s.Broadcast? ==> s.cmd == cmd
    ensures OnlyCommand(Apply(m, s), cmd)
    ensures |Apply(m, s).nodes| == |m.nodes|
    ensures forall i :: 0 <= i < |m.nodes| ==> SameOrCommanded(m.nodes[i], Apply(m, s).nodes[i], cmd)
  {
    if s.Receive? {
      ReceiptKeepsOnlyCommand(m, s.i, s.source, cmd);
    } else if !s.Broadcast? && !s.BroadcastEnds? {
      LocalKeepsOnlyCommand(m, s, cmd);
    }
    OtherNodesStay(m, s);
  }

  /** A step changes at most the node it names. */
  lemma OtherNodesStay(m: State, s: Step)
    requires Enabled(m, s)
    ensures |Apply(m, s).nodes| == |m.nodes|
    ensures s.Broadcast? || s.BroadcastEnds? ==> Apply(m, s).nodes == m.nodes
    ensures !s.Broadcast? && !s.BroadcastEnds? ==>
      Apply(m, s).mobileAir == m.mobileAir && forall j :: 0 <= j < |m.nodes| && j != s.i ==> Apply(m, s).nodes[j] == m.nodes[j]
  {
  }

  /** Either no command was accepted and the mode is kept, or the node is in the commanded mode. */
  predicate SameOrCommanded(n: Node, n': Node, cmd: byte) {
    if n'.commandLog == n.commandLog then n'.mode == n.mode
    else n'.mode == if cmd == CMD_SLEEP then LowPower else Normal
  }

  lemma HeardOnlyCommand(n: Node, ad: Advert, cmd: byte)
    requires CarriesOnly(n, cmd) && KnownCommand(cmd)
    requires FirstPacket(ad).Some? && Carries(FirstPacket(ad).value, cmd)
    ensures CarriesOnly(Heard(n, ad).0, cmd) && SameOrCommanded(n, Heard(n, ad).0, cmd)
  {
    var p := FirstPacket(ad).value;
    if p.SensorPacket? {
      assert Heard(n, ad) == HeardSensor(n, p);
    } else {
      assert Heard(n, ad) == HeardCommand(n, p);
      assert n.commandLog != n.commandLog + [(p.data[2], p.data[3])];
    }
  }

  /**
   * Convergence. Once every command packet in the network carries the same known command,
   * and only that command is broadcast from then on, this stays so; a node that accepts a
   * command after that, or is in the commanded mode already, ends in the commanded mode,
   * whatever else is sampled, relayed, dropped or lost.
   */
  lemma {:induction false} ModesConverge(m: State, steps: seq<Step>, cmd: byte, i: nat)
    requires Invariant(m) && OnlyCommand(m, cmd) && KnownCommand(cmd)
    requires CanRun(m, steps) && BroadcastsOnly(steps, cmd) && i < |m.nodes|
    ensures |After(m, steps).nodes| == |m.nodes| && OnlyCommand(After(m, steps), cmd)
    ensures var n, n' := m.nodes[i], After(m, steps).nodes[i];
      && (n.mode == LowPower || n'.commandLog != n.commandLog ==> cmd == CMD_SLEEP ==> n'.mode == LowPower)
      && (n.mode == Normal || n'.commandLog != n.commandLog ==> cmd == CMD_MEASURE ==> n'.mode == Normal)
    decreases |steps|
  {
    if steps != [] {
      StepKeepsInvariant(m, steps[0]);
      StepKeepsOnlyCommand(m, steps[0], cmd);
      ModesConverge(Apply(m, steps[0]), steps[1..], cmd, i);
    }
  }

  // ----- Termination of the flood -----

  function Unseen<K>(universe: set<K>, log: seq<K>): nat {
    |universe - set k | k in log|
  }

  /** Three for each key still to be accepted, two for each queued packet, one for a held one. */
  function NodeWork(keys: set<SensorKey>, issued: set<CommandKey>, n: Node): nat {
    3 * (Unseen(keys, n.sensorLog) + Unseen(issued, n.commandLog))
      + 2 * |n.queue| + (if n.held.Some? then 1 else 0)
  }

  function TotalWork(keys: set<SensorKey>, issued: set<CommandKey>, nodes: seq<Node>): nat {
    if nodes == [] then 0
    else TotalWork(keys, issued, nodes[..|nodes| - 1]) + NodeWork(keys, issued, nodes[|nodes| - 1])
  }

  function Work(m: State): nat {
    TotalWork(SensorKeys(m), m.issued, m.nodes)
  }

  /** The packet was new to the node. */
  predicate Accepting(outcome: Outcome) {
    outcome == Swallowed || outcome == Queued || outcome == Dropped
  }

  /** A step that accepts a packet, takes one from a queue or hands one to advertising. */
  predicate Productive(m: State, s: Step)
    requires Enabled(m, s)
  {
    match s
    case Receive(i, source) => Accepting(Heard(m.nodes[i], OnAir(m, source).value).1)
    case Take(_) => true
    case Send(_, _) => true
    case _ => false
  }

  function CountProductive(m: State, steps: seq<Step>): nat
    requires CanRun(m, steps)
    decreases |steps|
  {
    if steps == [] then 0
    else (if Productive(m, steps[0]) then 1 else 0) + CountProductive(Apply(m, steps[0]), steps[1..])
  }

  /** No new sample is finished and no new command is broadcast. */
  predicate Quiescent(steps: seq<Step>) {
    forall k :: 0 <= k < |steps| ==> !steps[k].DoSample? && !steps[k].Broadcast?
  }

  predicate FewKeys(m: State) {
    |SensorKeys(m)| <= CACHE_SIZE && |m.issued| <= CACHE_SIZE
  }

  /** No node's acceptance log lists a key twice. */
  ghost predicate ExactLogs(m: State) {
    forall i :: 0 <= i < |m.nodes| ==> ExactNode(SensorKeys(m), m.issued, m.nodes[i])
  }

  ghost predicate ExactNode(keys: set<SensorKey>, issued: set<CommandKey>, n: Node) {
    && NoDuplicates(n.sensorLog) && (forall k :: k in n.sensorLog ==> k in keys)
    && NoDuplicates(n.commandLog) && (forall k :: k in n.commandLog ==> k in issued)
  }

  predicate LessWork(keys: set<SensorKey>, issued: set<CommandKey>, n: Node, n': Node) {
    NodeWork(keys, issued, n') < NodeWork(keys, issued, n)
  }

  lemma AcceptReducesUnseen<K>(universe: set<K>, log: seq<K>, key: K)
    requires NoDuplicates(log) && (forall k :: k in log ==> k in universe)
    requires key in universe && |universe| <= CACHE_SIZE && key !in Window(log)
    ensures NoDuplicates(log + [key])
    ensures Unseen(universe, log + [key]) == Unseen(universe, log) - 1
  {
    AcceptInSmallUniverse(log, key, universe);
    assert universe - (set k | k in log + [key]) == (universe - set k | k in log) - {key};
    assert key in universe - set k | k in log;
  }

  lemma {:induction false} UpdateTotal(keys: set<SensorKey>, issued: set<CommandKey>, nodes: seq<Node>, i: nat, n: Node)
    requires i < |nodes|
    ensures TotalWork(keys, issued, nodes[i := n])
         == TotalWork(keys, issued, nodes) - NodeWork(keys, issued, nodes[i]) + NodeWork(keys, issued, n)
  {
    var last := |nodes| - 1;
    var updated := nodes[i := n];
    if i == last {
      assert updated[..last] == nodes[..last];
    } else {
      assert updated[..last] == nodes[..last][i := n];
      UpdateTotal(keys, issued, nodes[..last], i, n);
    }
  }

  lemma SensorReducesWork(keys: set<SensorKey>, issued: set<CommandKey>, n: Node, p: Packet)
    requires ExactNode(keys, issued, n) && |keys| <= CACHE_SIZE
    requires |p.data| >= 4 && SensorKeyOf(p) in keys
    ensures var (n', outcome) := HeardSensor(n, p);
      ExactNode(keys, issued, n') && if Accepting(outcome) then LessWork(keys, issued, n, n') else n' == n
  {
    var key := SensorKeyOf(p);
    if key.0 != n.id && key !in Window(n.sensorLog) {
      AcceptedSensor(keys, issued, n, HeardSensor(n, p).0, key);
    }
  }

  /** Accepting one key pays for queueing one packet. */
  lemma AcceptedSensor(keys: set<SensorKey>, issued: set<CommandKey>, n: Node, n': Node, key: SensorKey)
    requires ExactNode(keys, issued, n) && key in keys && |keys| <= CACHE_SIZE && key !in Window(n.sensorLog)
    requires n'.sensorLog == n.sensorLog + [key] && n'.commandLog == n.commandLog
    requires |n'.queue| <= |n.queue| + 1 && n'.held == n.held
    ensures ExactNode(keys, issued, n') && LessWork(keys, issued, n, n')
  {
    AcceptReducesUnseen(keys, n.sensorLog, key);
  }

  lemma AcceptedCommand(keys: set<SensorKey>, issued: set<CommandKey>, n: Node, n': Node, key: CommandKey)
    requires ExactNode(keys, issued, n) && key in issued && |issued| <= CACHE_SIZE && key !in Window(n.commandLog)
    requires n'.commandLog == n.commandLog + [key] && n'.sensorLog == n.sensorLog
    requires |n'.queue| <= |n.queue| + 1 && n'.held == n.held
    ensures ExactNode(keys, issued, n') && LessWork(keys, issued, n, n')
  {
    AcceptReducesUnseen(issued, n.commandLog, key);
  }

  lemma CommandReducesWork(keys: set<SensorKey>, issued: set<CommandKey>, n: Node, p: Packet)
    requires ExactNode(keys, issued, n) && |issued| <= CACHE_SIZE
    requires |p.data| >= 4 && (p.data[2], p.data[3]) in issued
    ensures var (n', outcome) := HeardCommand(n, p);
      ExactNode(keys, issued, n') && if Accepting(outcome) then LessWork(keys, issued, n, n') else n' == n
  {
    var key := (p.data[2], p.data[3]);
    if key !in Window(n.commandLog) {
      AcceptedCommand(keys, issued, n, HeardCommand(n, p).0, key);
    }
  }

  lemma ReceiveReducesWork(m: State, n: Node, ad: Advert)
    requires ExactNode(SensorKeys(m), m.issued, n) && FewKeys(m)
    requires FirstPacket(ad).Some? && Genuine(m, FirstPacket(ad).value)
    ensures var (n', outcome) := Heard(n, ad);
      && ExactNode(SensorKeys(m), m.issued, n')
      && if Accepting(outcome) then LessWork(SensorKeys(m), m.issued, n, n') else n' == n
  {
    var p := FirstPacket(ad).value;
    if p.SensorPacket? {
      GenuineKeys(m, p);
      SensorReducesWork(SensorKeys(m), m.issued, n, p);
    } else {
      CommandReducesWork(SensorKeys(m), m.issued, n, p);
    }
  }

  /** The part of the work argument that concerns the one node that moved. */
  ghost predicate WorksDown(keys: set<SensorKey>, issued: set<CommandKey>, n: Node, n': Node, productive: bool) {
    && ExactNode(keys, issued, n')
    && (if productive then LessWork(keys, issued, n, n') else NodeWork(keys, issued, n') == NodeWork(keys, issued, n))
  }

  lemma QuietStepReducesWork(m: State, s: Step)
    requires Invariant(m) && ExactLogs(m) && FewKeys(m)
    requires Enabled(m, s) && !s.DoSample? && !s.Broadcast?
    ensures Apply(m, s).sampled == m.sampled && Apply(m, s).issued == m.issued
    ensures ExactLogs(Apply(m, s))
    ensures Work(Apply(m, s)) + (if Productive(m, s) then 1 else 0) <= Work(m)
  {
    if s.Receive? {
      ReceiptReducesWork(m, s.i, s.source);
    } else if !s.BroadcastEnds? {
      LocalReducesWork(m, s);
    }
  }

  lemma LocalMovesOne(m: State, s: Step)
    requires Enabled(m, s) && Local(s)
    ensures Apply(m, s) == Update(m, s.i, Apply(m, s).nodes[s.i])
  {
  }

  lemma {:induction false} LocalReducesWork(m: State, s: Step)
    requires ExactLogs(m) && Enabled(m, s) && Local(s)
    ensures Apply(m, s).sampled == m.sampled && Apply(m, s).issued == m.issued
    ensures ExactLogs(Apply(m, s))
    ensures Work(Apply(m, s)) + (if Productive(m, s) then 1 else 0) <= Work(m)
  {
    LocalStepWork(m, s);
    LocalMovesOne(m, s);
    MoveReducesWork(m, s.i, Apply(m, s).nodes[s.i], Productive(m, s));
  }

  lemma ReceiptReducesWork(m: State, i: nat, source: Source)
    requires Invariant(m) && ExactLogs(m) && FewKeys(m) && Enabled(m, Receive(i, source))
    ensures var (n', outcome) := Heard(m.nodes[i], OnAir(m, source).value);
      && ExactLogs(Update(m, i, n'))
      && Work(Update(m, i, n')) + (if Accepting(outcome) then 1 else 0) <= Work(m)
  {
    var (n', outcome) := Heard(m.nodes[i], OnAir(m, source).value);
    HeardIsGenuine(m, source);
    ReceiveReducesWork(m, m.nodes[i], OnAir(m, source).value);
    MoveReducesWork(m, i, n', Accepting(outcome));
  }

  lemma {:induction false} MoveReducesWork(m: State, i: nat, n': Node, productive: bool)
    requires ExactLogs(m) && i < |m.nodes|
    requires WorksDown(SensorKeys(m), m.issued, m.nodes[i], n', productive)
    ensures ExactLogs(Update(m, i, n'))
    ensures Work(Update(m, i, n')) + (if productive then 1 else 0) <= Work(m)
  {
    UpdateTotal(SensorKeys(m), m.issued, m.nodes, i, n');
  }

  lemma LocalStepWork(m: State, s: Step)
    requires Enabled(m, s) && Local(s)
    requires ExactNode(SensorKeys(m), m.issued, m.nodes[s.i])
    ensures WorksDown(SensorKeys(m), m.issued, m.nodes[s.i], Apply(m, s).nodes[s.i], Productive(m, s))
  {
    match s
    case Take(i) =>
    case Send(i, ok) =>
    case _ =>
  }

  /**
   * The flood dies out. Once sampling and broadcasting stop, the number of acceptances,
   * dequeues and transmissions still to come, over all nodes and in any interleaving, is
   * bounded by the work left in the network.
   */
  lemma {:induction false} FloodTerminates(m: State, steps: seq<Step>)
    requires Invariant(m) && ExactLogs(m) && FewKeys(m)
    requires CanRun(m, steps) && Quiescent(steps)
    ensures CountProductive(m, steps) + Work(After(m, steps)) <= Work(m)
    decreases |steps|
  {
    if steps != [] {
      StepKeepsInvariant(m, steps[0]);
      QuietStepReducesWork(m, steps[0]);
      assert Quiescent(steps[1..]);
      FloodTerminates(Apply(m, steps[0]), steps[1..]);
    }
  }

  /** That work never exceeds 217 per node, whatever happened before. */
  lemma {:induction false} WorkBound(m: State, k: nat)
    requires Invariant(m) && FewKeys(m) && k <= |m.nodes|
    ensures TotalWork(SensorKeys(m), m.issued, m.nodes[..k]) <= 217 * k
  {
    if k > 0 {
      assert m.nodes[..k][..k - 1] == m.nodes[..k - 1];
      WorkBound(m, k - 1);
      var n := m.nodes[k - 1];
      assert GenuineNode(m, n);
      assert SensorKeys(m) - (set key | key in n.sensorLog) <= SensorKeys(m);
      assert m.issued - (set key | key in n.commandLog) <= m.issued;
      FewerKeys(SensorKeys(m) - (set key | key in n.sensorLog), SensorKeys(m));
      FewerKeys(m.issued - (set key | key in n.commandLog), m.issued);
    }
  }

  lemma FewerKeys<K>(smaller: set<K>, larger: set<K>)
    requires smaller <= larger
    ensures |smaller| <= |larger|
  {
    if smaller != {} {
      var k :| k in smaller;
      FewerKeys(smaller - {k}, larger - {k});
    }
  }

  lemma StepKeepsExactLogs(m: State, s: Step)
    requires Invariant(m) && ExactLogs(m) && Enabled(m, s) && FewKeys(Apply(m, s))
    ensures FewKeys(m) && ExactLogs(Apply(m, s))
  {
    var m' := Apply(m, s);
    StepKeepsInvariant(m, s);
    FewerKeys(m.issued, m'.issued);
    assert SensorKeys(m) <= SensorKeys(m') by {
      forall k | k in SensorKeys(m)
        ensures k in SensorKeys(m')
      {
        var sample :| sample in m.sampled && k == (sample.origin, sample.seqno);
        assert sample in m'.sampled;
      }
    }
    FewerKeys(SensorKeys(m), SensorKeys(m'));
    match s {
      case DoSample(i, reading) =>
        var sample := SampleTaken(m.nodes[i], reading);
        assert sample in m'.sampled;
        assert (sample.origin, sample.seqno) in SensorKeys(m');
        AcceptInSmallUniverse(m.nodes[i].sensorLog, (sample.origin, sample.seqno), SensorKeys(m'));
      case Broadcast(_, _) =>
      case _ => QuietStepReducesWork(m, s);
    }
  }

  /**
   * In a run from boot with at most 32 distinct sensor keys and 32 distinct commands, no
   * node accepts any key twice: its acceptance logs are free of duplicates.
   */
  lemma {:induction false} AcceptedAtMostOnce(m: State, steps: seq<Step>)
    requires Invariant(m) && ExactLogs(m) && CanRun(m, steps) && FewKeys(After(m, steps))
    ensures FewKeys(m) && ExactLogs(After(m, steps))
    decreases |steps|
  {
    if steps != [] {
      var m' := Apply(m, steps[0]);
      StepKeepsInvariant(m, steps[0]);
      RunKeepsFewKeys(m', steps[1..]);
      StepKeepsExactLogs(m, steps[0]);
      AcceptedAtMostOnce(m', steps[1..]);
    }
  }

  lemma RunKeepsFewKeys(m: State, steps: seq<Step>)
    requires Invariant(m) && CanRun(m, steps) && FewKeys(After(m, steps))
    ensures FewKeys(m)
  {
    var m' := After(m, steps);
    RunKeepsInvariant(m, steps);
    FewerKeys(m.issued, m'.issued);
    forall k | k in SensorKeys(m)
      ensures k in SensorKeys(m')
    {
      var sample :| sample in m.sampled && k == (sample.origin, sample.seqno);
      assert sample in m'.sampled;
    }
    FewerKeys(SensorKeys(m), SensorKeys(m'));
  }

  lemma CanRunSplit(m: State, before: seq<Step>, after: seq<Step>)
    requires CanRun(m, before + after)
    ensures CanRun(m, before) && CanRun(After(m, before), after)
    ensures After(m, before + after) == After(After(m, before), after)
    decreases |before|
  {
    if before == [] {
      assert before + after == after;
    } else {
      assert (before + after)[1..] == before[1..] + after;
      CanRunSplit(Apply(m, before[0]), before[1..], after);
    }
  }

  /**
   * Flood termination from boot. Run the mesh in any way that produces at most 32 distinct
   * sensor keys and 32 distinct commands, then let it run on without new samples and
   * broadcasts: at most 217 productive steps per node remain.
   */
  lemma FloodTerminatesFromBoot(ids: seq<byte>, active: seq<Step>, quiet: seq<Step>)
    requires CanRun(Boot(ids), active + quiet) && Quiescent(quiet)
    requires FewKeys(After(Boot(ids), active + quiet))
    ensures CanRun(Boot(ids), active) && CanRun(After(Boot(ids), active), quiet)
    ensures ExactLogs(After(Boot(ids), active + quiet))
    ensures CountProductive(After(Boot(ids), active), quiet) <= 217 * |ids|
  {
    BootInvariant(ids);
    CanRunSplit(Boot(ids), active, quiet);
    RunKeepsInvariant(Boot(ids), active);
    QuietPartTerminates(Boot(ids), active, quiet);
  }

  lemma QuietPartTerminates(m: State, active: seq<Step>, quiet: seq<Step>)
    requires Invariant(m) && ExactLogs(m) && CanRun(m, active) && Invariant(After(m, active))
    requires CanRun(After(m, active), quiet) && Quiescent(quiet) && FewKeys(After(After(m, active), quiet))
    ensures ExactLogs(After(After(m, active), quiet))
    ensures CountProductive(After(m, active), quiet) <= 217 * |After(m, active).nodes|
  {
    var m' := After(m, active);
    RunKeepsFewKeys(m', quiet);
    AcceptedAtMostOnce(m, active);
    AcceptedAtMostOnce(m', quiet);
    FloodTerminates(m', quiet);
    WorkBound(m', |m'.nodes|);
    assert m'.nodes[..|m'.nodes|] == m'.nodes;
  }

  // ----- Exactly when every key is accepted once -----

  /** The key that hearing an advertisement offers to a node's sensor cache, if any. */
  function SensorOffered(n: Node, ad: Advert): seq<SensorKey> {
    match FirstPacket(ad)
    case None => []
    case Some(p) => if p.SensorPacket? && p.data[2] != n.id then [SensorKeyOf(p)] else []
  }

  function CommandOffered(ad: Advert): seq<CommandKey> {
    match FirstPacket(ad)
    case None => []
    case Some(p) => if p.CommandPacket? then [(p.data[2], p.data[3])] else []
  }

  /** The key offered to node i's sensor cache in a step, if any. */
  function SensorOffer(m: State, s: Step, i: nat): seq<SensorKey>
    requires Enabled(m, s)
  {
    match s
    case DoSample(j, reading) => if j == i then [(m.nodes[i].id, (m.nodes[i].seqno + 1) % 0x100)] else []
    case Receive(j, source) => if j == i then SensorOffered(m.nodes[i], OnAir(m, source).value) else []
    case _ => []
  }

  function CommandOffer(m: State, s: Step, i: nat): seq<CommandKey>
    requires Enabled(m, s)
  {
    if s.Receive? && s.i == i then CommandOffered(OnAir(m, s.source).value) else []
  }

  function SensorOffers(m: State, steps: seq<Step>, i: nat): seq<SensorKey>
    requires CanRun(m, steps)
    decreases |steps|
  {
    if steps == [] then [] else SensorOffer(m, steps[0], i) + SensorOffers(Apply(m, steps[0]), steps[1..], i)
  }

  function CommandOffers(m: State, steps: seq<Step>, i: nat): seq<CommandKey>
    requires CanRun(m, steps)
    decreases |steps|
  {
    if steps == [] then [] else CommandOffer(m, steps[0], i) + CommandOffers(Apply(m, steps[0]), steps[1..], i)
  }

  function AcceptEach<K(==)>(log: seq<K>, keys: seq<K>): seq<K> {
    if keys == [] then log else Accept(log, keys[0])
  }

  lemma HeardAcceptsOffer(n: Node, ad: Advert)
    ensures Heard(n, ad).0.sensorLog == AcceptEach(n.sensorLog, SensorOffered(n, ad))
    ensures Heard(n, ad).0.commandLog == AcceptEach(n.commandLog, CommandOffered(ad))
  {
  }

  lemma StepAcceptsOffer(m: State, s: Step, i: nat)
    requires Enabled(m, s) && i < |m.nodes|
    ensures |Apply(m, s).nodes| == |m.nodes|
    ensures Apply(m, s).nodes[i].sensorLog == AcceptEach(m.nodes[i].sensorLog, SensorOffer(m, s, i))
    ensures Apply(m, s).nodes[i].commandLog == AcceptEach(m.nodes[i].commandLog, CommandOffer(m, s, i))
  {
    match s
    case Receive(j, source) => HeardAcceptsOffer(m.nodes[j], OnAir(m, source).value);
    case _ =>
  }

  lemma OfferMore<K>(prior: seq<K>, keys: seq<K>)
    requires |keys| <= 1
    ensures AcceptAll(prior + keys) == AcceptEach(AcceptAll(prior), keys)
  {
    if keys == [] {
      assert prior + keys == prior;
    } else {
      assert prior + keys == prior + [keys[0]];
      assert (prior + keys)[..|prior|] == prior;
    }
  }

  lemma Regroup<K>(a: seq<K>, b: seq<K>, c: seq<K>)
    ensures a + b + c == a + (b + c)
  {
  }

  lemma {:induction false} SensorLogIsOffers(m: State, steps: seq<Step>, i: nat, prior: seq<SensorKey>)
    requires CanRun(m, steps) && i < |m.nodes| && m.nodes[i].sensorLog == AcceptAll(prior)
    ensures |After(m, steps).nodes| == |m.nodes|
    ensures After(m, steps).nodes[i].sensorLog == AcceptAll(prior + SensorOffers(m, steps, i))
    decreases |steps|
  {
    if steps == [] {
      assert prior + [] == prior;
    } else {
      var m', offer := Apply(m, steps[0]), SensorOffer(m, steps[0], i);
      StepAcceptsOffer(m, steps[0], i);
      OfferMore(prior, offer);
      SensorLogIsOffers(m', steps[1..], i, prior + offer);
      Regroup(prior, offer, SensorOffers(m', steps[1..], i));
    }
  }

  lemma {:induction false} CommandLogIsOffers(m: State, steps: seq<Step>, i: nat, prior: seq<CommandKey>)
    requires CanRun(m, steps) && i < |m.nodes| && m.nodes[i].commandLog == AcceptAll(prior)
    ensures |After(m, steps).nodes| == |m.nodes|
    ensures After(m, steps).nodes[i].commandLog == AcceptAll(prior + CommandOffers(m, steps, i))
    decreases |steps|
  {
    if steps == [] {
      assert prior + [] == prior;
    } else {
      var m', offer := Apply(m, steps[0]), CommandOffer(m, steps[0], i);
      StepAcceptsOffer(m, steps[0], i);
      OfferMore(prior, offer);
      CommandLogIsOffers(m', steps[1..], i, prior + offer);
      Regroup(prior, offer, CommandOffers(m', steps[1..], i));
    }
  }

  /**
   * The exact condition, in any run from boot and with any number of keys: a node accepts no
   * sensor key twice if and only if whatever it hears or samples again is among the last 32
   * keys it came across, and it then accepts each key when it first comes across it; and the
   * same for commands.
   */
  lemma AcceptedOnceIff(ids: seq<byte>, steps: seq<Step>, i: nat)
    requires CanRun(Boot(ids), steps) && i < |ids|
    ensures |After(Boot(ids), steps).nodes| == |ids|
    ensures var n, offers := After(Boot(ids), steps).nodes[i], SensorOffers(Boot(ids), steps, i);
      && (NoDuplicates(n.sensorLog) <==> RepeatsAreRecent(offers))
      && (RepeatsAreRecent(offers) ==> n.sensorLog == Firsts(offers))
    ensures var n, offers := After(Boot(ids), steps).nodes[i], CommandOffers(Boot(ids), steps, i);
      && (NoDuplicates(n.commandLog) <==> RepeatsAreRecent(offers))
      && (RepeatsAreRecent(offers) ==> n.commandLog == Firsts(offers))
  {
    SensorLogIsOffers(Boot(ids), steps, i, []);
    CommandLogIsOffers(Boot(ids), steps, i, []);
    var sensors, commands := SensorOffers(Boot(ids), steps, i), CommandOffers(Boot(ids), steps, i);
    assert [] + sensors == sensors && [] + commands == commands;
    ExactOnceIff(sensors);
    ExactOnceIff(commands);
  }

  // ----- Thirty-three keys are too many -----

  lemma CanRunJoin(m: State, before: seq<Step>, after: seq<Step>)
    requires CanRun(m, before) && CanRun(After(m, before), after)
    ensures CanRun(m, before + after) && After(m, before + after) == After(After(m, before), after)
    decreases |before|
  {
    if before == [] {
      assert before + after == after;
    } else {
      assert (before + after)[1..] == before[1..] + after;
      CanRunJoin(Apply(m, before[0]), before[1..], after);
    }
  }

  function Samples(i: nat, reading: Reading, n: nat): seq<Step> {
    if n == 0 then [] else Samples(i, reading, n - 1) + [Wake(i), DoSample(i, reading)]
  }

  /** The keys of n consecutive samples after sequence number `from`. */
  function OwnKeys(id: byte, from: byte, n: nat): seq<SensorKey> {
    seq(n, k requires k >= 0 => (id, (from + 1 + k) % 0x100))
  }

  /** What taking one sample does to a node. */
  predicate TookSample(n: Node, n': Node, reading: Reading) {
    var seqno := (n.seqno + 1) % 0x100;
    && n'.id == n.id && n'.seqno == seqno && n'.mode == n.mode && !n'.sampling && n'.held == n.held
    && n'.sensorLog == Accept(n.sensorLog, (n.id, seqno))
    && (n.queue == [] ==> n'.queue == [SensorPacket(SensorBytes(Sample(n.id, seqno, reading)))])
  }

  lemma SampleEffect(n: Node, reading: Reading)
    requires n.mode == Normal
    ensures TookSample(n, FinishSample(StartSample(n), reading).0, reading)
  {
  }

  lemma OneSample(m: State, i: nat, reading: Reading)
    requires i < |m.nodes| && !m.nodes[i].sampling && m.nodes[i].mode == Normal
    ensures CanRun(m, [Wake(i), DoSample(i, reading)])
    ensures var m' := After(m, [Wake(i), DoSample(i, reading)]);
      && |m'.nodes| == |m.nodes| && (forall j :: 0 <= j < |m.nodes| && j != i ==> m'.nodes[j] == m.nodes[j])
      && TookSample(m.nodes[i], m'.nodes[i], reading)
  {
    var m1 := Apply(m, Wake(i));
    assert m1.nodes == m.nodes[i := StartSample(m.nodes[i])];
    SampleApplied(m1, i, reading);
    TwoSteps(m, Wake(i), DoSample(i, reading));
    SampleEffect(m.nodes[i], reading);
  }

  lemma SampleApplied(m: State, i: nat, reading: Reading)
    requires i < |m.nodes| && m.nodes[i].sampling
    ensures Apply(m, DoSample(i, reading)).nodes == m.nodes[i := FinishSample(m.nodes[i], reading).0]
  {
  }

  lemma TwoSteps(m: State, s: Step, t: Step)
    requires Enabled(m, s) && Enabled(Apply(m, s), t)
    ensures CanRun(m, [s, t]) && After(m, [s, t]) == Apply(Apply(m, s), t)
  {
    assert [s, t][1..] == [t];
    SingleStep(Apply(m, s), t);
  }

  lemma SingleStep(m: State, s: Step)
    requires Enabled(m, s)
    ensures CanRun(m, [s]) && After(m, [s]) == Apply(m, s)
  {
    assert [s][1..] == [];
    assert CanRun(Apply(m, s), []) && After(Apply(m, s), []) == Apply(m, s);
  }

  /** Node i took n samples and its ring remembers them on top of what it had; no other node moved. */
  predicate Filled(m: State, m': State, i: nat, n: nat)
    requires i < |m.nodes|
  {
    && |m'.nodes| == |m.nodes| && (forall j :: 0 <= j < |m.nodes| && j != i ==> m'.nodes[j] == m.nodes[j])
    && m'.nodes[i].sensorLog == m.nodes[i].sensorLog + OwnKeys(m.nodes[i].id, m.nodes[i].seqno, n)
    && m'.nodes[i].seqno == (m.nodes[i].seqno + n) % 0x100
    && !m'.nodes[i].sampling && m'.nodes[i].mode == Normal && m'.nodes[i].id == m.nodes[i].id
  }

  /** A node's next n samples have keys that differ from the one after them. */
  lemma OwnKeysDiffer(id: byte, from: byte, n: nat)
    requires n < CACHE_SIZE
    ensures (id, (from + n + 1) % 0x100) !in OwnKeys(id, from, n)
  {
    var own, key := OwnKeys(id, from, n), (id, (from + n + 1) % 0x100);
    forall k | 0 <= k < |own|
      ensures own[k] != key
    {
      NearNumbersDiffer(from + 1 + k, from + n + 1);
    }
  }

  lemma OwnKeysGrow(id: byte, from: byte, n: nat)
    ensures OwnKeys(id, from, n) + [(id, (from + n + 1) % 0x100)] == OwnKeys(id, from, n + 1)
  {
  }

  lemma WrappedSuccessor(a: nat)
    ensures (a % 0x100 + 1) % 0x100 == (a + 1) % 0x100
  {
  }

  lemma NearNumbersDiffer(a: nat, b: nat)
    requires a < b < a + 0x100
    ensures a % 0x100 != b % 0x100
  {
  }

  lemma OwnKeyIsNew(log: seq<SensorKey>, id: byte, from: byte, n: nat)
    requires n < CACHE_SIZE && forall k :: k in log ==> k.0 != id
    ensures var key := (id, (from + n + 1) % 0x100);
      Accept(log + OwnKeys(id, from, n), key) == log + OwnKeys(id, from, n + 1)
    ensures ((from + n) % 0x100 + 1) % 0x100 == (from + n + 1) % 0x100
  {
    var own, key := OwnKeys(id, from, n), (id, (from + n + 1) % 0x100);
    OwnKeysDiffer(id, from, n);
    OwnKeysGrow(id, from, n);
    WrappedSuccessor(from + n);
    WindowIncluded(log + own, key);
    assert key !in log && key !in own;
    assert log + own + [key] == log + (own + [key]);
  }

  lemma FillOneMore(m: State, m1: State, i: nat, reading: Reading, n: nat)
    requires i < |m.nodes| && Filled(m, m1, i, n) && n < CACHE_SIZE
    requires forall k :: k in m.nodes[i].sensorLog ==> k.0 != m.nodes[i].id
    ensures CanRun(m1, [Wake(i), DoSample(i, reading)])
    ensures Filled(m, After(m1, [Wake(i), DoSample(i, reading)]), i, n + 1)
  {
    OneSample(m1, i, reading);
    OwnKeyIsNew(m.nodes[i].sensorLog, m.nodes[i].id, m.nodes[i].seqno, n);
  }

  lemma {:induction false} SamplesFillRing(m: State, i: nat, reading: Reading, n: nat)
    requires i < |m.nodes| && !m.nodes[i].sampling && m.nodes[i].mode == Normal && n <= CACHE_SIZE
    requires forall k :: k in m.nodes[i].sensorLog ==> k.0 != m.nodes[i].id
    ensures CanRun(m, Samples(i, reading, n)) && Filled(m, After(m, Samples(i, reading, n)), i, n)
  {
    if n > 0 {
      SamplesFillRing(m, i, reading, n - 1);
      FillOneMore(m, After(m, Samples(i, reading, n - 1)), i, reading, n - 1);
      CanRunJoin(m, Samples(i, reading, n - 1), [Wake(i), DoSample(i, reading)]);
    } else {
      assert m.nodes[i].sensorLog == m.nodes[i].sensorLog + OwnKeys(m.nodes[i].id, m.nodes[i].seqno, 0);
    }
  }

  function CountSamples(steps: seq<Step>): nat {
    if steps == [] then 0 else CountSamples(steps[..|steps| - 1]) + if steps[|steps| - 1].DoSample? then 1 else 0
  }

  lemma SamplesCount(before: seq<Step>, i: nat, reading: Reading, n: nat)
    ensures CountSamples(before + Samples(i, reading, n)) == CountSamples(before) + n
  {
    if n > 0 {
      var shorter := before + Samples(i, reading, n - 1);
      SamplesCount(before, i, reading, n - 1);
      assert before + Samples(i, reading, n) == shorter + [Wake(i)] + [DoSample(i, reading)];
      assert (shorter + [Wake(i)])[..|shorter|] == shorter;
    } else {
      assert before + Samples(i, reading, n) == before;
    }
  }

  /** Node 0 has packet p on air and node 1 has accepted it, and nothing else. */
  predicate InContact(m: State, a: byte, b: byte, p: Packet) {
    && |m.nodes| == 2 && m.nodes[0].id == a && m.nodes[1].id == b
    && m.nodes[0].onAir == Some(p) && |p.data| >= 4
    && m.nodes[1].sensorLog == [SensorKeyOf(p)] && !m.nodes[1].sampling && m.nodes[1].mode == Normal
  }

  const FIRST_HOP: seq<Step> := [Take(0), Send(0, true), Receive(1, FromNode(0))]

  lemma OneHop(m: State, a: byte, b: byte, p: Packet)
    requires a != b && WellFormed(p) && p.SensorPacket? && p.data[2] == a
    requires |m.nodes| == 2 && m.nodes[0].id == a && m.nodes[0].mode == Normal && m.nodes[0].queue == [p]
    requires m.nodes[0].held.None? && m.nodes[1] == InitialNode(b)
    ensures CanRun(m, FIRST_HOP) && InContact(After(m, FIRST_HOP), a, b, p)
  {
    var m1 := Apply(m, Take(0));
    assert m1.nodes[0].held == Some(p) && m1.nodes[1] == InitialNode(b);
    var m2 := Apply(m1, Send(0, true));
    assert m2.nodes[0].onAir == Some(p) && m2.nodes[1] == InitialNode(b);
    RelayReadsPacket(a, p);
    var m3 := Apply(m2, Receive(1, FromNode(0)));
    assert m3.nodes[1] == HeardSensor(InitialNode(b), p).0;
    assert FIRST_HOP[1..] == [Send(0, true), Receive(1, FromNode(0))];
    assert FIRST_HOP[1..][1..] == [Receive(1, FromNode(0))] && FIRST_HOP[1..][1..][1..] == [];
    assert CanRun(m1, FIRST_HOP[1..]);
    assert After(m, FIRST_HOP) == m3;
  }

  lemma CountsOne(reading: Reading)
    ensures CountSamples([Wake(0), DoSample(0, reading)] + FIRST_HOP) == 1
  {
    var steps := [Wake(0), DoSample(0, reading)] + FIRST_HOP;
    assert steps[..4][..3] == steps[..3] && steps[..3][..2] == steps[..2] && steps[..2][..1] == steps[..1];
    assert steps[..1][..0] == [];
    assert CountSamples(steps[..1]) == 0 && CountSamples(steps[..2]) == 1;
    assert CountSamples(steps[..3]) == 1 && CountSamples(steps[..4]) == 1;
  }

  /** A sample of node 0 reaches the air, and node 1 accepts it. */
  lemma FirstContact(a: byte, b: byte, reading: Reading) returns (steps: seq<Step>)
    requires a != b
    ensures CanRun(Boot([a, b]), steps) && CountSamples(steps) == 1
    ensures InContact(After(Boot([a, b]), steps), a, b, SensorPacket(SensorBytes(Sample(a, 1, reading))))
  {
    var boot, sampling := Boot([a, b]), [Wake(0), DoSample(0, reading)];
    OneSample(boot, 0, reading);
    OneHop(After(boot, sampling), a, b, SensorPacket(SensorBytes(Sample(a, 1, reading))));
    CanRunJoin(boot, sampling, FIRST_HOP);
    CountsOne(reading);
    steps := sampling + FIRST_HOP;
  }

  /**
   * The bound of 32 cannot be raised. Between any two nodes there is a run with 33 samples in
   * which one accepts, and relays, a packet of the other twice: after 32 samples of its own
   * its ring has forgotten the packet that its neighbour still has on air.
   */
  lemma StaleAdvertReaccepted(a: byte, b: byte, reading: Reading) returns (steps: seq<Step>)
    requires a != b
    ensures CanRun(Boot([a, b]), steps) && CountSamples(steps) == CACHE_SIZE + 1
    ensures !ExactLogs(After(Boot([a, b]), steps))
  {
    var boot, p := Boot([a, b]), SensorPacket(SensorBytes(Sample(a, 1, reading)));
    var contact := FirstContact(a, b, reading);
    var m1 := After(boot, contact);
    var samples := Samples(1, reading, CACHE_SIZE);
    SamplesFillRing(m1, 1, reading, CACHE_SIZE);
    CanRunJoin(boot, contact, samples);
    SamplesCount(contact, 1, reading, CACHE_SIZE);
    var again: seq<Step> := [Receive(1, FromNode(0))];
    HeardAgain(m1, After(m1, samples), a, b, p);
    CanRunJoin(boot, contact + samples, again);
    steps := contact + samples + again;
    assert steps[..|contact + samples|] == contact + samples;
  }

  lemma HeardAgain(m: State, m': State, a: byte, b: byte, p: Packet)
    requires a != b && WellFormed(p) && p.SensorPacket? && p.data[2] == a
    requires InContact(m, a, b, p) && Filled(m, m', 1, CACHE_SIZE)
    ensures CanRun(m', [Receive(1, FromNode(0))]) && !ExactLogs(After(m', [Receive(1, FromNode(0))]))
  {
    var log, key := m'.nodes[1].sensorLog, SensorKeyOf(p);
    assert Window(log) == OwnKeys(b, m.nodes[1].seqno, CACHE_SIZE);
    assert key !in Window(log);
    RelayReadsPacket(a, p);
    var m'' := Apply(m', Receive(1, FromNode(0)));
    assert m''.nodes[1] == HeardSensor(m'.nodes[1], p).0;
    var again := m''.nodes[1].sensorLog;
    assert again == log + [key] && again[0] == again[|log|];
    assert [Receive(1, FromNode(0))][1..] == [];
    assert !ExactNode(SensorKeys(m''), m''.issued, m''.nodes[1]);
  }

  // ----- What is on air -----

  /**
   * What can be heard from a node: after a successful send the packet sent, and after a
   * successful stop nothing; a failed call, or a step of another node, changes nothing.
   */
  lemma OnAirAfter(m: State, s: Step, j: nat)
    requires Enabled(m, s) && j < |m.nodes|
    ensures OnAir(Apply(m, s), FromNode(j)) ==
      if s == Send(j, true) then Some(NodeAdvert(m.nodes[j].id, m.nodes[j].held.value))
      else if s == StopAdv(j, true) then None
      else OnAir(m, FromNode(j))
  {
    if s.Receive? {
      HeardOnlyQueues(m.nodes[s.i], OnAir(m, s.source).value);
      StepKeepsIds(m, s, j);
    }
  }

  function CountBroadcasts(steps: seq<Step>): nat
    decreases |steps|
  {
    if steps == [] then 0 else (if steps[0].Broadcast? then 1 else 0) + CountBroadcasts(steps[1..])
  }

  lemma StepCounts(m: State, s: Step)
    requires Enabled(m, s)
    ensures Apply(m, s).mobileSeq == if s.Broadcast? then (m.mobileSeq + 1) % 0x100 else m.mobileSeq
  {
  }

  lemma WrappedSum(a: nat, b: nat)
    ensures ((a + 1) % 0x100 + b) % 0x100 == (a + (1 + b)) % 0x100
  {
  }

  lemma {:induction false} MobileSeqCounts(m: State, steps: seq<Step>)
    requires CanRun(m, steps)
    ensures After(m, steps).mobileSeq == (m.mobileSeq + CountBroadcasts(steps)) % 0x100
    decreases |steps|
  {
    if steps != [] {
      StepCounts(m, steps[0]);
      MobileSeqCounts(Apply(m, steps[0]), steps[1..]);
      WrappedSum(m.mobileSeq, CountBroadcasts(steps[1..]));
    }
  }

  /** Broadcasts are numbered one by one modulo 256, and one that could not start uses up its number. */
  lemma {:induction false} BroadcastsAreNumbered(m: State, steps: seq<Step>, cmd: byte)
    requires CanRun(m, steps) && After(m, steps).mobileAir.None?
    ensures OnAir(Apply(After(m, steps), Broadcast(cmd, true)), FromMobile)
         == Some(BroadcastAdvert((m.mobileSeq + CountBroadcasts(steps)) % 0x100, cmd))
  {
    MobileSeqCounts(m, steps);
  }

  /** Step k is one in which node i's sampling thread found the node in normal mode. */
  predicate FoundAwake(m: State, steps: seq<Step>, k: nat, i: nat) {
    && k < |steps| && steps[k] == Wake(i) && CanRun(m, steps[..k])
    && i < |After(m, steps[..k]).nodes| && After(m, steps[..k]).nodes[i].mode == Normal
  }

  lemma OnlyWakingBegins(m: State, s: Step, i: nat)
    requires Enabled(m, s) && i < |m.nodes|
    ensures |Apply(m, s).nodes| == |m.nodes|
    ensures Apply(m, s).nodes[i].sampling <==>
      if s == Wake(i) then m.nodes[i].mode == Normal
      else m.nodes[i].sampling && !(s.DoSample? && s.i == i)
  {
    if s.Receive? && s.i == i {
      HearingBeginsNothing(m.nodes[i], OnAir(m, s.source).value);
    }
  }

  lemma HearingBeginsNothing(n: Node, ad: Advert)
    ensures Heard(n, ad).0.sampling == n.sampling
  {
  }

  /** A node that is sampling was found awake since its last sample. */
  lemma {:induction false} SamplingBeganAwake(m: State, steps: seq<Step>, i: nat) returns (k: nat)
    requires CanRun(m, steps) && i < |m.nodes| && !m.nodes[i].sampling
    requires i < |After(m, steps).nodes| && After(m, steps).nodes[i].sampling
    ensures FoundAwake(m, steps, k, i) && forall l :: k < l < |steps| ==> steps[l] != Wake(i) && !(steps[l].DoSample? && steps[l].i == i)
  {
    var n := |steps| - 1;
    if n < 0 {
      assert false;
    } else {
      assert steps == steps[..n] + [steps[n]] && [steps[n]][1..] == [];
      CanRunSplit(m, steps[..n], [steps[n]]);
      StepsKeepNodes(m, steps[..n]);
      OnlyWakingBegins(After(m, steps[..n]), steps[n], i);
      if steps[n] == Wake(i) {
        k := n;
      } else {
        k := SamplingBeganAwake(m, steps[..n], i);
        assert steps[..n][..k] == steps[..k];
      }
    }
  }

  lemma {:induction false} StepsKeepNodes(m: State, steps: seq<Step>)
    requires CanRun(m, steps)
    ensures |After(m, steps).nodes| == |m.nodes|
    decreases |steps|
  {
    if steps != [] {
      OtherNodesStay(m, steps[0]);
      StepsKeepNodes(Apply(m, steps[0]), steps[1..]);
    }
  }

  /**
   * Every sample of every run was begun in normal mode: before it, and after the sample before
   * it, the sampling thread found the node awake. (The mode may have changed since.)
   */
  lemma SamplesBeginAwake(ids: seq<byte>, steps: seq<Step>, d: nat) returns (k: nat)
    requires CanRun(Boot(ids), steps) && d < |steps| && steps[d].DoSample? && steps[d].i < |ids|
    ensures k < d && FoundAwake(Boot(ids), steps, k, steps[d].i)
    ensures forall l :: k < l < d ==> !(steps[l].DoSample? && steps[l].i == steps[d].i)
  {
    var before, rest, i := steps[..d], steps[d..], steps[d].i;
    assert steps == before + rest;
    CanRunSplit(Boot(ids), before, rest);
    StepsKeepNodes(Boot(ids), before);
    k := SamplingBeganAwake(Boot(ids), before, i);
    assert before[..k] == steps[..k];
  }

  // ----- Queues keep their order -----

  /** The packet that hearing an advertisement puts behind a node's queue, if any. */
  function Relayed(n: Node, ad: Advert): seq<Packet> {
    match FirstPacket(ad)
    case None => []
    case Some(p) =>
      if |n.queue| < 12 && (NewCommand(n, p) || (NewSensor(n, p) && n.mode == Normal)) then [p] else []
  }

  /** The packet a step puts behind node i's queue, if any. */
  function Enqueued(m: State, s: Step, i: nat): seq<Packet>
    requires Enabled(m, s) && i < |m.nodes|
  {
    var n := m.nodes[i];
    match s
    case DoSample(j, reading) =>
      if j == i && |n.queue| < 12 then [SensorPacket(SensorBytes(Sample(n.id, (n.seqno + 1) % 0x100, reading)))] else []
    case Receive(j, source) => if j == i then Relayed(n, OnAir(m, source).value) else []
    case _ => []
  }

  /** The packet a step takes from the front of node i's queue, if any. */
  function Dequeued(m: State, s: Step, i: nat): seq<Packet>
    requires Enabled(m, s) && i < |m.nodes|
  {
    if s == Take(i) then [m.nodes[i].queue[0]] else []
  }

  /** The packet taken and not discarded: sensor packets are discarded in low power. */
  function Kept(m: State, s: Step, i: nat): seq<Packet>
    requires Enabled(m, s) && i < |m.nodes|
  {
    if s == Take(i) && (m.nodes[i].queue[0].CommandPacket? || m.nodes[i].mode == Normal)
    then [m.nodes[i].queue[0]] else []
  }

  /** The packet handed to the controller, if any. */
  function Handed(m: State, s: Step, i: nat): seq<Packet>
    requires Enabled(m, s) && i < |m.nodes|
  {
    if s.Send? && s.i == i then [m.nodes[i].held.value] else []
  }

  function HeldBy(n: Node): seq<Packet> {
    if n.held.Some? then [n.held.value] else []
  }

  /** The packets of a whole run, by what each step contributes. */
  datatype Flow = Flow(enqueued: seq<Packet>, dequeued: seq<Packet>, kept: seq<Packet>, handed: seq<Packet>)

  function RunFlow(m: State, steps: seq<Step>, i: nat): Flow
    requires CanRun(m, steps) && i < |m.nodes|
    decreases |steps|
  {
    if steps == [] then Flow([], [], [], [])
    else
      StepKeepsIds(m, steps[0], i);
      var rest := RunFlow(Apply(m, steps[0]), steps[1..], i);
      Flow(Enqueued(m, steps[0], i) + rest.enqueued, Dequeued(m, steps[0], i) + rest.dequeued,
           Kept(m, steps[0], i) + rest.kept, Handed(m, steps[0], i) + rest.handed)
  }

  lemma HearingFlows(n: Node, ad: Advert)
    ensures Heard(n, ad).0.queue == n.queue + Relayed(n, ad) && Heard(n, ad).0.held == n.held
  {
    HeardOnlyQueues(n, ad);
    match FirstPacket(ad) {
      case None =>
      case Some(p) =>
        if p.SensorPacket? {
          HearingSensor(n, ad, p);
        } else {
          HearingCommand(n, ad, p);
        }
    }
  }

  lemma StepFlows(m: State, s: Step, i: nat)
    requires Enabled(m, s) && i < |m.nodes|
    ensures |Apply(m, s).nodes| == |m.nodes|
    ensures var n, n' := m.nodes[i], Apply(m, s).nodes[i];
      && n.queue + Enqueued(m, s, i) == Dequeued(m, s, i) + n'.queue
      && HeldBy(n) + Kept(m, s, i) == Handed(m, s, i) + HeldBy(n')
  {
    OtherNodesStay(m, s);
    if s.Receive? && s.i == i {
      HearingFlows(m.nodes[i], OnAir(m, s.source).value);
    }
  }

  lemma FlowJoins(a: seq<Packet>, b: seq<Packet>, c: seq<Packet>, d: seq<Packet>, e: seq<Packet>, f: seq<Packet>, g: seq<Packet>)
    requires a + b == c + d && d + e == f + g
    ensures a + (b + e) == (c + f) + g
  {
    assert a + (b + e) == (a + b) + e == c + (d + e);
  }

  /**
   * Order is kept at every node, over every run: what was queued and what was put behind it is
   * what was taken followed by what still waits; and what was taken, but for sensor packets
   * discarded in low power, was handed to the controller in the same order.
   */
  lemma {:induction false} QueuesKeepOrder(m: State, steps: seq<Step>, i: nat)
    requires CanRun(m, steps) && i < |m.nodes|
    ensures |After(m, steps).nodes| == |m.nodes|
    ensures var n, n', flow := m.nodes[i], After(m, steps).nodes[i], RunFlow(m, steps, i);
      && n.queue + flow.enqueued == flow.dequeued + n'.queue
      && HeldBy(n) + flow.kept == flow.handed + HeldBy(n')
    decreases |steps|
  {
    if steps != [] {
      var m' := Apply(m, steps[0]);
      StepFlows(m, steps[0], i);
      QueuesKeepOrder(m', steps[1..], i);
      var rest, n, n1, n' := RunFlow(m', steps[1..], i), m.nodes[i], m'.nodes[i], After(m, steps).nodes[i];
      FlowJoins(n.queue, Enqueued(m, steps[0], i), Dequeued(m, steps[0], i), n1.queue, rest.enqueued, rest.dequeued, n'.queue);
      FlowJoins(HeldBy(n), Kept(m, steps[0], i), Handed(m, steps[0], i), HeldBy(n1), rest.kept, rest.handed, HeldBy(n'));
    }
  }

  // ----- The flood gets through -----

  /** Node j can take on a packet: it is awake and idle, and has seen nothing. */
  predicate Fresh(n: Node) {
    n.mode == Normal && n.queue == [] && n.held.None? && n.sensorLog == [] && n.commandLog == []
  }

  /** Node j hears its predecessor only, takes what it queued and sends it. */
  function Hop(j: nat): seq<Step>
    requires j > 0
  {
    [Receive(j, FromNode(j - 1)), Take(j), Send(j, true)]
  }

  /** The node has accepted the command in p, and nothing else, and is in the mode it asks for. */
  predicate Obeys(n: Node, p: Packet)
    requires WellFormed(p) && p.CommandPacket?
  {
    && n.commandLog == [(p.data[2], p.data[3])]
    && n.mode == if p.data[3] == CMD_SLEEP then LowPower else Normal
  }

  /** Node j has p on air, the nodes after it are fresh, and p is not their own. */
  predicate Front(m: State, ids: seq<byte>, j: nat, p: Packet) {
    && |m.nodes| == |ids| && j < |ids| && m.nodes[j].onAir == Some(p) && WellFormed(p)
    && (p.CommandPacket? ==> Obeys(m.nodes[j], p))
    && forall k :: j < k < |ids| ==> Fresh(m.nodes[k]) && m.nodes[k].id == ids[k] && (p.SensorPacket? ==> p.data[2] != ids[k])
  }

  lemma ThreeSteps(m: State, a: Step, b: Step, c: Step)
    requires Enabled(m, a) && Enabled(Apply(m, a), b) && Enabled(Apply(Apply(m, a), b), c)
    ensures CanRun(m, [a, b, c]) && After(m, [a, b, c]) == Apply(Apply(Apply(m, a), b), c)
  {
    assert [a, b, c][1..] == [b, c];
    TwoSteps(Apply(m, a), b, c);
  }

  lemma FreshQueues(n: Node, ad: Advert, p: Packet)
    requires Fresh(n) && FirstPacket(ad) == Some(p) && WellFormed(p) && (p.SensorPacket? ==> p.data[2] != n.id)
    ensures Heard(n, ad).0.queue == [p] && Heard(n, ad).0.held.None?
    ensures if p.SensorPacket? then Heard(n, ad).0.mode == Normal else Obeys(Heard(n, ad).0, p)
  {
    if p.SensorPacket? {
      HearingSensor(n, ad, p);
    } else {
      HearingCommand(n, ad, p);
    }
  }

  lemma FrontMoves(m: State, m': State, ids: seq<byte>, j: nat, p: Packet)
    requires Front(m, ids, j, p) && j + 1 < |ids| && |m'.nodes| == |ids|
    requires m'.nodes[j + 1].onAir == Some(p) && (p.CommandPacket? ==> Obeys(m'.nodes[j + 1], p))
    requires forall k :: j + 1 < k < |ids| ==> m'.nodes[k] == m.nodes[k]
    ensures Front(m', ids, j + 1, p)
  {
  }

  lemma OneHopOn(m: State, ids: seq<byte>, j: nat, p: Packet)
    requires Front(m, ids, j, p) && j + 1 < |ids|
    ensures CanRun(m, Hop(j + 1)) && Front(After(m, Hop(j + 1)), ids, j + 1, p)
  {
    var i := j + 1;
    RelayReadsPacket(m.nodes[j].id, p);
    var n1 := Heard(m.nodes[i], OnAir(m, FromNode(j)).value).0;
    FreshQueues(m.nodes[i], OnAir(m, FromNode(j)).value, p);
    var m1 := Update(m, i, n1);
    var m2 := Update(m1, i, TakePacket(n1));
    assert m2.nodes[i].held == Some(p);
    ThreeSteps(m, Receive(i, FromNode(j)), Take(i), Send(i, true));
    FrontMoves(m, Update(m2, i, SendHeld(m2.nodes[i], true)), ids, j, p);
  }

  /** Every node hears only the one before it, and the first only the mobile node. */
  predicate AlongRow(steps: seq<Step>) {
    forall t :: 0 <= t < |steps| && steps[t].Receive? ==>
      steps[t].source == if steps[t].i == 0 then FromMobile else FromNode(steps[t].i - 1)
  }

  /** A packet on air at the first node of a row reaches the k-th in k hops. */
  lemma {:induction false} RowRelays(m: State, ids: seq<byte>, p: Packet, k: nat) returns (hops: seq<Step>)
    requires Front(m, ids, 0, p) && k < |ids|
    ensures CanRun(m, hops) && AlongRow(hops) && Front(After(m, hops), ids, k, p)
  {
    if k == 0 {
      hops := [];
    } else {
      var before := RowRelays(m, ids, p, k - 1);
      var hop := NextHop(After(m, before), ids, k - 1, p);
      CanRunJoin(m, before, hop);
      hops := before + hop;
    }
  }

  lemma NextHop(m: State, ids: seq<byte>, j: nat, p: Packet) returns (hop: seq<Step>)
    requires Front(m, ids, j, p) && j + 1 < |ids|
    ensures CanRun(m, hop) && AlongRow(hop) && Front(After(m, hop), ids, j + 1, p)
  {
    hop := Hop(j + 1);
    OneHopOn(m, ids, j, p);
  }

  /** Node 0 has only p in its queue and may send it, and the nodes after it are fresh. */
  predicate InHand(m: State, ids: seq<byte>, p: Packet) {
    && 0 < |m.nodes| == |ids| && m.nodes[0].queue == [p] && m.nodes[0].held.None? && WellFormed(p)
    && (if p.CommandPacket? then Obeys(m.nodes[0], p) else m.nodes[0].mode == Normal)
    && forall k :: 0 < k < |ids| ==> Fresh(m.nodes[k]) && m.nodes[k].id == ids[k] && (p.SensorPacket? ==> p.data[2] != ids[k])
  }

  lemma TakeAndSend(m: State, ids: seq<byte>, p: Packet)
    requires InHand(m, ids, p)
    ensures CanRun(m, [Take(0), Send(0, true)]) && Front(After(m, [Take(0), Send(0, true)]), ids, 0, p)
  {
    var m1 := Apply(m, Take(0));
    assert m1.nodes[0].held == Some(p);
    TwoSteps(m, Take(0), Send(0, true));
  }

  /**
   * Relaying over any distance. In a row of nodes with distinct identifiers, each in reach of
   * the one before it only, a sample of the first node is put on air by the last, byte for
   * byte as it was encoded.
   */
  lemma SampleCrossesRow(ids: seq<byte>, reading: Reading, k: nat) returns (steps: seq<Step>)
    requires k < |ids| && forall a, b :: 0 <= a < b < |ids| ==> ids[a] != ids[b]
    ensures CanRun(Boot(ids), steps) && AlongRow(steps) && k < |After(Boot(ids), steps).nodes|
    ensures After(Boot(ids), steps).nodes[k].onAir == Some(SensorPacket(SensorBytes(Sample(ids[0], 1, reading))))
  {
    var sampling, p := [Wake(0), DoSample(0, reading)], SensorPacket(SensorBytes(Sample(ids[0], 1, reading)));
    OneSample(Boot(ids), 0, reading);
    assert InHand(After(Boot(ids), sampling), ids, p);
    steps := RowCarriesOn(Boot(ids), sampling, ids, p, k);
  }

  predicate AllFresh(m: State, ids: seq<byte>) {
    0 < |m.nodes| == |ids| && forall k :: 0 <= k < |ids| ==> Fresh(m.nodes[k]) && m.nodes[k].id == ids[k]
  }

  lemma FirstHears(n: Node, ad: Advert, p: Packet) returns (n': Node)
    requires Fresh(n) && FirstPacket(ad) == Some(p) && WellFormed(p) && p.CommandPacket?
    ensures n' == Heard(n, ad).0 && n'.queue == [p] && n'.held.None? && Obeys(n', p)
  {
    FreshQueues(n, ad, p);
    n' := Heard(n, ad).0;
  }

  lemma FirstTakesOn(m: State, n: Node, ids: seq<byte>, p: Packet)
    requires AllFresh(m, ids) && n.queue == [p] && n.held.None? && WellFormed(p) && p.CommandPacket? && Obeys(n, p)
    ensures InHand(Update(m, 0, n), ids, p)
  {
  }

  lemma MobileIsHeard(m: State, ids: seq<byte>, ad: Advert, p: Packet)
    requires AllFresh(m, ids) && OnAir(m, FromMobile) == Some(ad)
    requires FirstPacket(ad) == Some(p) && WellFormed(p) && p.CommandPacket?
    ensures InHand(Apply(m, Receive(0, FromMobile)), ids, p)
  {
    var n := FirstHears(m.nodes[0], ad, p);
    FirstTakesOn(m, n, ids, p);
    assert Apply(m, Receive(0, FromMobile)) == Update(m, 0, n);
  }

  lemma BroadcastOnAir(ids: seq<byte>, cmd: byte)
    requires ids != []
    ensures var m := Apply(Boot(ids), Broadcast(cmd, true));
      AllFresh(m, ids) && OnAir(m, FromMobile) == Some(BroadcastAdvert(0, cmd))
  {
  }

  lemma BroadcastIsHeard(ids: seq<byte>, cmd: byte)
    requires ids != []
    ensures CanRun(Boot(ids), [Broadcast(cmd, true), Receive(0, FromMobile)])
    ensures InHand(After(Boot(ids), [Broadcast(cmd, true), Receive(0, FromMobile)]), ids,
                   CommandPacket(CommandBytes(0, cmd)))
  {
    RelayReadsBroadcast(0, cmd);
    BroadcastOnAir(ids, cmd);
    MobileIsHeard(Apply(Boot(ids), Broadcast(cmd, true)), ids, BroadcastAdvert(0, cmd),
                  CommandPacket(CommandBytes(0, cmd)));
    TwoSteps(Boot(ids), Broadcast(cmd, true), Receive(0, FromMobile));
  }

  lemma RowCarriesOn(m: State, before: seq<Step>, ids: seq<byte>, p: Packet, k: nat) returns (steps: seq<Step>)
    requires CanRun(m, before) && AlongRow(before) && InHand(After(m, before), ids, p) && k < |ids|
    ensures CanRun(m, steps) && AlongRow(steps) && Front(After(m, steps), ids, k, p)
  {
    var sending: seq<Step>, m' := [Take(0), Send(0, true)], After(m, before);
    TakeAndSend(m', ids, p);
    CanRunJoin(m, before, sending);
    var hops := RowRelays(After(m', sending), ids, p, k);
    CanRunJoin(m, before + sending, hops);
    steps := before + sending + hops;
  }

  /**
   * A command broadcast to the first node of such a row is put on air by the last, which obeys
   * it, and relays it also in low power.
   */
  lemma CommandCrossesRow(ids: seq<byte>, cmd: byte, k: nat) returns (steps: seq<Step>)
    requires k < |ids|
    ensures CanRun(Boot(ids), steps) && AlongRow(steps)
    ensures Front(After(Boot(ids), steps), ids, k, CommandPacket(CommandBytes(0, cmd)))
  {
    BroadcastIsHeard(ids, cmd);
    BroadcastAlongRow(cmd);
    steps := RowCarriesOn(Boot(ids), [Broadcast(cmd, true), Receive(0, FromMobile)], ids,
                          CommandPacket(CommandBytes(0, cmd)), k);
  }

  lemma BroadcastAlongRow(cmd: byte)
    ensures AlongRow([Broadcast(cmd, true), Receive(0, FromMobile)])
  {
  }

  // ----- Conservation -----

  /** What happened to packets at one node. */
  datatype Tally = Tally(heard: nat, own: nat, queued: nat, dropped: nat, swallowed: nat, sent: nat, discarded: nat)

  const NOTHING := Tally(0, 0, 0, 0, 0, 0, 0)

  function ByOutcome(outcome: Outcome): Tally {
    match outcome
    case Queued => NOTHING.(queued := 1)
    case Dropped => NOTHING.(dropped := 1)
    case Swallowed => NOTHING.(swallowed := 1)
    case _ => NOTHING
  }

  function StepTally(m: State, s: Step, i: nat): Tally
    requires Enabled(m, s) && i < |m.nodes|
  {
    match s
    case DoSample(j, reading) =>
      if j == i then ByOutcome(FinishSample(m.nodes[i], reading).1).(own := 1) else NOTHING
    case Receive(j, source) =>
      if j == i then
        var outcome := Heard(m.nodes[i], OnAir(m, source).value).1;
        ByOutcome(outcome).(heard := if Accepting(outcome) then 1 else 0)
      else NOTHING
    case Take(j) =>
      if j == i && TakePacket(m.nodes[i]).held.None? then NOTHING.(discarded := 1) else NOTHING
    case Send(j, _) => if j == i then NOTHING.(sent := 1) else NOTHING
    case _ => NOTHING
  }

  function Plus(a: Tally, b: Tally): Tally {
    Tally(a.heard + b.heard, a.own + b.own, a.queued + b.queued, a.dropped + b.dropped,
          a.swallowed + b.swallowed, a.sent + b.sent, a.discarded + b.discarded)
  }

  function RunTally(m: State, steps: seq<Step>, i: nat): Tally
    requires CanRun(m, steps) && i < |m.nodes|
    decreases |steps|
  {
    if steps == [] then NOTHING
    else
      StepKeepsIds(m, steps[0], i);
      Plus(StepTally(m, steps[0], i), RunTally(Apply(m, steps[0]), steps[1..], i))
  }

  /** Packets waiting at a node: queued, or taken and about to be sent. */
  function Waiting(n: Node): nat {
    |n.queue| + if n.held.Some? then 1 else 0
  }

  function Accepted(n: Node): nat {
    |n.sensorLog| + |n.commandLog|
  }

  predicate Balanced(before: Node, t: Tally, after: Node) {
    && t.heard + t.own == t.queued + t.dropped + t.swallowed
    && Waiting(before) + t.queued == t.sent + t.discarded + Waiting(after)
    && Accepted(before) + t.heard <= Accepted(after) <= Accepted(before) + t.heard + t.own
  }

  lemma StepBalances(m: State, s: Step, i: nat)
    requires Enabled(m, s) && i < |m.nodes|
    ensures |Apply(m, s).nodes| == |m.nodes|
    ensures Balanced(m.nodes[i], StepTally(m, s, i), Apply(m, s).nodes[i])
  {
    match s
    case Receive(j, source) => HeardBalances(m.nodes[j], OnAir(m, source).value);
    case _ =>
  }

  lemma HeardBalances(n: Node, ad: Advert)
    ensures var (n', outcome) := Heard(n, ad);
      Balanced(n, ByOutcome(outcome).(heard := if Accepting(outcome) then 1 else 0), n')
  {
  }

  /**
   * Conservation at every node, over every run: each new packet heard or sampled was queued,
   * dropped on a full queue or swallowed in low power; each queued packet was sent, was
   * discarded in low power or is still waiting; and exactly the new packets entered the logs.
   */
  lemma {:induction false} NothingLost(m: State, steps: seq<Step>, i: nat)
    requires CanRun(m, steps) && i < |m.nodes|
    ensures |After(m, steps).nodes| == |m.nodes|
    ensures Balanced(m.nodes[i], RunTally(m, steps, i), After(m, steps).nodes[i])
    decreases |steps|
  {
    if steps != [] {
      StepBalances(m, steps[0], i);
      NothingLost(Apply(m, steps[0]), steps[1..], i);
    }
  }
}
