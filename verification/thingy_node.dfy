/**
 * One Thingy:52 flooding node: the receive callback, the sampling thread, the flooding
 * thread and the advertising state they share.
 *
 * `Node` is the node's state as a value and each step is a function on it; the class
 * `ThingyNode` performs the same steps in place, on its rings, its queue and its flags.
 * Threads are interleaved at the points where the firmware blocks: sampling and flooding
 * are each two steps, because the mode may change between the mode check and the effect.
 */
module ThingyNodes {
  import opened Bytes
  import opened Packets
  import opened SeenRings

  const FLOOD_QUEUE_SIZE: nat := 12

  datatype Mode = Normal | LowPower

  type SensorKey = (byte, byte)
  type CommandKey = (byte, byte)

  datatype Node = Node(
    id: byte,
    seqno: byte,
    mode: Mode,
    suspended: bool,
    sensorLog: seq<SensorKey>,
    commandLog: seq<CommandKey>,
    queue: seq<Packet>,
    sampling: bool,
    held: Option<Packet>,
    onAir: Option<Packet>)

  /** What became of an offered packet: the branch the receive callback or the sampler took. */
  datatype Outcome = NoPacket | OwnEcho | Duplicate | Swallowed | Queued | Dropped

  function InitialNode(id: byte): Node {
    Node(id, 0, Normal, false, [], [], [], false, None, None)
  }

  // ----- Keys and modes -----

  function SensorKeyOf(p: Packet): SensorKey
    requires |p.data| >= 4
  {
    (p.data[2], p.data[3])
  }

  predicate KnownCommand(cmd: byte) {
    cmd == CMD_SLEEP || cmd == CMD_MEASURE
  }

  /** The mode after handling a command; unknown commands change nothing. */
  function ModeAfter(mode: Mode, cmd: byte): Mode {
    if cmd == CMD_SLEEP then LowPower
    else if cmd == CMD_MEASURE then Normal
    else mode
  }

  /** Handling a command: the mode is set, and a measure command also resumes the sensors. */
  function Commanded(n: Node, cmd: byte): Node {
    n.(mode := ModeAfter(n.mode, cmd), suspended := n.suspended && cmd != CMD_MEASURE)
  }

  /** The mode a log of accepted commands leads to, starting from normal operation. */
  function ModeOfLog(log: seq<CommandKey>): Mode {
    if log == [] then Normal else ModeAfter(ModeOfLog(log[..|log| - 1]), log[|log| - 1].1)
  }

  // ----- Steps on values -----

  function Enqueue(n: Node, p: Packet): (Node, Outcome) {
    if |n.queue| < FLOOD_QUEUE_SIZE then (n.(queue := n.queue + [p]), Queued) else (n, Dropped)
  }

  function HeardSensor(n: Node, p: Packet): (Node, Outcome)
    requires |p.data| >= 4
  {
    var key := SensorKeyOf(p);
    if key.0 == n.id then (n, OwnEcho)
    else if key in Window(n.sensorLog) then (n, Duplicate)
    else
      var seen := n.(sensorLog := n.sensorLog + [key]);
      if seen.mode != Normal then (seen, Swallowed) else Enqueue(seen, p)
  }

  function HeardCommand(n: Node, p: Packet): (Node, Outcome)
    requires |p.data| >= 4
  {
    var key := (p.data[2], p.data[3]);
    if key in Window(n.commandLog) then (n, Duplicate)
    else
      var (queued, outcome) := Enqueue(n.(commandLog := n.commandLog + [key]), p);
      (Commanded(queued, key.1), outcome)
  }

  function Heard(n: Node, ad: Advert): (Node, Outcome) {
    match FirstPacket(ad)
    case None => (n, NoPacket)
    case Some(p) => if p.SensorPacket? then HeardSensor(n, p) else HeardCommand(n, p)
  }

  /** The reading sent for a sample; a sensor that cannot be read is reported by sentinels. */
  function ReadingOf(climate: Option<(i16, u16)>, gas: Option<(u16, u16)>): Reading {
    Reading(if climate.Some? then climate.value.0 else -0x8000,
            if climate.Some? then climate.value.1 else 0xFFFF,
            if gas.Some? then gas.value.0 else 0xFFFF,
            if gas.Some? then gas.value.1 else 0xFFFF)
  }

  /** A sample is begun in normal mode only, with the sensors resumed. */
  function StartSample(n: Node): Node {
    n.(sampling := n.mode == Normal, suspended := n.suspended && n.mode != Normal)
  }

  function SampleTaken(n: Node, reading: Reading): Sample {
    Sample(n.id, (n.seqno + 1) % 0x100, reading)
  }

  function FinishSample(n: Node, reading: Reading): (Node, Outcome) {
    var sample := SampleTaken(n, reading);
    Enqueue(n.(seqno := sample.seqno, sampling := false,
               sensorLog := Accept(n.sensorLog, (n.id, sample.seqno))),
            SensorPacket(SensorBytes(sample)))
  }

  /** The flooding thread takes the oldest packet; in low power it discards sensor packets. */
  function TakePacket(n: Node): Node
    requires n.queue != []
  {
    var p := n.queue[0];
    n.(queue := n.queue[1..],
       held := if p.SensorPacket? && n.mode != Normal then None else Some(p))
  }

  /** It then starts or updates advertising, which may fail. */
  function SendHeld(n: Node, succeeds: bool): Node
    requires n.held.Some?
  {
    n.(held := None, onAir := if succeeds then n.held else n.onAir)
  }

  function StopAdvertising(n: Node, succeeds: bool): Node {
    n.(onAir := if succeeds then None else n.onAir)
  }

  // ----- The node in place -----

  class ThingyNode {
    const id: byte
    const seenSensors: SeenRing<SensorKey>
    const seenCommands: SeenRing<CommandKey>
    var seqno: byte
    var mode: Mode
    var queue: seq<Packet>
    var sensorsSuspended: bool
    var sampling: bool
    var held: Option<Packet>
    var advRunning: bool
    var onAir: Option<Packet>  // what the controller is transmitting

    ghost function Repr(): set<object>
      reads this
    {
      {this, seenSensors, seenSensors.cache, seenCommands, seenCommands.cache}
    }

    /** The advertising flag mirrors the controller, even though starting and stopping may fail. */
    ghost predicate Valid()
      reads Repr()
    {
      && seenSensors != seenCommands && seenSensors.cache != seenCommands.cache
      && seenSensors.Valid() && seenCommands.Valid()
      && (advRunning <==> onAir.Some?)
    }

    ghost function View(): Node
      reads Repr()
    {
      Node(id, seqno, mode, sensorsSuspended, seenSensors.log, seenCommands.log, queue, sampling, held, onAir)
    }

    constructor (id: byte)
      ensures Valid() && fresh(Repr()) && View() == InitialNode(id)
    {
      this.id := id;
      seenSensors := new SeenRing<SensorKey>();
      seenCommands := new SeenRing<CommandKey>();
      seqno, mode, queue, sampling, held := 0, Normal, [], false, None;
      sensorsSuspended := false;
      advRunning, onAir := false, None;
    }

    method Put(p: Packet) returns (outcome: Outcome)
      requires Valid()
      modifies this`queue
      ensures Valid() && (View(), outcome) == Enqueue(old(View()), p)
    {
      if |queue| < FLOOD_QUEUE_SIZE {
        queue := queue + [p];
        return Queued;
      }
      return Dropped;
    }

    method SuspendSensors()
      requires Valid()
      modifies this`sensorsSuspended
      ensures Valid() && View() == old(View()).(suspended := true)
    {
      if !sensorsSuspended {
        sensorsSuspended := true;
      }
    }

    method ResumeSensors()
      requires Valid()
      modifies this`sensorsSuspended
      ensures Valid() && View() == old(View()).(suspended := false)
    {
      if sensorsSuspended {
        sensorsSuspended := false;
      }
    }

    method HandleCommand(cmd: byte)
      requires Valid()
      modifies this`mode, this`sensorsSuspended
      ensures Valid() && View() == Commanded(old(View()), cmd)
    {
      if cmd == CMD_SLEEP {
        mode := LowPower;
      } else if cmd == CMD_MEASURE {
        mode := Normal;
        ResumeSensors();
      }
    }

    method DeviceFound(ad: Advert) returns (outcome: Outcome)
      requires Valid()
      modifies Repr()
      ensures Valid() && (View(), outcome) == Heard(old(View()), ad)
    {
      var found := ParseFloodAdvert(ad);
      if found.None? {
        return NoPacket;
      }
      var p := found.value;
      if p.SensorPacket? {
        if p.data[2] == id {
          return OwnEcho;
        }
        var alreadySeen := seenSensors.CheckAndAdd((p.data[2], p.data[3]));
        if alreadySeen {
          return Duplicate;
        }
        if mode != Normal {
          return Swallowed;
        }
        outcome := Put(p);
      } else {
        var alreadySeen := seenCommands.CheckAndAdd((p.data[2], p.data[3]));
        if alreadySeen {
          return Duplicate;
        }
        outcome := Put(p);
        HandleCommand(p.data[3]);
      }
    }

    method SensorThreadWakes()
      requires Valid()
      modifies this`sampling, this`sensorsSuspended
      ensures Valid() && View() == StartSample(old(View()))
    {
      if mode != Normal {
        sampling := false;
        return;
      }
      ResumeSensors();
      sampling := true;
    }

    method SensorThreadSamples(climate: Option<(i16, u16)>, gas: Option<(u16, u16)>) returns (outcome: Outcome)
      requires Valid()
      modifies Repr()
      ensures Valid() && (View(), outcome) == FinishSample(old(View()), ReadingOf(climate, gas))
    {
      var temp: i16, hum: u16, eco2: u16, tvoc: u16 := 0, 0, 0, 0;
      if climate.Some? {
        temp, hum := climate.value.0, climate.value.1;
      } else {
        temp, hum := -0x8000, 0xFFFF;
      }
      if gas.Some? {
        eco2, tvoc := gas.value.0, gas.value.1;
      } else {
        eco2, tvoc := 0xFFFF, 0xFFFF;
      }
      seqno := (seqno + 1) % 0x100;
      var p := OwnPacket(temp, hum, eco2, tvoc);
      var _ := seenSensors.CheckAndAdd((id, seqno));
      sampling := false;
      outcome := Put(p);
    }

    method OwnPacket(temp: i16, hum: u16, eco2: u16, tvoc: u16) returns (p: Packet)
      ensures p == SensorPacket(SensorBytes(Sample(id, seqno, Reading(temp, hum, eco2, tvoc))))
    {
      var data := new byte[SENSOR_PACKET_LEN](_ => 0);
      EncodeSensorPacket(data, id, seqno, temp, hum, eco2, tvoc);
      p := SensorPacket(data[..]);
    }

    method FloodThreadTakes() returns (taken: bool)
      requires Valid()
      modifies this`queue, this`held
      ensures Valid() && (taken <==> old(queue) != [])
      ensures View() == if taken then TakePacket(old(View())) else old(View())
    {
      if queue == [] {
        return false;
      }
      var p := queue[0];
      queue := queue[1..];
      held := if p.SensorPacket? && mode != Normal then None else Some(p);
      return true;
    }

    /** `ok` is the result of the controller call that starts or updates advertising. */
    method FloodThreadSends(ok: bool)
      requires Valid() && held.Some?
      modifies this`held, this`advRunning, this`onAir
      ensures Valid() && View() == SendHeld(old(View()), ok)
    {
      if advRunning {
        if ok {
          onAir := held;
        }
      } else if ok {
        onAir := held;
        advRunning := true;
      }
      held := None;
    }

    /** `ok` is the result of the controller call that stops advertising. */
    method StopAdvertisingIfRunning(ok: bool)
      requires Valid()
      modifies this`advRunning, this`onAir
      ensures Valid() && View() == StopAdvertising(old(View()), ok)
    {
      if advRunning && ok {
        onAir := None;
        advRunning := false;
      }
    }
  }

  // ----- Laws of one node -----

  /** A sensor packet that is new to a node: of another origin, and not among the last 32 keys accepted. */
  predicate NewSensor(n: Node, p: Packet) {
    p.SensorPacket? && |p.data| == SENSOR_PACKET_LEN && p.data[2] != n.id
    && (p.data[2], p.data[3]) !in Window(n.sensorLog)
  }

  predicate NewCommand(n: Node, p: Packet) {
    p.CommandPacket? && |p.data| == COMMAND_PACKET_LEN && (p.data[2], p.data[3]) !in Window(n.commandLog)
  }

  /**
   * What becomes of a sensor packet: a new one is swallowed exactly in low power, and in normal
   * mode it is relayed, behind what is already queued, unless twelve packets are waiting.
   * Others change nothing.
   */
  lemma HearingSensor(n: Node, ad: Advert, p: Packet)
    requires FirstPacket(ad) == Some(p) && p.SensorPacket?
    ensures var (n', outcome) := Heard(n, ad);
      if NewSensor(n, p) then
        && (outcome == Swallowed <==> n.mode == LowPower)
        && (outcome == Dropped <==> n.mode == Normal && |n.queue| >= 12)
        && (outcome == Queued <==> n.mode == Normal && |n.queue| < 12)
        && n'.queue == n.queue + (if outcome == Queued then [p] else [])
        && n'.sensorLog == n.sensorLog + [(p.data[2], p.data[3])]
        && n' == n.(queue := n'.queue, sensorLog := n'.sensorLog)
      else n' == n && (outcome == OwnEcho || outcome == Duplicate)
  {
  }

  /**
   * What becomes of a command: a new one is relayed unless twelve packets are waiting, in
   * either mode, and is obeyed even then. Sleep leads to low power; measure leads to normal
   * mode with the sensors resumed; others change neither. Repeats change nothing.
   */
  lemma HearingCommand(n: Node, ad: Advert, p: Packet)
    requires FirstPacket(ad) == Some(p) && p.CommandPacket?
    ensures var (n', outcome) := Heard(n, ad);
      if NewCommand(n, p) then
        && outcome == (if |n.queue| < 12 then Queued else Dropped)
        && n'.queue == n.queue + (if |n.queue| < 12 then [p] else [])
        && n'.commandLog == n.commandLog + [(p.data[2], p.data[3])]
        && (p.data[3] == CMD_SLEEP ==> n'.mode == LowPower && n'.suspended == n.suspended)
        && (p.data[3] == CMD_MEASURE ==> n'.mode == Normal && !n'.suspended)
        && (p.data[3] != CMD_SLEEP && p.data[3] != CMD_MEASURE ==> n'.mode == n.mode && n'.suspended == n.suspended)
        && n' == n.(queue := n'.queue, commandLog := n'.commandLog, mode := n'.mode, suspended := n'.suspended)
      else n' == n && outcome == Duplicate
  {
  }

  /** A sensor that could not be read is reported by its sentinels, without disturbing the other. */
  lemma ReadingWithSentinels(climate: Option<(i16, u16)>, gas: Option<(u16, u16)>)
    ensures var r := ReadingOf(climate, gas);
      && r.temp == (if climate.None? then -32768 else climate.value.0)
      && r.hum == (if climate.None? then 65535 else climate.value.1)
      && r.eco2 == (if gas.None? then 65535 else gas.value.0)
      && r.tvoc == (if gas.None? then 65535 else gas.value.1)
  {
  }

  /** Whatever is on air, forged or genuine, a node never queues a packet of its own origin. */
  lemma NoSelfRelay(n: Node, ad: Advert)
    ensures var after := Heard(n, ad).0;
      after.queue == n.queue
      || exists p :: after.queue == n.queue + [p] && (p.SensorPacket? ==> |p.data| == SENSOR_PACKET_LEN && p.data[2] != n.id)
  {
    var after := Heard(n, ad).0;
    if after.queue != n.queue {
      var p := FirstPacket(ad).value;
      assert after.queue == n.queue + [p];
    }
  }
}
