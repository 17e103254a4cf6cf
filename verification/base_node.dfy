/**
 * The base node: notifications from the mobile node are copied to a single pending slot and
 * handled by a work item, which buffers records and, at each end-of-window marker, feeds
 * the buffer to the Kalman filters, announces a change of class and clears the buffer.
 */
module BaseNodes {
  import opened Bytes
  import opened NodeNames
  import opened Packets
  import opened Tables
  import opened EnvPackets
  import opened NodeBuffers
  import opened AirQualities
  import opened Alarms

  datatype Base = Base(buffer: seq<EnvRecord>, air: Air, panel: Panel)

  const INITIAL_BASE := Base([], INITIAL_AIR, INITIAL_PANEL)

  // ----- Steps on values -----

  /** The work item's handling of one record or marker. */
  function Process(b: Base, rec: EnvRecord): (r: Base)
    requires Measuring(b.air)
    ensures Measuring(r.air)
  {
    if IsEow(rec.key) then
      var air := Feed(b.air, b.buffer);
      Base([], air, Announce(b.panel, Eco2Class(air), TvocClass(air)))
    else b.(buffer := UpsertBounded(NODE_BUFFER_MAX, b.buffer, rec))
  }

  function ProcessAll(b: Base, recs: seq<EnvRecord>): (r: Base)
    requires Measuring(b.air)
    ensures Measuring(r.air)
  {
    if recs == [] then b else Process(ProcessAll(b, recs[..|recs| - 1]), recs[|recs| - 1])
  }

  function Disconnected(b: Base): Base {
    b.(panel := Silence(b.panel))
  }

  /** The shell's sleep command, when it could be sent: silence, fresh filters, forgotten classes. */
  function SleepSent(b: Base): Base {
    b.(air := INITIAL_AIR, panel := Silence(b.panel))
  }

  // ----- The node in place -----

  class BaseNode {
    const nameLen: nat
    const nodes: NodeBuffer
    const air: AirQuality
    const buzzer: BuzzerDevice
    var lastEco2Class: Class
    var lastTvocClass: Class
    var pendingRec: Option<EnvRecord>
    var workSubmitted: bool

    ghost function Repr(): set<object>
      reads this
    {
      {this, nodes, nodes.buffer, air, air.eco2Filter, air.tvocFilter, buzzer}
    }

    ghost predicate Valid()
      reads Repr()
    {
      nodes.Valid() && air.Valid() && buzzer.Valid() && (workSubmitted ==> pendingRec.Some?)
    }

    ghost function View(): Base
      reads Repr()
      requires Valid()
    {
      Base(nodes.Contents(), air.View(), Panel(lastEco2Class, lastTvocClass, buzzer.queue))
    }

    constructor (nameLen: nat)
      ensures Valid() && fresh(Repr()) && View() == INITIAL_BASE && this.nameLen == nameLen && !workSubmitted
    {
      this.nameLen := nameLen;
      nodes := new NodeBuffer();
      air := new AirQuality();
      buzzer := new BuzzerDevice();
      lastEco2Class, lastTvocClass := Good, Good;
      pendingRec, workSubmitted := None, false;
    }

    /** A notification of another size than this node's record is ignored; otherwise the slot is overwritten. */
    method NotifyFunc(rec: EnvRecord, length: nat)
      requires Valid()
      modifies this`pendingRec, this`workSubmitted
      ensures Valid() && View() == old(View())
      ensures if length == RecordSize(nameLen) then pendingRec == Some(rec) && workSubmitted
              else pendingRec == old(pendingRec) && workSubmitted == old(workSubmitted)
    {
      if length != RecordSize(nameLen) {
        return;
      }
      pendingRec := Some(rec);
      workSubmitted := true;
    }

    method UpdateFilters()
      requires Valid()
      modifies air.eco2Filter, air.tvocFilter
      ensures Valid() && View() == old(View()).(air := Feed(old(View()).air, old(View()).buffer))
    {
      ghost var before := View();
      var n := nodes.count;
      for i := 0 to n
        invariant Valid() && nodes.Contents() == before.buffer
        invariant air.View() == Feed(before.air, before.buffer[..i])
      {
        var rec := nodes.Get(i);
        air.Update(rec.value.value.reading.eco2, rec.value.value.reading.tvoc);
        assert before.buffer[..i + 1][..i] == before.buffer[..i];
      }
      assert before.buffer[..n] == before.buffer;
    }

    method AnnounceClasses()
      requires Valid()
      modifies this`lastEco2Class, this`lastTvocClass, buzzer`queue
      ensures Valid()
      ensures var was := old(View());
        View() == was.(panel := Announce(was.panel, Eco2Class(was.air), TvocClass(was.air)))
    {
      ghost var was := View();
      var eco2Class := air.GetEco2();
      var tvocClass := air.GetTvoc();
      if eco2Class != lastEco2Class || tvocClass != lastTvocClass {
        PutAllShort(buzzer.queue, SoundPoor, Idle);
        PutAllShort(buzzer.queue, Stop, ChirpWarning);
        if eco2Class == Poor || tvocClass == Poor {
          buzzer.PutCommand(SoundPoor);
        } else if eco2Class == Warning || tvocClass == Warning {
          buzzer.PutCommand(Stop);
          buzzer.PutCommand(ChirpWarning);
        } else {
          buzzer.PutCommand(Stop);
        }
        lastEco2Class := eco2Class;
        lastTvocClass := tvocClass;
      }
    }

    method NotifyWork()
      requires Valid()
      modifies Repr()
      ensures Valid() && !workSubmitted && pendingRec == old(pendingRec)
      ensures View() == if old(workSubmitted) then Process(old(View()), old(pendingRec).value) else old(View())
    {
      if !workSubmitted {
        return;
      }
      workSubmitted := false;
      var rec := pendingRec.value;
      if IsEow(rec.key) {
        UpdateFilters();
        AnnounceClasses();
        nodes.Clear();
      } else {
        nodes.Add(rec);
      }
    }

    method ResetClassification()
      requires Valid()
      modifies this`lastEco2Class, this`lastTvocClass
      ensures Valid() && View() == old(View()).(panel := Panel(Good, Good, old(buzzer.queue)))
    {
      lastEco2Class := Good;
      lastTvocClass := Good;
    }

    method OnDisconnected()
      requires Valid()
      modifies this`lastEco2Class, this`lastTvocClass, buzzer`queue
      ensures Valid() && View() == Disconnected(old(View()))
    {
      buzzer.PutCommand(Stop);
      ResetClassification();
    }

    /** `sent` is whether the node is connected and the command could be written. */
    method CmdSleep(sent: bool)
      requires Valid()
      modifies Repr()
      ensures Valid() && View() == if sent then SleepSent(old(View())) else old(View())
      ensures pendingRec == old(pendingRec) && workSubmitted == old(workSubmitted)
    {
      if !sent {
        return;
      }
      buzzer.PutCommand(Stop);
      air.Reset();
      ResetClassification();
    }
  }

  // ----- The base node drives the alarm machine -----

  /** An end-of-window marker is a class change of the alarm machine; a record leaves the alarm alone. */
  lemma EowIsChange(b: Base, buzzer: Alarms.Buzzer, rec: EnvRecord)
    requires Measuring(b.air)
    ensures var after := Process(b, rec);
      Alarm(after.panel, buzzer) ==
        if IsEow(rec.key) then Apply(Alarm(b.panel, buzzer), Change(Eco2Class(after.air), TvocClass(after.air)))
        else Alarm(b.panel, buzzer)
    ensures IsEow(rec.key) ==>
      var after := Process(b, rec);
      after.panel.eco2 == Eco2Class(after.air) && after.panel.tvoc == TvocClass(after.air)
  {
  }

  /**
   * A sent sleep command makes the filters start over: whatever is received afterwards, they
   * are what they would be on a node that has just booted with the same buffer. A
   * disconnection leaves them, and the buffer, as they are.
   */
  lemma {:induction false} SleepStartsOver(b: Base, recs: seq<EnvRecord>)
    requires Measuring(b.air)
    ensures Measuring(INITIAL_AIR)
    ensures ProcessAll(SleepSent(b), recs).air == ProcessAll(Base(b.buffer, INITIAL_AIR, INITIAL_PANEL), recs).air
    ensures ProcessAll(SleepSent(b), recs).buffer == ProcessAll(Base(b.buffer, INITIAL_AIR, INITIAL_PANEL), recs).buffer
    ensures ProcessAll(Disconnected(b), recs).air == ProcessAll(b, recs).air
    ensures ProcessAll(Disconnected(b), recs).buffer == ProcessAll(b, recs).buffer
  {
    InitialMeasuring();
    if recs != [] {
      SleepStartsOver(b, recs[..|recs| - 1]);
    }
  }

  /** As checked in, the two nodes lay out the record differently, and no notification passes the size guard. */
  lemma HeadersDisagree()
    ensures RecordSize(MOBILE_NAME_LEN) == 24 && RecordSize(BASE_NAME_LEN) == 20
  {
  }

  /**
   * A record passes the guard exactly when sender and receiver agree on where its readings
   * are, although they may still disagree on the length of the name.
   */
  lemma LayoutsAgreeIff(sender: nat, receiver: nat)
    ensures RecordSize(sender) == RecordSize(receiver) <==> ReadingsOffset(sender) == ReadingsOffset(receiver)
    ensures RecordSize(sender) == RecordSize(receiver) <==> (sender + 3) / 4 == (receiver + 3) / 4
  {
  }

  // ----- The single pending slot -----

  datatype Event = Notified(rec: EnvRecord) | WorkRuns

  datatype Slot = Slot(base: Base, pending: Option<EnvRecord>)

  function HandleEvent(s: Slot, e: Event): (r: Slot)
    requires Measuring(s.base.air)
    ensures Measuring(r.base.air)
  {
    match e
    case Notified(rec) => s.(pending := Some(rec))
    case WorkRuns => if s.pending.Some? then Slot(Process(s.base, s.pending.value), None) else s
  }

  function HandleAll(s: Slot, events: seq<Event>): (r: Slot)
    requires Measuring(s.base.air)
    ensures Measuring(r.base.air)
  {
    if events == [] then s else HandleEvent(HandleAll(s, events[..|events| - 1]), events[|events| - 1])
  }

  /** The notifications that the work item sees: the last one before each time it runs. */
  function Survivors(events: seq<Event>): (seq<EnvRecord>, Option<EnvRecord>) {
    if events == [] then ([], None)
    else
      var (done, waiting) := Survivors(events[..|events| - 1]);
      match events[|events| - 1]
      case Notified(rec) => (done, Some(rec))
      case WorkRuns => if waiting.Some? then (done + [waiting.value], None) else (done, None)
  }

  function Notifications(events: seq<Event>): seq<EnvRecord> {
    if events == [] then []
    else
      var before := Notifications(events[..|events| - 1]);
      match events[|events| - 1]
      case Notified(rec) => before + [rec]
      case WorkRuns => before
  }

  /** The work item runs between any two notifications. */
  predicate Spaced(events: seq<Event>) {
    forall i :: 0 <= i < |events| - 1 && events[i].Notified? ==> events[i + 1].WorkRuns?
  }

  lemma {:induction false} SlotKeepsSurvivors(b: Base, events: seq<Event>)
    requires Measuring(b.air)
    ensures HandleAll(Slot(b, None), events) == Slot(ProcessAll(b, Survivors(events).0), Survivors(events).1)
  {
    if events != [] {
      SlotKeepsSurvivors(b, events[..|events| - 1]);
      var (done, waiting) := Survivors(events[..|events| - 1]);
      if events[|events| - 1].WorkRuns? && waiting.Some? {
        assert (done + [waiting.value])[..|done|] == done;
      }
    }
  }

  function Pending(waiting: Option<EnvRecord>): seq<EnvRecord> {
    if waiting.Some? then [waiting.value] else []
  }

  /** What the work item has seen and what it will see next. */
  function Seen(events: seq<Event>): seq<EnvRecord> {
    Survivors(events).0 + Pending(Survivors(events).1)
  }

  lemma {:induction false} SeenAtMost(events: seq<Event>)
    ensures Spaced(events) ==> Seen(events) == Notifications(events)
    ensures !Spaced(events) ==> |Seen(events)| < |Notifications(events)|
    ensures Survivors(events).1.Some? <==> events != [] && events[|events| - 1].Notified?
  {
    if events != [] {
      var before := events[..|events| - 1];
      SeenAtMost(before);
      assert Spaced(events) <==> Spaced(before) && (before != [] && before[|before| - 1].Notified? ==> events[|before|].WorkRuns?) by {
        SpacedSnoc(before, events[|before|]);
        assert before + [events[|before|]] == events;
      }
    }
  }

  lemma SpacedSnoc(before: seq<Event>, e: Event)
    ensures Spaced(before + [e])
       <==> Spaced(before) && (before != [] && before[|before| - 1].Notified? ==> e.WorkRuns?)
  {
    var all := before + [e];
    if Spaced(all) {
      forall i | 0 <= i < |before| - 1 && before[i].Notified?
        ensures before[i + 1].WorkRuns?
      {
        assert all[i] == before[i] && all[i + 1] == before[i + 1];
      }
      if before != [] {
        assert all[|before| - 1] == before[|before| - 1] && all[|before|] == e;
      }
    }
  }

  /**
   * The single slot. The base node processes exactly the last notification before each run
   * of the work item; it processes every notification if and only if the work item runs
   * between any two of them.
   */
  lemma SlotIsLosslessIff(b: Base, events: seq<Event>)
    requires Measuring(b.air)
    ensures HandleAll(Slot(b, None), events).base == ProcessAll(b, Survivors(events).0)
    ensures Seen(events) == Notifications(events) <==> Spaced(events)
  {
    SlotKeepsSurvivors(b, events);
    SeenAtMost(events);
  }
}
