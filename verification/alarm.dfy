/**
 * The alarm: class changes, disconnections and sleep commands put commands in a queue of
 * four; the buzzer thread takes them, chirping for a warning and sounding continuously in
 * an inner loop after a poor reading until it takes a stop.
 *
 * Each producer handler is one step; the buzzer thread may run between any two steps.
 */
module Alarms {
  import opened AirQualities

  const BUZZER_QUEUE_SIZE: nat := 4

  datatype Command = Idle | ChirpWarning | SoundPoor | Stop

  /** The last recorded classes and the commands not yet taken. */
  datatype Panel = Panel(eco2: Class, tvoc: Class, queue: seq<Command>)

  /** The buzzer thread: whether it is in the inner loop, sounding, and how many warnings it has chirped. */
  datatype Buzzer = Buzzer(sounding: bool, chirps: nat)

  datatype Alarm = Alarm(panel: Panel, buzzer: Buzzer)

  const INITIAL_PANEL := Panel(Good, Good, [])
  const INITIAL_ALARM := Alarm(INITIAL_PANEL, Buzzer(false, 0))

  // ----- Producers -----

  function Put(queue: seq<Command>, c: Command): seq<Command> {
    if |queue| < BUZZER_QUEUE_SIZE then queue + [c] else queue
  }

  function PutAll(queue: seq<Command>, cs: seq<Command>): (r: seq<Command>)
    ensures |queue| <= BUZZER_QUEUE_SIZE ==> |r| <= BUZZER_QUEUE_SIZE
    decreases |cs|
  {
    if cs == [] then queue else PutAll(Put(queue, cs[0]), cs[1..])
  }

  lemma PutAllShort(queue: seq<Command>, c: Command, d: Command)
    ensures PutAll(queue, [c]) == Put(queue, c)
    ensures PutAll(queue, [c, d]) == Put(Put(queue, c), d)
  {
    assert [c, d][1..] == [d];
    assert PutAll(Put(queue, c), [d]) == PutAll(Put(Put(queue, c), d), []);
  }

  predicate AnyPoor(eco2: Class, tvoc: Class) {
    eco2 == Poor || tvoc == Poor
  }

  /** The commands a change of class gives rise to. */
  function ChangeCommands(p: Panel, eco2: Class, tvoc: Class): seq<Command> {
    if eco2 == p.eco2 && tvoc == p.tvoc then []
    else if AnyPoor(eco2, tvoc) then [SoundPoor]
    else if eco2 == Warning || tvoc == Warning then [Stop, ChirpWarning]
    else [Stop]
  }

  function Announce(p: Panel, eco2: Class, tvoc: Class): Panel {
    Panel(eco2, tvoc, PutAll(p.queue, ChangeCommands(p, eco2, tvoc)))
  }

  /** On disconnection and on a sleep command: silence the buzzer and forget the classes. */
  function Silence(p: Panel): Panel {
    Panel(Good, Good, PutAll(p.queue, [Stop]))
  }

  // ----- Consumer -----

  function Consume(b: Buzzer, c: Command): Buzzer {
    if b.sounding then b.(sounding := c != Stop)
    else match c
      case ChirpWarning => b.(chirps := b.chirps + 1)
      case SoundPoor => b.(sounding := true)
      case _ => b
  }

  function Drain(b: Buzzer, queue: seq<Command>): Buzzer
    decreases |queue|
  {
    if queue == [] then b else Drain(Consume(b, queue[0]), queue[1..])
  }

  /** The warnings that the inner loop would take, and lose. */
  function Swallowed(b: Buzzer, queue: seq<Command>): nat
    decreases |queue|
  {
    if queue == [] then 0
    else (if b.sounding && queue[0] == ChirpWarning then 1 else 0) + Swallowed(Consume(b, queue[0]), queue[1..])
  }

  function Warnings(queue: seq<Command>): nat {
    if queue == [] then 0 else (if queue[0] == ChirpWarning then 1 else 0) + Warnings(queue[1..])
  }

  class BuzzerDevice {
    var queue: seq<Command>
    var poorActive: bool
    var toneOn: bool   // the continuous 2000 Hz output
    var chirped: nat

    ghost predicate Valid()
      reads this
    {
      toneOn <==> poorActive
    }

    ghost function View(): Buzzer
      reads this
    {
      Buzzer(poorActive, chirped)
    }

    constructor ()
      ensures Valid() && View() == Buzzer(false, 0) && queue == []
    {
      queue, poorActive, toneOn, chirped := [], false, false, 0;
    }

    method PutCommand(c: Command)
      modifies this`queue
      ensures queue == Put(old(queue), c)
    {
      if |queue| < BUZZER_QUEUE_SIZE {
        queue := queue + [c];
      }
    }

    /** The inner loop of the buzzer thread, up to where it has nothing to take. */
    method PoorLoop()
      requires poorActive && toneOn
      modifies this
      ensures Valid() && (poorActive ==> queue == [])
      ensures Drain(View(), queue) == Drain(old(View()), old(queue))
      ensures |queue| <= |old(queue)|
    {
      while poorActive && queue != []
        invariant toneOn && |queue| <= |old(queue)|
        invariant Drain(View(), queue) == Drain(old(View()), old(queue))
        decreases |queue|
      {
        var inner := queue[0];
        queue := queue[1..];
        if inner == Stop {
          poorActive := false;
        }
      }
      if !poorActive {
        toneOn := false;
      }
    }

    /** The buzzer thread, from one point where it waits for a command to the next. */
    method RunThread()
      requires Valid()
      modifies this
      ensures Valid() && queue == [] && View() == Drain(old(View()), old(queue))
    {
      if poorActive {
        PoorLoop();
      }
      while !poorActive && queue != []
        invariant Valid() && (poorActive ==> queue == [])
        invariant Drain(View(), queue) == Drain(old(View()), old(queue))
        decreases |queue|
      {
        var cmd := queue[0];
        queue := queue[1..];
        match cmd {
          case ChirpWarning =>
            chirped := chirped + 1;
          case SoundPoor =>
            poorActive, toneOn := true, true;
            PoorLoop();
          case Stop =>
            toneOn := false;
          case Idle =>
        }
      }
    }
  }

  // ----- Runs -----

  datatype Step = Change(eco2: Class, tvoc: Class) | Disconnect | SleepCommand | TakeCommand

  function Apply(a: Alarm, s: Step): Alarm {
    match s
    case Change(eco2, tvoc) => a.(panel := Announce(a.panel, eco2, tvoc))
    case Disconnect => a.(panel := Silence(a.panel))
    case SleepCommand => a.(panel := Silence(a.panel))
    case TakeCommand =>
      if a.panel.queue == [] then a
      else Alarm(a.panel.(queue := a.panel.queue[1..]), Consume(a.buzzer, a.panel.queue[0]))
  }

  function After(a: Alarm, steps: seq<Step>): Alarm
    decreases |steps|
  {
    if steps == [] then a else After(Apply(a, steps[0]), steps[1..])
  }

  /** The commands a step puts, room permitting. */
  function Commands(a: Alarm, s: Step): seq<Command> {
    match s
    case Change(eco2, tvoc) => ChangeCommands(a.panel, eco2, tvoc)
    case TakeCommand => []
    case _ => [Stop]
  }

  predicate NothingDropped(a: Alarm, steps: seq<Step>)
    decreases |steps|
  {
    steps == [] ||
    (|a.panel.queue| + |Commands(a, steps[0])| <= BUZZER_QUEUE_SIZE && NothingDropped(Apply(a, steps[0]), steps[1..]))
  }

  /** What is still queued will leave the alarm on exactly when a recorded class is poor. */
  predicate Agrees(a: Alarm) {
    Drain(a.buzzer, a.panel.queue).sounding <==> AnyPoor(a.panel.eco2, a.panel.tvoc)
  }

  lemma {:induction false} DrainAppend(b: Buzzer, queue: seq<Command>, c: Command)
    ensures Drain(b, queue + [c]) == Consume(Drain(b, queue), c)
    ensures Swallowed(b, queue + [c])
         == Swallowed(b, queue) + if c == ChirpWarning && Drain(b, queue).sounding then 1 else 0
    ensures Warnings(queue + [c]) == Warnings(queue) + if c == ChirpWarning then 1 else 0
    decreases |queue|
  {
    if queue == [] {
      assert queue + [c] == [c];
    } else {
      assert (queue + [c])[1..] == queue[1..] + [c];
      DrainAppend(Consume(b, queue[0]), queue[1..], c);
    }
  }

  /** The effect of a handler on what the queue will do: only its first command matters, if it fits. */
  lemma PutAllDrains(b: Buzzer, queue: seq<Command>, cs: seq<Command>)
    requires cs == [] || cs == [SoundPoor] || cs == [Stop] || cs == [Stop, ChirpWarning]
    ensures Drain(b, PutAll(queue, cs)).sounding ==
      if |queue| >= BUZZER_QUEUE_SIZE || cs == [] then Drain(b, queue).sounding else cs[0] == SoundPoor
    ensures Swallowed(b, queue) == 0 ==> Swallowed(b, PutAll(queue, cs)) == 0
  {
    if cs != [] {
      var first := Put(queue, cs[0]);
      DrainAppend(b, queue, cs[0]);
      assert PutAll(queue, cs) == PutAll(first, cs[1..]);
      if |cs| == 2 {
        DrainAppend(b, first, cs[1]);
        assert cs[1..][1..] == [];
        assert PutAll(first, cs[1..]) == Put(first, cs[1]);
      }
    }
  }

  /** What a step asks of the alarm: it is to sound for a poor class, and to be silent after a silencing. */
  predicate Wanted(a: Alarm, s: Step) {
    match s
    case Change(eco2, tvoc) => AnyPoor(eco2, tvoc)
    case TakeCommand => AnyPoor(a.panel.eco2, a.panel.tvoc)
    case _ => false
  }

  /** The step crosses between "some class is poor" and "none is". */
  predicate Crosses(a: Alarm, s: Step) {
    Wanted(a, s) != AnyPoor(a.panel.eco2, a.panel.tvoc)
  }

  predicate Full(a: Alarm) {
    |a.panel.queue| >= BUZZER_QUEUE_SIZE
  }

  /**
   * One step, exactly: a handler that has a command to put and room for it leads to agreement,
   * even from disagreement; one with a command and no room keeps agreement, or disagreement,
   * unless it crosses; and without a command nothing changes.
   */
  lemma StepAgreesIff(a: Alarm, s: Step)
    ensures Agrees(Apply(a, s)) <==>
      if Commands(a, s) == [] then Agrees(a) else if !Full(a) then true else (Agrees(a) <==> !Crosses(a, s))
  {
    PutAllDrains(a.buzzer, a.panel.queue, Commands(a, s));
  }

  lemma StepKeepsQueue(a: Alarm, s: Step)
    requires |a.panel.queue| <= BUZZER_QUEUE_SIZE
    ensures |Apply(a, s).panel.queue| <= BUZZER_QUEUE_SIZE
  {
  }

  /** The state agrees, and so does every later one of the run. */
  predicate AlwaysAgrees(a: Alarm, steps: seq<Step>)
    decreases |steps|
  {
    Agrees(a) && (steps == [] || AlwaysAgrees(Apply(a, steps[0]), steps[1..]))
  }

  /** No step crosses while the command queue is full. */
  predicate RoomToCross(a: Alarm, steps: seq<Step>)
    decreases |steps|
  {
    steps == [] || (!(Full(a) && Crosses(a, steps[0])) && RoomToCross(Apply(a, steps[0]), steps[1..]))
  }

  /**
   * Agreement over runs, exactly. What is queued leads to the alarm being on if and only if a
   * recorded class is poor, at every point of a run, if and only if no step of the run
   * crosses between poor and not poor while four commands are waiting.
   */
  lemma {:induction false} AlwaysAgreesIff(a: Alarm, steps: seq<Step>)
    requires Agrees(a)
    ensures AlwaysAgrees(a, steps) <==> RoomToCross(a, steps)
    decreases |steps|
  {
    if steps != [] {
      StepAgreesIff(a, steps[0]);
      if Agrees(Apply(a, steps[0])) {
        AlwaysAgreesIff(Apply(a, steps[0]), steps[1..]);
      } else {
        assert !AlwaysAgrees(Apply(a, steps[0]), steps[1..]);
      }
    }
  }

  /**
   * In particular in every run of class changes, disconnections and sleep commands in which
   * no command is dropped.
   */
  lemma {:induction false} AlarmAgrees(a: Alarm, steps: seq<Step>)
    requires Agrees(a) && |a.panel.queue| <= BUZZER_QUEUE_SIZE && NothingDropped(a, steps)
    ensures AlwaysAgrees(a, steps) && Agrees(After(a, steps)) && |After(a, steps).panel.queue| <= BUZZER_QUEUE_SIZE
    decreases |steps|
  {
    if steps != [] {
      StepAgreesIff(a, steps[0]);
      StepKeepsQueue(a, steps[0]);
      AlarmAgrees(Apply(a, steps[0]), steps[1..]);
    }
  }

  /** Once the buzzer thread has caught up, the tone itself agrees with the recorded classes. */
  lemma {:induction false} CaughtUp(a: Alarm, n: nat)
    requires Agrees(a) && n >= |a.panel.queue|
    ensures var b := After(a, seq(n, _ => TakeCommand));
      b.panel == a.panel.(queue := []) && (b.buzzer.sounding <==> AnyPoor(a.panel.eco2, a.panel.tvoc))
    decreases n
  {
    if n > 0 {
      var steps: seq<Step> := seq(n, _ => TakeCommand);
      assert steps[1..] == seq(n - 1, _ => TakeCommand);
      CaughtUp(Apply(a, TakeCommand), n - 1);
    }
  }

  /**
   * No warning is ever lost to the inner loop, in any run, even one in which commands are
   * dropped for want of room: a warning only ever enters the queue behind a stop.
   */
  lemma {:induction false} NoWarningSwallowed(a: Alarm, steps: seq<Step>)
    requires Swallowed(a.buzzer, a.panel.queue) == 0
    ensures Swallowed(After(a, steps).buzzer, After(a, steps).panel.queue) == 0
    decreases |steps|
  {
    if steps != [] {
      PutAllDrains(a.buzzer, a.panel.queue, Commands(a, steps[0]));
      NoWarningSwallowed(Apply(a, steps[0]), steps[1..]);
    }
  }

  /** A change into a state with a warning and nothing poor. */
  predicate WarningChange(p: Panel, eco2: Class, tvoc: Class) {
    (eco2 != p.eco2 || tvoc != p.tvoc) && eco2 != Poor && tvoc != Poor && (eco2 == Warning || tvoc == Warning)
  }

  /** Such a change queues one warning, when there is room for it behind its stop; no other change queues any. */
  lemma ChangeWarns(p: Panel, eco2: Class, tvoc: Class)
    ensures Warnings(Announce(p, eco2, tvoc).queue)
         == Warnings(p.queue) + if WarningChange(p, eco2, tvoc) && |p.queue| <= 2 then 1 else 0
  {
    PutAllShort(p.queue, Stop, ChirpWarning);
    PutAllShort(p.queue, SoundPoor, Idle);
    DrainAppend(Buzzer(false, 0), p.queue, Stop);
    DrainAppend(Buzzer(false, 0), p.queue, SoundPoor);
    DrainAppend(Buzzer(false, 0), p.queue + [Stop], ChirpWarning);
  }

  /** The warning changes of a run that met a queue with room. */
  function WarningChanges(a: Alarm, steps: seq<Step>): nat
    decreases |steps|
  {
    if steps == [] then 0
    else
      (if steps[0].Change? && WarningChange(a.panel, steps[0].eco2, steps[0].tvoc) && |a.panel.queue| <= 2 then 1 else 0)
        + WarningChanges(Apply(a, steps[0]), steps[1..])
  }

  lemma StepWarns(a: Alarm, s: Step)
    requires Swallowed(a.buzzer, a.panel.queue) == 0
    ensures var a' := Apply(a, s);
      a'.buzzer.chirps + Warnings(a'.panel.queue)
        == a.buzzer.chirps + Warnings(a.panel.queue) + WarningChanges(a, [s])
  {
    assert [s][1..] == [];
    match s
    case Change(eco2, tvoc) => ChangeWarns(a.panel, eco2, tvoc);
    case TakeCommand =>
    case _ =>
      PutAllShort(a.panel.queue, Stop, Idle);
      DrainAppend(Buzzer(false, 0), a.panel.queue, Stop);
  }

  /**
   * Every warning is chirped once. In every run, the warnings chirped and still queued are
   * those there were and one for each change into a state with a warning and nothing poor
   * that found room for two commands; none is lost and none is made up.
   */
  lemma {:induction false} ChirpsAreWarningChanges(a: Alarm, steps: seq<Step>)
    requires Swallowed(a.buzzer, a.panel.queue) == 0
    ensures var a' := After(a, steps);
      a'.buzzer.chirps + Warnings(a'.panel.queue)
        == a.buzzer.chirps + Warnings(a.panel.queue) + WarningChanges(a, steps)
    decreases |steps|
  {
    if steps != [] {
      StepWarns(a, steps[0]);
      assert [steps[0]][1..] == [];
      NoWarningSwallowed(a, [steps[0]]);
      assert After(a, [steps[0]]) == Apply(a, steps[0]);
      ChirpsAreWarningChanges(Apply(a, steps[0]), steps[1..]);
    }
  }

  /**
   * A silencing forgets the classes: afterwards any classes but two good ones are announced
   * anew, and two good ones are not.
   */
  lemma SilenceForgets(a: Alarm, s: Step, eco2: Class, tvoc: Class)
    requires s == Disconnect || s == SleepCommand
    ensures Commands(Apply(a, s), Change(eco2, tvoc)) == [] <==> eco2 == Good && tvoc == Good
    ensures |a.panel.queue| < BUZZER_QUEUE_SIZE ==> !Drain(a.buzzer, Apply(a, s).panel.queue).sounding
  {
    PutAllDrains(a.buzzer, a.panel.queue, [Stop]);
  }

  /** So every warning in the queue will be chirped. */
  lemma {:induction false} UnswallowedChirps(b: Buzzer, queue: seq<Command>)
    ensures Drain(b, queue).chirps + Swallowed(b, queue) == b.chirps + Warnings(queue)
    decreases |queue|
  {
    if queue != [] {
      UnswallowedChirps(Consume(b, queue[0]), queue[1..]);
    }
  }

  /**
   * Such runs exist: with the buzzer thread far enough behind, a stop is dropped and the alarm
   * sounds on although both classes are good again.
   */
  lemma DroppedStop()
    ensures Agrees(INITIAL_ALARM)
    ensures var a := After(INITIAL_ALARM, [Change(Warning, Good), Change(Poor, Good), Change(Poor, Warning),
                                           Change(Good, Good)]);
      && a.panel.eco2 == Good && a.panel.tvoc == Good
      && |a.panel.queue| == BUZZER_QUEUE_SIZE && Drain(a.buzzer, a.panel.queue).sounding
  {
  }
}
