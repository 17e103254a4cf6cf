/**
 * The scan thread of a Thingy:52 node: its `scan_running` flag against the controller it
 * commands, when starting and stopping may fail and the mode may change at every sleep.
 */
module ScanThreads {
  import opened ThingyNodes

  /** A call to the controller and its result. */
  datatype Call = Start(ok: bool) | Stop(ok: bool)

  /** What else the thread does: it sleeps, or asks for advertising to stop or for the sensors to be switched. */
  datatype Action = NormalSecond | LowPowerSleep | ListenPeriod | StopAdvertising | SuspendSensors | ResumeSensors

  /** An action of the thread, with the number of calls made before it. */
  datatype Mark = Mark(action: Action, at: nat)

  datatype Trace = Trace(calls: seq<Call>, marks: seq<Mark>)

  /**
   * What one iteration of the thread meets: the mode each time it is read, and the results of
   * the call at the loop head, of the start before listening and of the stop after it.
   */
  datatype Round = Round(head: Mode, woken: Mode, listened: Mode, headOk: bool, listenOk: bool, stopOk: bool)

  /** Whether the controller scans after these calls; a failed call has no effect. */
  predicate Scanning(calls: seq<Call>) {
    calls != [] &&
    var before := Scanning(calls[..|calls| - 1]);
    match calls[|calls| - 1]
    case Start(ok) => ok || before
    case Stop(ok) => before && !ok
  }

  predicate LastStopFailed(calls: seq<Call>) {
    calls != [] && calls[|calls| - 1] == Stop(false)
  }

  predicate LastStartFailed(calls: seq<Call>) {
    calls != [] && calls[|calls| - 1] == Start(false)
  }

  function Asked(t: Trace, call: Call): Trace {
    t.(calls := t.calls + [call])
  }

  function Did(t: Trace, action: Action): Trace {
    t.(marks := t.marks + [Mark(action, |t.calls|)])
  }

  // ----- One iteration on values -----

  function NormalRound(t: Trace, ok: bool): Trace {
    Did(if Scanning(t.calls) then t else Asked(t, Start(ok)), NormalSecond)
  }

  function FallAsleep(t: Trace, ok: bool): Trace {
    var stopped := if Scanning(t.calls) then Asked(t, Stop(ok)) else t;
    Did(Did(Did(stopped, StopAdvertising), SuspendSensors), LowPowerSleep)
  }

  function Listen(t: Trace, ok: bool): Trace {
    Did(Asked(t, Start(ok)), ListenPeriod)
  }

  function StopListening(t: Trace, ok: bool): Trace {
    if Scanning(t.calls) then Asked(t, Stop(ok)) else t
  }

  function After(t: Trace, r: Round): Trace {
    if r.head == Normal then NormalRound(t, r.headOk)
    else
      var asleep := FallAsleep(t, r.headOk);
      if r.woken == Normal then Did(asleep, ResumeSensors)
      else
        var listening := Listen(asleep, r.listenOk);
        if r.listened == LowPower then StopListening(listening, r.stopOk) else listening
  }

  function Run(rounds: seq<Round>): Trace {
    if rounds == [] then Trace([], []) else After(Run(rounds[..|rounds| - 1]), rounds[|rounds| - 1])
  }

  // ----- The thread in place -----

  class ScanThread {
    var scanRunning: bool
    var scanning: bool  // the controller's own state
    ghost var trace: Trace

    /** The flag mirrors the controller. */
    ghost predicate Valid()
      reads this
    {
      scanRunning == scanning == Scanning(trace.calls)
    }

    constructor ()
      ensures Valid() && trace == Run([])
    {
      scanRunning, scanning := false, false;
      trace := Trace([], []);
    }

    /** The controller obeys, or fails without effect. */
    method StartFastScan(ok: bool)
      requires scanning == Scanning(trace.calls)
      modifies this`scanning, this`trace
      ensures scanning == Scanning(trace.calls) == (ok || old(scanning))
      ensures trace == Asked(old(trace), Start(ok))
    {
      if ok {
        scanning := true;
      }
      trace := Asked(trace, Start(ok));
      assert trace.calls[..|trace.calls| - 1] == old(trace.calls);
    }

    method StopScan(ok: bool)
      requires scanning == Scanning(trace.calls)
      modifies this`scanning, this`trace
      ensures scanning == Scanning(trace.calls) == (old(scanning) && !ok)
      ensures trace == Asked(old(trace), Stop(ok))
    {
      if ok {
        scanning := false;
      }
      trace := Asked(trace, Stop(ok));
      assert trace.calls[..|trace.calls| - 1] == old(trace.calls);
    }

    /** The normal branch of the thread's loop. */
    method ScanInNormal(ok: bool)
      requires Valid()
      modifies this
      ensures Valid() && trace == NormalRound(old(trace), ok)
    {
      if !scanRunning {
        StartFastScan(ok);
        if ok {
          scanRunning := true;
        }
      }
      trace := Did(trace, NormalSecond);
    }

    /** The low-power branch, up to the end of the sleep. */
    method SleepInLowPower(ok: bool)
      requires Valid()
      modifies this
      ensures Valid() && trace == FallAsleep(old(trace), ok)
    {
      if scanRunning {
        StopScan(ok);
        if ok {
          scanRunning := false;
        }
      }
      trace := Did(trace, StopAdvertising);
      trace := Did(trace, SuspendSensors);
      trace := Did(trace, LowPowerSleep);
    }

    /** It then listens for a wake command. */
    method ListenInLowPower(ok: bool)
      requires Valid()
      modifies this
      ensures Valid() && trace == Listen(old(trace), ok)
    {
      StartFastScan(ok);
      if ok {
        scanRunning := true;
      }
      trace := Did(trace, ListenPeriod);
    }

    method StopAfterListening(ok: bool)
      requires Valid()
      modifies this
      ensures Valid() && trace == StopListening(old(trace), ok)
    {
      if scanRunning {
        StopScan(ok);
        if ok {
          scanRunning := false;
        }
      }
    }

    /** One iteration of the thread's loop. */
    method Iterate(r: Round)
      requires Valid()
      modifies this
      ensures Valid() && trace == After(old(trace), r)
    {
      if r.head == Normal {
        ScanInNormal(r.headOk);
      } else {
        SleepInLowPower(r.headOk);
        if r.woken == Normal {
          trace := Did(trace, ResumeSensors);
        } else {
          ListenInLowPower(r.listenOk);
          if r.listened == LowPower {
            StopAfterListening(r.stopOk);
          }
        }
      }
    }
  }

  // ----- What holds of every run -----

  /**
   * A stop is asked only of a running scan, and a start of a running scan only directly after
   * a stop that failed.
   */
  predicate SoundCall(calls: seq<Call>, i: nat)
    requires i < |calls|
  {
    if calls[i].Stop? then Scanning(calls[..i])
    else Scanning(calls[..i]) <==> LastStopFailed(calls[..i])
  }

  predicate IsSleep(action: Action) {
    action == NormalSecond || action == LowPowerSleep || action == ListenPeriod
  }

  /**
   * The low-power sleep is entered scanning exactly when the stop before it failed. In the
   * other sleeps the controller scans, unless the start before it failed and did not follow a
   * failed stop.
   */
  predicate SoundMark(calls: seq<Call>, mark: Mark)
    requires mark.at <= |calls|
  {
    var before := calls[..mark.at];
    if mark.action == LowPowerSleep then Scanning(before) <==> LastStopFailed(before)
    else IsSleep(mark.action) ==>
      (Scanning(before) <==> !(LastStartFailed(before) && !LastStopFailed(before[..|before| - 1])))
  }

  /**
   * Before the low-power sleep advertising was stopped and the sensors were suspended, and the
   * thread resumes the sensors only straight after that sleep.
   */
  predicate InOrder(marks: seq<Mark>, k: nat)
    requires k < |marks|
  {
    match marks[k].action
    case LowPowerSleep => k >= 2 && marks[k - 1].action == SuspendSensors && marks[k - 2].action == StopAdvertising
    case ResumeSensors => k >= 1 && marks[k - 1].action == LowPowerSleep
    case _ => true
  }

  ghost predicate Sound(t: Trace) {
    && (forall i {:trigger SoundCall(t.calls, i)} :: 0 <= i < |t.calls| ==> SoundCall(t.calls, i))
    && (forall n :: n in t.marks ==> n.at <= |t.calls| && SoundMark(t.calls, n))
    && (forall k {:trigger InOrder(t.marks, k)} :: 0 <= k < |t.marks| ==> InOrder(t.marks, k))
  }

  lemma AskScans(t: Trace, call: Call)
    ensures Scanning(Asked(t, call).calls) <==>
      if call.Start? then call.ok || Scanning(t.calls) else Scanning(t.calls) && !call.ok
  {
    var calls := Asked(t, call).calls;
    assert calls[..|calls| - 1] == t.calls;
  }

  lemma {:induction false} AskKeeps(t: Trace, call: Call)
    requires Sound(t)
    requires call.Stop? ==> Scanning(t.calls)
    requires call.Start? && Scanning(t.calls) ==> LastStopFailed(t.calls)
    ensures Sound(Asked(t, call))
  {
    var calls := Asked(t, call).calls;
    if LastStopFailed(t.calls) {
      FailedStopScans(t);
    }
    assert calls[..|t.calls|] == t.calls;
    forall i | 0 <= i < |calls| ensures SoundCall(calls, i) {
      if i < |t.calls| {
        assert SoundCall(t.calls, i) && calls[..i] == t.calls[..i];
      }
    }
    forall n | n in t.marks ensures n.at <= |calls| && SoundMark(calls, n) {
      assert calls[..n.at] == t.calls[..n.at];
    }
  }

  /** A stop that failed was asked of a running scan, which therefore still runs. */
  lemma FailedStopScans(t: Trace)
    requires Sound(t) && LastStopFailed(t.calls)
    ensures Scanning(t.calls)
  {
    assert SoundCall(t.calls, |t.calls| - 1);
  }

  lemma MarkKeeps(t: Trace, action: Action)
    requires Sound(t) && SoundMark(t.calls, Mark(action, |t.calls|))
    requires InOrder(Did(t, action).marks, |t.marks|)
    ensures Sound(Did(t, action))
  {
    var marks := Did(t, action).marks;
    forall k | 0 <= k < |marks|
      ensures InOrder(marks, k)
    {
      if k < |t.marks| {
        assert InOrder(t.marks, k);
      }
    }
  }

  lemma AwakeSound(t: Trace, pause: Action)
    requires Sound(t) && (pause == NormalSecond || pause == ListenPeriod)
    requires Scanning(t.calls) || (t.calls != [] && t.calls[|t.calls| - 1].Start?)
    ensures Sound(Did(t, pause))
  {
    assert t.calls[..|t.calls|] == t.calls;
    assert SoundCall(t.calls, |t.calls| - 1);
    MarkKeeps(t, pause);
  }

  lemma FallAsleepKeeps(t: Trace, ok: bool)
    requires Sound(t)
    ensures Sound(FallAsleep(t, ok)) && Sound(Did(FallAsleep(t, ok), ResumeSensors))
    ensures Scanning(FallAsleep(t, ok).calls) ==> LastStopFailed(FallAsleep(t, ok).calls)
  {
    AskScans(t, Stop(ok));
    if Scanning(t.calls) {
      AskKeeps(t, Stop(ok));
    } else if LastStopFailed(t.calls) {
      FailedStopScans(t);
    }
    SleepKeeps(if Scanning(t.calls) then Asked(t, Stop(ok)) else t);
  }

  lemma SleepKeeps(t: Trace)
    requires Sound(t) && (Scanning(t.calls) <==> LastStopFailed(t.calls))
    ensures var asleep := Did(Did(Did(t, StopAdvertising), SuspendSensors), LowPowerSleep);
      Sound(asleep) && Sound(Did(asleep, ResumeSensors))
  {
    assert t.calls[..|t.calls|] == t.calls;
    var t1 := Did(t, StopAdvertising);
    MarkKeeps(t, StopAdvertising);
    MarkKeeps(t1, SuspendSensors);
    var t2 := Did(t1, SuspendSensors);
    assert t2.marks[|t.marks|].action == StopAdvertising;
    MarkKeeps(t2, LowPowerSleep);
    MarkKeeps(Did(t2, LowPowerSleep), ResumeSensors);
  }

  lemma NormalRoundKeeps(t: Trace, ok: bool)
    requires Sound(t)
    ensures Sound(NormalRound(t, ok))
  {
    if Scanning(t.calls) {
      AwakeSound(t, NormalSecond);
    } else {
      AskKeeps(t, Start(ok));
      AwakeSound(Asked(t, Start(ok)), NormalSecond);
    }
  }

  lemma ListenKeeps(t: Trace, ok: bool)
    requires Sound(t) && (Scanning(t.calls) ==> LastStopFailed(t.calls))
    ensures Sound(Listen(t, ok))
  {
    AskKeeps(t, Start(ok));
    AwakeSound(Asked(t, Start(ok)), ListenPeriod);
  }

  lemma StopListeningKeeps(t: Trace, ok: bool)
    requires Sound(t)
    ensures Sound(StopListening(t, ok))
  {
    if Scanning(t.calls) {
      AskKeeps(t, Stop(ok));
    }
  }

  lemma {:induction false} RoundKeeps(t: Trace, r: Round)
    requires Sound(t)
    ensures Sound(After(t, r))
  {
    if r.head == Normal {
      NormalRoundKeeps(t, r.headOk);
    } else {
      FallAsleepKeeps(t, r.headOk);
      if r.woken == LowPower {
        ListenKeeps(FallAsleep(t, r.headOk), r.listenOk);
        StopListeningKeeps(Listen(FallAsleep(t, r.headOk), r.listenOk), r.stopOk);
      }
    }
  }

  lemma DidActs(t: Trace, action: Action)
    ensures var marks := Did(t, action).marks;
      |marks| == |t.marks| + 1 && marks[|t.marks|].action == action && marks[..|t.marks|] == t.marks
  {
  }

  lemma AsleepActs(t: Trace, ok: bool)
    ensures var n, marks := |t.marks|, FallAsleep(t, ok).marks;
      && |marks| == n + 3 && marks[..n] == t.marks
      && marks[n].action == StopAdvertising && marks[n + 1].action == SuspendSensors && marks[n + 2].action == LowPowerSleep
  {
    var stopped := if Scanning(t.calls) then Asked(t, Stop(ok)) else t;
    DidActs(stopped, StopAdvertising);
    DidActs(Did(stopped, StopAdvertising), SuspendSensors);
    DidActs(Did(Did(stopped, StopAdvertising), SuspendSensors), LowPowerSleep);
  }

  /**
   * What a round does besides calling the controller, in order: in normal mode it only sleeps;
   * in low power it stops advertising, suspends the sensors and sleeps, and then either finds
   * the node woken and resumes the sensors, or listens.
   */
  lemma RoundActions(t: Trace, r: Round)
    ensures var n, marks := |t.marks|, After(t, r).marks;
      && n < |marks| && marks[..n] == t.marks
      && if r.head == Normal then |marks| == n + 1 && marks[n].action == NormalSecond
         else
           && |marks| == n + 4 && marks[n].action == StopAdvertising
           && marks[n + 1].action == SuspendSensors && marks[n + 2].action == LowPowerSleep
           && marks[n + 3].action == if r.woken == Normal then ResumeSensors else ListenPeriod
  {
    if r.head == Normal {
      DidActs(if Scanning(t.calls) then t else Asked(t, Start(r.headOk)), NormalSecond);
    } else {
      var asleep := FallAsleep(t, r.headOk);
      AsleepActs(t, r.headOk);
      DidActs(asleep, ResumeSensors);
      DidActs(Asked(asleep, Start(r.listenOk)), ListenPeriod);
    }
  }

  /** Every run: whatever the modes and however the controller fails. */
  lemma {:induction false} RunIsSound(rounds: seq<Round>)
    ensures Sound(Run(rounds))
  {
    if rounds != [] {
      RunIsSound(rounds[..|rounds| - 1]);
      RoundKeeps(Run(rounds[..|rounds| - 1]), rounds[|rounds| - 1]);
    }
  }

  /**
   * Whether the scan outlasts a round. Once the node has slept and listened in low power it
   * runs only if the stop afterwards failed, or the node was woken while listening.
   */
  lemma {:induction false} ScanOutlastsRoundIff(t: Trace, r: Round)
    ensures Scanning(After(t, r).calls) <==>
      var was := Scanning(t.calls);
      if r.head == Normal then was || r.headOk
      else if r.woken == Normal then was && !r.headOk
      else (r.listenOk || (was && !r.headOk)) && (r.listened == Normal || !r.stopOk)
  {
    if r.head == Normal {
      AskScans(t, Start(r.headOk));
    } else {
      AskScans(t, Stop(r.headOk));
      AskScans(FallAsleep(t, r.headOk), Start(r.listenOk));
      AskScans(Listen(FallAsleep(t, r.headOk), r.listenOk), Stop(r.stopOk));
    }
  }

  /**
   * A controller that never fails is asked for start and stop in turn; the thread then never
   * scans in the low-power sleep and always scans in the others.
   */
  lemma {:induction false} HealthyScanAlternates(rounds: seq<Round>)
    requires forall c :: c in Run(rounds).calls ==> c.ok
    ensures forall i :: 0 <= i < |Run(rounds).calls| ==> Run(rounds).calls[i] == if i % 2 == 0 then Start(true) else Stop(true)
    ensures forall n :: n in Run(rounds).marks && IsSleep(n.action) ==>
      n.at <= |Run(rounds).calls| && (Scanning(Run(rounds).calls[..n.at]) <==> n.action != LowPowerSleep)
  {
    var t := Run(rounds);
    RunIsSound(rounds);
    forall i | 0 <= i < |t.calls| ensures t.calls[i] == if i % 2 == 0 then Start(true) else Stop(true) {
      AlternatesAt(t, i);
    }
  }

  lemma {:induction false} AlternatesAt(t: Trace, i: nat)
    requires Sound(t) && i < |t.calls| && forall c :: c in t.calls ==> c.ok
    ensures t.calls[i] == if i % 2 == 0 then Start(true) else Stop(true)
  {
    assert SoundCall(t.calls, i);
    assert t.calls[i].ok;
    if i > 0 {
      AlternatesAt(t, i - 1);
      assert t.calls[..i][..i - 1] == t.calls[..i - 1];
    }
  }
}
