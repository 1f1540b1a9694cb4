/** The application's tasks as atomic steps of one system: they share the global
    millisecond variable, the motor bank, the health monitor and the fault latch. */
module AppTasks {
  import opened Ticks
  import opened Motors
  import opened Health
  import opened Faults

  type Beats = b: seq<Tick> | |b| == TASK_COUNT witness [0, 0, 0, 0]

  datatype System = System(millis: Tick, bank: Bank, beats: Beats, started: Tick, latch: Latch)

  /** One task body, or a fault raised elsewhere. A control tick always ends by
      commanding both channels; the duties come from the chassis controller. */
  datatype Event =
    | FastTick(now: Tick)
    | ControlTick(now: Tick, left: int, right: int)
    | TelemetryTick(now: Tick)
    | ImuBeat(now: Tick)
    | HealthTick(now: Tick)
    | FaultRaised(now: Tick, code: FaultCode, detail: Word32)
  {
    predicate BeatsFor(t: TaskId) {
      match this
      case FastTick(_) => t == FAST_TASK
      case ControlTick(_, _, _) => t == CONTROL_TASK
      case TelemetryTick(_) => t == TELEMETRY_TASK
      case ImuBeat(_) => t == IMU_TASK
      case _ => false
    }
  }

  function Boot(): System {
    System(0, PowerOn(), [0, 0, 0, 0], 0, Latch(NoFault, 0))
  }

  function Raised(s: System, code: FaultCode, detail: Word32): System {
    s.(bank := ForwardPair(s.bank, 0, 0, s.millis), latch := Latched(s.latch, code, detail))
  }

  /** Whether the event feeds the watchdog; only a health tick can. */
  predicate Feeds(s: System, e: Event) {
    e.HealthTick? && StaleMask(s.beats, s.started, e.now) == 0 && s.latch.code == NoFault
  }

  function Apply(s: System, e: Event): System {
    match e
    case FastTick(now) =>
      s.(millis := now, bank := Safety(s.bank, now), beats := s.beats[FAST_TASK := now])
    case ControlTick(now, l, r) =>
      s.(millis := now, bank := ForwardPair(s.bank, l, r, now), beats := s.beats[CONTROL_TASK := now])
    case TelemetryTick(now) => s.(millis := now, beats := s.beats[TELEMETRY_TASK := now])
    case ImuBeat(now) => s.(beats := s.beats[IMU_TASK := now])
    case HealthTick(now) =>
      var mask := StaleMask(s.beats, s.started, now);
      if mask != 0 then Raised(s, TaskStale, mask) else s
    case FaultRaised(_, code, detail) => Raised(s, code, detail)
  }

  class AppSystem {
    var millis: Tick
    const motors: MotorBank
    const monitor: HealthMonitor
    const faults: FaultManager

    ghost predicate Valid()
      reads this, monitor
    {
      monitor.Valid() && faults.motors == motors
    }

    ghost function State(): System
      requires Valid()
      reads this, motors, monitor, monitor.lastBeat, faults
    {
      System(millis, motors.State(), monitor.lastBeat[..], monitor.started, faults.State())
    }

    constructor ()
      ensures Valid() && State() == Boot()
      ensures fresh(motors) && fresh(monitor) && fresh(monitor.lastBeat) && fresh(faults)
    {
      var bank := new MotorBank();
      millis := 0;
      motors := bank;
      monitor := new HealthMonitor(0);
      faults := new FaultManager(bank);
      new;
      assert monitor.lastBeat[..] == [0, 0, 0, 0];
    }

    method FastTask(now: Tick)
      requires Valid()
      modifies this, motors, monitor.lastBeat
      ensures Valid() && State() == Apply(old(State()), FastTick(now))
    {
      millis := now;
      motors.SafetyTick(now);
      monitor.Beat(FAST_TASK, now);
    }

    method ControlTask(now: Tick, left: int, right: int)
      requires Valid()
      modifies this, motors, monitor.lastBeat
      ensures Valid() && State() == Apply(old(State()), ControlTick(now, left, right))
    {
      millis := now;
      motors.SetDuty(0, left, millis);
      motors.SetDuty(1, right, millis);
      monitor.Beat(CONTROL_TASK, now);
    }

    method TelemetryTask(now: Tick)
      requires Valid()
      modifies this, monitor.lastBeat
      ensures Valid() && State() == Apply(old(State()), TelemetryTick(now))
    {
      millis := now;
      monitor.Beat(TELEMETRY_TASK, now);
    }

    method ImuHeartbeat(now: Tick)
      requires Valid()
      modifies monitor.lastBeat
      ensures Valid() && State() == Apply(old(State()), ImuBeat(now))
    {
      monitor.Beat(IMU_TASK, now);
    }

    method HealthTask(now: Tick) returns (fed: bool)
      requires Valid()
      modifies motors, faults
      ensures Valid() && State() == Apply(old(State()), HealthTick(now))
      ensures fed == Feeds(old(State()), HealthTick(now))
    {
      fed := false;
      var healthy, mask := monitor.Check(now);
      var active := faults.IsActive();
      if healthy && !active {
        fed := true;
      } else if mask != 0 {
        faults.Raise(TaskStale, mask, millis);
      }
    }

    method RaiseFault(code: FaultCode, detail: Word32)
      requires Valid()
      modifies motors, faults
      ensures Valid()
      ensures forall now: Tick :: State() == Apply(old(State()), FaultRaised(now, code, detail))
    {
      faults.Raise(code, detail, millis);
    }
  }

  // ----- runs -----

  /** Event `k` happens at uptime `times[k]`; every interleaving of the tasks is a run. */
  ghost predicate Run(es: seq<Event>, times: seq<nat>, ss: seq<System>) {
    && |times| == |es| && |ss| == |es| + 1
    && ss[0] == Boot()
    && (forall i, j | 0 <= i <= j < |es| :: times[i] <= times[j])
    && (forall k | 0 <= k < |es| :: es[k].now == TickAt(times[k]))
    && (forall k | 0 <= k < |es| :: es[k].FaultRaised? ==> es[k].code != NoFault)
    && forall k | 0 <= k < |es| :: Happens(es, ss, k)
  }

  ghost predicate Happens(es: seq<Event>, ss: seq<System>, k: nat)
    requires k < |es| && |ss| == |es| + 1
  {
    ss[k + 1] == Apply(ss[k], es[k])
  }

  // ----- the latch and the watchdog -----

  lemma ApplyKeepsLatch(s: System, e: Event)
    requires s.latch.code != NoFault
    ensures Apply(s, e).latch == s.latch && !Feeds(s, e)
  {
  }

  /** The first fault is kept for ever, and no watchdog feed ever follows it. */
  lemma {:induction false} FaultIsForEver(es: seq<Event>, times: seq<nat>, ss: seq<System>, f: nat, k: nat)
    requires Run(es, times, ss) && f <= k <= |es| && ss[f].latch.code != NoFault
    ensures ss[k].latch == ss[f].latch
    ensures k < |es| ==> !Feeds(ss[k], es[k])
  {
    hide Apply, Feeds;
    if f < k {
      FaultIsForEver(es, times, ss, f, k - 1);
      assert Happens(es, ss, k - 1);
      ApplyKeepsLatch(ss[k - 1], es[k - 1]);
    }
    if k < |es| {
      ApplyKeepsLatch(ss[k], es[k]);
    }
  }

  lemma ApplyKeepsBeat(s: System, e: Event, t: TaskId)
    ensures Apply(s, e).started == s.started
    ensures !e.BeatsFor(t) ==> Apply(s, e).beats[t] == s.beats[t]
    ensures e.BeatsFor(t) ==> Apply(s, e).beats[t] == e.now
  {
    hide Safety, ForwardPair, StaleMask;
  }

  lemma {:induction false} StartedAtZero(es: seq<Event>, times: seq<nat>, ss: seq<System>, k: nat)
    requires Run(es, times, ss) && k <= |es|
    ensures ss[k].started == 0
  {
    hide Apply;
    if k > 0 {
      StartedAtZero(es, times, ss, k - 1);
      assert Happens(es, ss, k - 1);
      ApplyKeepsBeat(ss[k - 1], es[k - 1], 0);
    }
  }

  /** The uptime of task `t`'s last beat before event `k`; boot counts as a beat. */
  ghost function LastBeat(es: seq<Event>, times: seq<nat>, t: TaskId, k: nat): nat
    requires |times| == |es| && k <= |es|
  {
    if k == 0 then 0 else if es[k - 1].BeatsFor(t) then times[k - 1] else LastBeat(es, times, t, k - 1)
  }

  lemma {:induction false} BeatsAreHistory(es: seq<Event>, times: seq<nat>, ss: seq<System>, t: TaskId, k: nat)
    requires Run(es, times, ss) && k <= |es|
    ensures ss[k].beats[t] == TickAt(LastBeat(es, times, t, k))
    ensures forall j | k <= j < |es| :: LastBeat(es, times, t, k) <= times[j]
  {
    hide Apply;
    if k > 0 {
      BeatsAreHistory(es, times, ss, t, k - 1);
      assert Happens(es, ss, k - 1);
      ApplyKeepsBeat(ss[k - 1], es[k - 1], t);
    }
  }

  /** At any uptime, the monitor sees wrapped ages only. */
  lemma FeedsAtAnyUptime(es: seq<Event>, times: seq<nat>, ss: seq<System>, k: nat)
    requires Run(es, times, ss) && k < |es|
    ensures Feeds(ss[k], es[k]) <==>
              es[k].HealthTick? && ss[k].latch.code == NoFault &&
              (times[k] % WORD < STARTUP_GRACE_MS ||
               forall t: TaskId :: WrappedAge(es, times, t, k) <= Deadline(t))
    ensures StaleMask(ss[k].beats, ss[k].started, es[k].now) == 0 <==>
              times[k] % WORD < STARTUP_GRACE_MS || forall t: TaskId :: WrappedAge(es, times, t, k) <= Deadline(t)
  {
    StartedAtZero(es, times, ss, k);
    SinceIsElapsed(0, times[k]);
    StaleMaskNamesTheStale(ss[k].beats, ss[k].started, es[k].now);
    forall t: TaskId
      ensures Stale(ss[k].beats, es[k].now, t) <==> WrappedAge(es, times, t, k) > Deadline(t)
    {
      BeatsAreHistory(es, times, ss, t, k);
      SinceIsElapsed(LastBeat(es, times, t, k), times[k]);
    }
    hide StaleMask;
  }

  ghost function WrappedAge(es: seq<Event>, times: seq<nat>, t: TaskId, k: nat): int
    requires |times| == |es| && k < |es|
  {
    (times[k] - LastBeat(es, times, t, k)) % WORD
  }

  /** Every task has beaten within its deadline: the fast task in the last 50 ms, IMU and
      control in the last 100, telemetry in the last 500. */
  ghost predicate AllPunctual(es: seq<Event>, times: seq<nat>, k: nat)
    requires |times| == |es| && k < |es|
  {
    && times[k] - LastBeat(es, times, FAST_TASK, k) <= 50
    && times[k] - LastBeat(es, times, IMU_TASK, k) <= 100
    && times[k] - LastBeat(es, times, CONTROL_TASK, k) <= 100
    && times[k] - LastBeat(es, times, TELEMETRY_TASK, k) <= 500
  }

  lemma PunctualTasks(es: seq<Event>, times: seq<nat>, k: nat)
    requires |times| == |es| && k < |es|
    ensures AllPunctual(es, times, k) <==> forall t: TaskId :: Punctual(es, times, t, k)
  {
    if forall t: TaskId :: Punctual(es, times, t, k) {
      assert Punctual(es, times, IMU_TASK, k) && Punctual(es, times, FAST_TASK, k);
      assert Punctual(es, times, CONTROL_TASK, k) && Punctual(es, times, TELEMETRY_TASK, k);
    }
  }

  ghost predicate Punctual(es: seq<Event>, times: seq<nat>, t: TaskId, k: nat)
    requires |times| == |es| && k < |es|
  {
    times[k] - LastBeat(es, times, t, k) <= Deadline(t)
  }

  /** Up to the first wrap of the tick counter, a health tick feeds the watchdog
      exactly when no fault is latched and, once the 2 s grace is over, every task
      has beaten within its deadline; otherwise a late task latches a fault. */
  lemma FeedsExactlyWhenPunctual(es: seq<Event>, times: seq<nat>, ss: seq<System>, k: nat)
    requires Run(es, times, ss) && k < |es| && times[k] < WORD
    ensures Feeds(ss[k], es[k]) <==>
              es[k].HealthTick? && ss[k].latch.code == NoFault &&
              (times[k] < STARTUP_GRACE_MS || AllPunctual(es, times, k))
    ensures es[k].HealthTick? && times[k] >= STARTUP_GRACE_MS && !AllPunctual(es, times, k) ==>
              ss[k + 1].latch.code != NoFault && ss[k + 1].bank.Still()
  {
    assert Happens(es, ss, k);
    FeedsAtAnyUptime(es, times, ss, k);
    forall t: TaskId
      ensures WrappedAge(es, times, t, k) <= Deadline(t) <==> Punctual(es, times, t, k)
    {
      BeatsAreHistory(es, times, ss, t, k);
    }
    PunctualTasks(es, times, k);
    hide StaleMask, AllPunctual, Punctual, WrappedAge;
  }

  /** The health tick sees a missed deadline: out of the grace by its clock, with a task
      whose last beat is too old by its clock. */
  ghost predicate SeesMissedDeadline(es: seq<Event>, times: seq<nat>, k: nat)
    requires |times| == |es| && k < |es|
  {
    && es[k].HealthTick? && times[k] % WORD >= STARTUP_GRACE_MS
    && exists t: TaskId :: WrappedAge(es, times, t, k) > Deadline(t)
  }

  /** Up to the first wrap that is a task that has really missed its deadline. */
  lemma SeenDeadlineIsReal(es: seq<Event>, times: seq<nat>, ss: seq<System>, k: nat)
    requires Run(es, times, ss) && k < |es| && times[k] < WORD
    ensures SeesMissedDeadline(es, times, k) <==>
              es[k].HealthTick? && times[k] >= STARTUP_GRACE_MS && !AllPunctual(es, times, k)
  {
    forall t: TaskId
      ensures WrappedAge(es, times, t, k) > Deadline(t) <==> !Punctual(es, times, t, k)
    {
      BeatsAreHistory(es, times, ss, t, k);
    }
    PunctualTasks(es, times, k);
    hide Punctual, WrappedAge, AllPunctual;
  }

  /** Once a health tick has seen a missed deadline, no feed ever follows, even if the task
      resumes; at any uptime. */
  lemma MissedDeadlineStarvesTheWatchdog(es: seq<Event>, times: seq<nat>, ss: seq<System>, h: nat, k: nat)
    requires Run(es, times, ss) && h <= k < |es| && SeesMissedDeadline(es, times, h)
    ensures !Feeds(ss[k], es[k]) && ss[k + 1].latch.code != NoFault
  {
    FeedsAtAnyUptime(es, times, ss, h);
    assert Happens(es, ss, h);
    StaleTickLatches(ss[h], es[h]);
    hide Apply, Feeds, SeesMissedDeadline;
    FaultIsForEver(es, times, ss, h + 1, k + 1);
    if h < k {
      FaultIsForEver(es, times, ss, h + 1, k);
    }
  }

  lemma StaleTickLatches(s: System, e: Event)
    requires e.HealthTick? && StaleMask(s.beats, s.started, e.now) != 0
    ensures Apply(s, e).latch.code != NoFault && !Feeds(s, e)
  {
    hide StaleMask;
  }

  /** Event `j` gives no reason for a fault. */
  ghost predicate Clean(es: seq<Event>, times: seq<nat>, j: nat)
    requires |times| == |es| && j < |es|
  {
    !es[j].FaultRaised? && !SeesMissedDeadline(es, times, j)
  }

  lemma CleanKeepsTheLatchClear(s: System, e: Event)
    requires !e.FaultRaised? && (e.HealthTick? ==> Feeds(s, e))
    ensures Apply(s, e).latch == s.latch
  {
  }

  /** At any uptime the latch is clear exactly while every event was clean: a fault is never
      latched without a cause. */
  lemma {:induction false} LatchIsClearExactlyWhileClean(
      es: seq<Event>, times: seq<nat>, ss: seq<System>, k: nat)
    requires Run(es, times, ss) && k <= |es|
    ensures ss[k].latch.code == NoFault <==> forall j | 0 <= j < k :: Clean(es, times, j)
  {
    hide Apply, Feeds, SeesMissedDeadline;
    if k > 0 {
      var s, e := ss[k - 1], es[k - 1];
      LatchIsClearExactlyWhileClean(es, times, ss, k - 1);
      assert Happens(es, ss, k - 1);
      if s.latch.code != NoFault {
        ApplyKeepsLatch(s, e);
      } else if SeesMissedDeadline(es, times, k - 1) {
        MissedDeadlineStarvesTheWatchdog(es, times, ss, k - 1, k - 1);
        assert !Clean(es, times, k - 1);
      } else if e.FaultRaised? {
        RaisingLatches(s, e);
        assert !Clean(es, times, k - 1);
      } else {
        if e.HealthTick? {
          CleanHealthTickFeeds(es, times, ss, k - 1);
        }
        CleanKeepsTheLatchClear(s, e);
      }
    }
  }

  lemma CleanHealthTickFeeds(es: seq<Event>, times: seq<nat>, ss: seq<System>, f: nat)
    requires Run(es, times, ss) && f < |es| && es[f].HealthTick? && Clean(es, times, f)
    requires ss[f].latch.code == NoFault
    ensures Feeds(ss[f], es[f])
  {
    FeedsAtAnyUptime(es, times, ss, f);
    hide Feeds;
  }

  lemma RaisingLatches(s: System, e: Event)
    requires e.FaultRaised? && e.code != NoFault
    ensures Apply(s, e).latch.code != NoFault
  {
  }

  /** A latched fault is the first one that was raised: a fault raised elsewhere with its
      own code and detail, or a missed deadline with a mask that names exactly the tasks
      whose last beat was too old. */
  lemma {:induction false} LatchNamesTheFirstFault(
      es: seq<Event>, times: seq<nat>, ss: seq<System>, k: nat) returns (f: nat)
    requires Run(es, times, ss) && k <= |es| && ss[k].latch.code != NoFault
    ensures f < k && ss[f].latch.code == NoFault && forall j | 0 <= j < f :: Clean(es, times, j)
    ensures es[f].FaultRaised? || SeesMissedDeadline(es, times, f)
    ensures es[f].FaultRaised? ==> ss[k].latch == Latch(es[f].code, es[f].detail)
    ensures es[f].HealthTick? ==>
              ss[k].latch.code == TaskStale &&
              forall t: TaskId :: HasBit(ss[k].latch.detail, t) <==> WrappedAge(es, times, t, f) > Deadline(t)
  {
    hide Apply, Feeds, SeesMissedDeadline, HasBit, WrappedAge, Deadline;
    assert Happens(es, ss, k - 1);
    if ss[k - 1].latch.code != NoFault {
      ApplyKeepsLatch(ss[k - 1], es[k - 1]);
      f := LatchNamesTheFirstFault(es, times, ss, k - 1);
    } else {
      f := k - 1;
      LatchIsClearExactlyWhileClean(es, times, ss, f);
      LatchIsClearExactlyWhileClean(es, times, ss, k);
      assert !Clean(es, times, f);
      if es[f].FaultRaised? {
        RaisingRecords(ss[f], es[f]);
      } else {
        StaleTickNames(es, times, ss, f);
      }
    }
  }

  lemma RaisingRecords(s: System, e: Event)
    requires e.FaultRaised? && s.latch.code == NoFault
    ensures Apply(s, e).latch == Latch(e.code, e.detail)
  {
  }

  lemma StaleTickNames(es: seq<Event>, times: seq<nat>, ss: seq<System>, f: nat)
    requires Run(es, times, ss) && f < |es| && SeesMissedDeadline(es, times, f) && ss[f].latch.code == NoFault
    ensures ss[f + 1].latch.code == TaskStale
    ensures forall t: TaskId :: HasBit(ss[f + 1].latch.detail, t) <==> WrappedAge(es, times, t, f) > Deadline(t)
  {
    FeedsAtAnyUptime(es, times, ss, f);
    assert Happens(es, ss, f);
    StaleMaskNamesTheStale(ss[f].beats, ss[f].started, es[f].now);
    forall t: TaskId
      ensures Stale(ss[f].beats, es[f].now, t) <==> WrappedAge(es, times, t, f) > Deadline(t)
    {
      BeatsAreHistory(es, times, ss, t, f);
      SinceIsElapsed(LastBeat(es, times, t, f), times[f]);
    }
    hide StaleMask, HasBit, Stale, WrappedAge, Feeds;
  }

  // ----- the motors' dead-man timer -----

  ghost predicate NoControl(es: seq<Event>, a: nat, b: nat)
    requires b <= |es|
  {
    forall k | a <= k < b :: !es[k].ControlTick?
  }

  lemma ApplyMovesMotors(s: System, e: Event)
    ensures !e.ControlTick? ==> Apply(s, e).bank.Still() || Apply(s, e).bank == s.bank
    ensures !e.ControlTick? && s.bank.Still() ==> Apply(s, e).bank.Still()
    ensures e.ControlTick? ==> Apply(s, e).bank.lastCommand == e.now
    ensures e.ControlTick? ==> (Apply(s, e).bank.Still() <==> e.left <= 0 && e.right <= 0)
    ensures e.FastTick? && Since(e.now, s.bank.lastCommand) > COMMAND_TIMEOUT_MS ==> Apply(s, e).bank.Still()
  {
    hide StaleMask;
  }

  /** What a channel does when it is asked for a forward duty. */
  ghost predicate Drives(ch: Channel, wanted: int) {
    && ch.duty == (if wanted < 0 then 0 else if wanted > 1000 then 1000 else wanted)
    && ch.bridge == if ch.duty != 0 then Driving else Coasting
  }

  lemma ControlTickCommands(s: System, e: Event)
    requires e.ControlTick?
    ensures Drives(Apply(s, e).bank.left, e.left) && Drives(Apply(s, e).bank.right, e.right)
    ensures Apply(s, e).bank.lastCommand == e.now
  {
  }

  /** A control tick gives each wheel its own duty, within [0, 1000]; until the next one
      the motors are either still or exactly as that tick left them. */
  lemma {:induction false} LastCommandHolds(es: seq<Event>, times: seq<nat>, ss: seq<System>, c: nat, k: nat)
    requires Run(es, times, ss) && c < k <= |es|
    requires es[c].ControlTick? && NoControl(es, c + 1, k)
    ensures Drives(ss[c + 1].bank.left, es[c].left) && Drives(ss[c + 1].bank.right, es[c].right)
    ensures ss[c + 1].bank.lastCommand == TickAt(times[c])
    ensures ss[k].bank.Still() || ss[k].bank == ss[c + 1].bank
  {
    hide Apply, Drives;
    if c < k - 1 {
      LastCommandHolds(es, times, ss, c, k - 1);
      assert Happens(es, ss, k - 1);
      ApplyMovesMotors(ss[k - 1], es[k - 1]);
    } else {
      assert Happens(es, ss, c);
      ControlTickCommands(ss[c], es[c]);
    }
  }

  lemma {:induction false} StillnessLasts(es: seq<Event>, times: seq<nat>, ss: seq<System>, f: nat, k: nat)
    requires Run(es, times, ss) && f <= k <= |es| && ss[f].bank.Still() && NoControl(es, f, k)
    ensures ss[k].bank.Still()
  {
    hide Apply;
    if f < k {
      StillnessLasts(es, times, ss, f, k - 1);
      assert Happens(es, ss, k - 1);
      ApplyMovesMotors(ss[k - 1], es[k - 1]);
    }
  }

  /** The fast task runs at least once in every `period` while time goes on. */
  ghost predicate FastEvery(es: seq<Event>, times: seq<nat>, period: nat)
    requires |times| == |es|
  {
    forall a, b | 0 <= a < b < |es| && times[b] - times[a] > period :: FastWithin(es, times, period, a, b)
  }

  ghost predicate FastWithin(es: seq<Event>, times: seq<nat>, period: nat, a: nat, b: nat)
    requires |times| == |es| && a < b < |es|
  {
    exists f :: a < f <= b && es[f].FastTick? && times[f] <= times[a] + period
  }

  lemma LastNotAfter(times: seq<nat>, c: nat, k: nat, limit: nat) returns (a: nat)
    requires c < k < |times| && times[c] <= limit < times[k]
    requires forall i, j | 0 <= i <= j < |times| :: times[i] <= times[j]
    ensures c <= a < k && times[a] <= limit < times[a + 1]
  {
    a := c;
    while times[a + 1] <= limit
      invariant c <= a < k && times[a] <= limit
      decreases k - a
    {
      a := a + 1;
    }
  }

  lemma NextFastTick(es: seq<Event>, times: seq<nat>, period: nat, a: nat, k: nat) returns (f: nat)
    requires |times| == |es| && FastEvery(es, times, period)
    requires a < k < |es| && times[k] - times[a] > period
    ensures a < f <= k && es[f].FastTick? && times[f] <= times[a] + period
  {
    assert FastWithin(es, times, period, a, k);
    f :| a < f <= k && es[f].FastTick? && times[f] <= times[a] + period;
  }

  /** If the control task stops after event `c`, the motors are still 100 ms and one
      fast period later, and stay still, wherever the tick counter wraps. */
  lemma ControlStopStopsTheMotors(
      es: seq<Event>, times: seq<nat>, ss: seq<System>, period: nat, c: nat, k: nat)
    requires Run(es, times, ss) && FastEvery(es, times, period)
    requires COMMAND_TIMEOUT_MS + period < WORD
    requires c < k < |es| && es[c].ControlTick? && NoControl(es, c + 1, k + 1)
    requires times[k] > times[c] + COMMAND_TIMEOUT_MS + period
    ensures ss[k + 1].bank.Still()
  {
    hide Apply, FastEvery;
    var a := LastNotAfter(times, c, k, times[c] + COMMAND_TIMEOUT_MS);
    var f := NextFastTick(es, times, period, a, k);
    assert times[a + 1] <= times[f];
    SinceIsElapsed(times[c], times[f]);
    LastCommandHolds(es, times, ss, c, f);
    assert Happens(es, ss, f);
    ApplyMovesMotors(ss[f], es[f]);
    StillnessLasts(es, times, ss, f + 1, k + 1);
  }

  // ----- a fault and the motors -----

  /** The event raises a fault: from elsewhere, or the health task's own for a missed
      heartbeat. */
  ghost predicate RaisesFault(s: System, e: Event) {
    e.FaultRaised? || (e.HealthTick? && StaleMask(s.beats, s.started, e.now) != 0)
  }

  lemma RaisingStops(s: System, e: Event)
    requires RaisesFault(s, e)
    ensures Apply(s, e).bank.Still()
  {
  }

  /** The fast task runs more than 100 ms after the last command, by its own clock. */
  ghost predicate FindsNoCommand(es: seq<Event>, times: seq<nat>, c: nat, j: nat)
    requires |times| == |es| && c < |es| && j < |es|
  {
    es[j].FastTick? && (times[j] - times[c]) % WORD > COMMAND_TIMEOUT_MS
  }

  lemma WhatStops(s: System, e: Event)
    requires !s.bank.Still() && !e.ControlTick?
    ensures Apply(s, e).bank.Still() <==>
              RaisesFault(s, e) || (e.FastTick? && Since(e.now, s.bank.lastCommand) > COMMAND_TIMEOUT_MS)
  {
    hide StaleMask;
  }

  /** Moving motors keep moving as commanded until a fault is raised or the fast task finds
      the command more than 100 ms old; nothing else between two control ticks stops them. */
  lemma {:induction false} MotorsRunUntilStopped(es: seq<Event>, times: seq<nat>, ss: seq<System>, c: nat, k: nat)
    requires Run(es, times, ss) && c < k <= |es|
    requires es[c].ControlTick? && NoControl(es, c + 1, k) && (es[c].left > 0 || es[c].right > 0)
    ensures ss[k].bank.Still() <==>
              exists j :: c < j < k && (RaisesFault(ss[j], es[j]) || FindsNoCommand(es, times, c, j))
  {
    hide Apply, RaisesFault;
    if c < k - 1 {
      MotorsRunUntilStopped(es, times, ss, c, k - 1);
      LastCommandHolds(es, times, ss, c, k - 1);
      assert Happens(es, ss, k - 1);
      ApplyMovesMotors(ss[k - 1], es[k - 1]);
      SinceIsElapsed(times[c], times[k - 1]);
      if !ss[k - 1].bank.Still() {
        WhatStops(ss[k - 1], es[k - 1]);
      }
    } else {
      assert Happens(es, ss, c);
      ApplyMovesMotors(ss[c], es[c]);
    }
  }

  /** No control tick in `a .. b - 1` ends by asking for forward duty. */
  ghost predicate NoForwardCommand(es: seq<Event>, a: nat, b: nat)
    requires b <= |es|
  {
    forall j | a <= j < b && es[j].ControlTick? :: es[j].left <= 0 && es[j].right <= 0
  }

  /** Any fault stops the motors, but not for good: they stay still from the fault at `f`
      up to `n` exactly when no control tick commands them again. */
  lemma {:induction false} FaultStopsMotorsUntilRecommanded(
      es: seq<Event>, times: seq<nat>, ss: seq<System>, f: nat, n: nat)
    requires Run(es, times, ss) && f < n <= |es| && RaisesFault(ss[f], es[f])
    ensures (forall k | f < k <= n :: ss[k].bank.Still()) <==> NoForwardCommand(es, f + 1, n)
  {
    hide Apply, RaisesFault;
    assert Happens(es, ss, n - 1);
    ApplyMovesMotors(ss[n - 1], es[n - 1]);
    if f < n - 1 {
      FaultStopsMotorsUntilRecommanded(es, times, ss, f, n - 1);
    } else {
      RaisingStops(ss[f], es[f]);
    }
  }

  // ----- the watchdog -----

  const WATCHDOG_MS := 500

  /** The uptime of the last watchdog feed before event `k`; boot starts the watchdog. */
  ghost function LastFeed(es: seq<Event>, times: seq<nat>, ss: seq<System>, k: nat): nat
    requires |times| == |es| && |ss| == |es| + 1 && k <= |es|
  {
    if k == 0 then 0 else if Feeds(ss[k - 1], es[k - 1]) then times[k - 1] else LastFeed(es, times, ss, k - 1)
  }

  /** The watchdog has not expired by event `k`. */
  ghost predicate NotReset(es: seq<Event>, times: seq<nat>, ss: seq<System>, k: nat)
    requires |times| == |es| && |ss| == |es| + 1 && k < |es|
  {
    times[k] - LastFeed(es, times, ss, k) < WATCHDOG_MS
  }

  /** Whenever more than `period` has passed since some moment, the health task ran in the
      meantime, within the period. */
  ghost predicate HealthEvery(es: seq<Event>, times: seq<nat>, period: nat)
    requires |times| == |es|
  {
    forall since: nat, b: nat | b < |es| && times[b] > since + period :: HealthWithin(es, times, period, since, b)
  }

  ghost predicate HealthWithin(es: seq<Event>, times: seq<nat>, period: nat, since: nat, b: nat)
    requires |times| == |es| && b < |es|
  {
    exists f :: 0 <= f < b && es[f].HealthTick? && since < times[f] <= since + period
  }

  lemma {:induction false} FeedsAreRemembered(es: seq<Event>, times: seq<nat>, ss: seq<System>, f: nat, k: nat)
    requires Run(es, times, ss) && f < k <= |es| && Feeds(ss[f], es[f])
    ensures LastFeed(es, times, ss, k) >= times[f]
  {
    hide Feeds;
    if f < k - 1 {
      FeedsAreRemembered(es, times, ss, f, k - 1);
    }
  }

  /** With health ticks at most `period` < 500 ms apart, a system all of whose events are
      clean is never reset, at any uptime. */
  lemma CleanRunIsNeverReset(es: seq<Event>, times: seq<nat>, ss: seq<System>, period: nat, k: nat)
    requires Run(es, times, ss) && HealthEvery(es, times, period) && period < WATCHDOG_MS
    requires k < |es| && forall j | 0 <= j < k :: Clean(es, times, j)
    ensures NotReset(es, times, ss, k)
  {
    hide Feeds, Apply, Clean;
    var since := LastFeed(es, times, ss, k);
    if times[k] > since + period {
      assert HealthWithin(es, times, period, since, k);
      var f :| 0 <= f < k && es[f].HealthTick? && since < times[f] <= since + period;
      LatchIsClearExactlyWhileClean(es, times, ss, f);
      CleanHealthTickFeeds(es, times, ss, f);
      FeedsAreRemembered(es, times, ss, f, k);
    }
  }

  function Max(a: nat, b: nat): nat {
    if a < b then b else a
  }

  /** When the tick counter last was zero. */
  function EpochStart(uptime: nat): nat {
    uptime - uptime % WORD
  }

  lemma EpochsAdvance(a: nat, b: nat)
    requires a <= b
    ensures EpochStart(a) <= EpochStart(b)
    ensures a % WORD < STARTUP_GRACE_MS ==> a < EpochStart(b) + STARTUP_GRACE_MS
  {
    assert EpochStart(a) == WORD * (a / WORD) && EpochStart(b) == WORD * (b / WORD);
    assert a / WORD <= b / WORD;
  }

  lemma {:induction false} FeedsArePast(es: seq<Event>, times: seq<nat>, ss: seq<System>, k: nat)
    requires Run(es, times, ss) && k <= |es|
    ensures LastFeed(es, times, ss, k) <= if k == 0 then 0 else times[k - 1]
  {
    hide Feeds;
    if k > 0 {
      FeedsArePast(es, times, ss, k - 1);
    }
  }

  /** Every feed so far is explained by the current grace, an earlier epoch, or the task's
      last beat. */
  lemma {:induction false} FeedsNeedTheBeat(
      es: seq<Event>, times: seq<nat>, ss: seq<System>, t: TaskId, now: nat, k: nat)
    requires Run(es, times, ss) && k <= |es| && (k > 0 ==> times[k - 1] <= now)
    requires now - LastBeat(es, times, t, k) < WORD
    ensures LastFeed(es, times, ss, k) <=
              Max(EpochStart(now) + STARTUP_GRACE_MS, LastBeat(es, times, t, k) + Deadline(t))
  {
    hide Feeds, EpochStart;
    if k > 0 {
      FeedsArePast(es, times, ss, k);
      if !es[k - 1].BeatsFor(t) {
        FeedsNeedTheBeat(es, times, ss, t, now, k - 1);
        FeedsAtAnyUptime(es, times, ss, k - 1);
        BeatsAreHistory(es, times, ss, t, k - 1);
        EpochsAdvance(times[k - 1], now);
        RecentAgeIsTrue(es, times, t, k - 1);
      }
    }
  }

  lemma RecentAgeIsTrue(es: seq<Event>, times: seq<nat>, t: TaskId, k: nat)
    requires |times| == |es| && k < |es| && 0 <= times[k] - LastBeat(es, times, t, k) < WORD
    ensures WrappedAge(es, times, t, k) == times[k] - LastBeat(es, times, t, k)
  {
  }

  /** After a task's last beat at `t0` the watchdog has expired by max(E + 2000, t0 +
      deadline) + 500, whatever all the other tasks do; `E` is when the tick counter last
      was zero, which is boot for the first 49.7 days. */
  lemma SilenceIsResetInTime(es: seq<Event>, times: seq<nat>, ss: seq<System>, t: TaskId, k: nat)
    requires Run(es, times, ss) && k < |es| && times[k] - LastBeat(es, times, t, k) < WORD
    requires times[k] >=
               Max(EpochStart(times[k]) + STARTUP_GRACE_MS, LastBeat(es, times, t, k) + Deadline(t)) + WATCHDOG_MS
    ensures !NotReset(es, times, ss, k)
  {
    hide Feeds, Apply, Max, EpochStart, LastBeat, LastFeed, Deadline, Happens;
    FeedsNeedTheBeat(es, times, ss, t, times[k], k);
  }
}
