/** Whole runs of the tasks, from boot, that show two limits of the safe-stop design. All
    tasks run in slots of 20 ms, in the order IMU, fast, control, telemetry, health, until
    some of them fall silent; the health task never does. */
module SafeStopTraces {
  import opened Ticks
  import opened Motors
  import opened Health
  import opened Faults
  import opened AppTasks
  import Traces

  const SLOT_MS := 20

  /** Task `t` beats in the slots before `silent[t]`; control ticks command `duty`. */
  datatype Script = Script(silent: seq<nat>, duty: int)
  {
    ghost predicate Valid() {
      |silent| == TASK_COUNT && forall t: TaskId :: silent[t] > 0
    }
  }

  function TaskEvent(t: TaskId, now: Tick, duty: int): Event {
    if t == IMU_TASK then ImuBeat(now)
    else if t == FAST_TASK then FastTick(now)
    else if t == CONTROL_TASK then ControlTick(now, duty, duty)
    else TelemetryTick(now)
  }

  function Uptime(k: nat): nat {
    SLOT_MS * (k / 5)
  }

  /** The silent task's place is taken by one more health tick. */
  function EventAt(sc: Script, k: nat): Event
    requires sc.Valid()
  {
    if k % 5 < 4 && k / 5 < sc.silent[k % 5] then TaskEvent(k % 5, TickAt(Uptime(k)), sc.duty)
    else HealthTick(TickAt(Uptime(k)))
  }

  ghost function Events(sc: Script, n: nat): (es: seq<Event>)
    requires sc.Valid()
    ensures |es| == n && forall k | 0 <= k < n :: es[k] == EventAt(sc, k)
  {
    seq(n, k requires 0 <= k < n && sc.Valid() => EventAt(sc, k))
  }

  ghost function Times(n: nat): (times: seq<nat>)
    ensures |times| == n && forall k | 0 <= k < n :: times[k] == Uptime(k)
  {
    seq(n, k requires 0 <= k < n => Uptime(k))
  }

  lemma StatesOf(es: seq<Event>) returns (ss: seq<System>)
    ensures |ss| == |es| + 1 && ss[0] == Boot()
    ensures forall k | 0 <= k < |es| :: Happens(es, ss, k)
  {
    hide Apply, Boot;
    ss := Traces.StatesFrom(Apply, Boot(), es);
  }

  lemma HealthRunsInEverySlot(sc: Script, n: nat)
    requires sc.Valid()
    ensures HealthEvery(Events(sc, n), Times(n), SLOT_MS)
  {
    var es, times := Events(sc, n), Times(n);
    forall since: nat, b: nat | b < n && times[b] > since + SLOT_MS
      ensures HealthWithin(es, times, SLOT_MS, since, b)
    {
      var f := 5 * (since / SLOT_MS + 1) + 4;
      assert Uptime(f) == SLOT_MS * (since / SLOT_MS + 1);
      assert since < Uptime(f) <= since + SLOT_MS;
      assert f / 5 < b / 5;
      assert times[f] == Uptime(f);
    }
  }

  /** Every script has its run. */
  lemma TraceOf(sc: Script, n: nat) returns (es: seq<Event>, times: seq<nat>, ss: seq<System>)
    requires sc.Valid()
    ensures es == Events(sc, n) && times == Times(n) && Run(es, times, ss)
    ensures HealthEvery(es, times, SLOT_MS)
  {
    es, times := Events(sc, n), Times(n);
    ss := StatesOf(es);
    HealthRunsInEverySlot(sc, n);
    hide Apply, Boot, HealthEvery, Happens;
    forall i, j | 0 <= i <= j < n
      ensures times[i] <= times[j]
    {
      assert i / 5 <= j / 5;
    }
  }

  /** The slot of task `t`'s last beat before event `k`; 0 also before the first. */
  function LastSlot(sc: Script, t: TaskId, k: nat): nat
    requires sc.Valid()
  {
    var s := k / 5;
    if s >= sc.silent[t] then sc.silent[t] - 1
    else if k % 5 > t || s == 0 then s
    else s - 1
  }

  lemma LastSlotSteps(sc: Script, t: TaskId, k: nat)
    requires sc.Valid() && k > 0
    ensures SLOT_MS * LastSlot(sc, t, k) ==
              if EventAt(sc, k - 1).BeatsFor(t) then Uptime(k - 1) else SLOT_MS * LastSlot(sc, t, k - 1)
  {
    var j := k - 1;
    assert j == 5 * (j / 5) + j % 5;
    assert EventAt(sc, j).BeatsFor(t) <==> j % 5 == t && j / 5 < sc.silent[t];
    if j % 5 < 4 {
      assert k / 5 == j / 5 && k % 5 == j % 5 + 1;
    } else {
      assert k / 5 == j / 5 + 1 && k % 5 == 0;
    }
  }

  lemma {:induction false} LastBeatIsInItsSlot(sc: Script, n: nat, t: TaskId, k: nat)
    requires sc.Valid() && k <= n
    ensures LastBeat(Events(sc, n), Times(n), t, k) == SLOT_MS * LastSlot(sc, t, k)
  {
    hide LastSlot, EventAt, Uptime;
    if k > 0 {
      LastBeatIsInItsSlot(sc, n, t, k - 1);
      LastSlotSteps(sc, t, k);
    } else {
      NoSlotYet(sc, t);
    }
  }

  lemma NoSlotYet(sc: Script, t: TaskId)
    requires sc.Valid()
    ensures LastSlot(sc, t, 0) == 0
  {
  }

  /** In the grace, as the monitor sees it, or with every task's last beat recent enough. */
  ghost predicate Forgiven(sc: Script, k: nat)
    requires sc.Valid()
  {
    Uptime(k) % WORD < STARTUP_GRACE_MS ||
    forall t: TaskId :: (Uptime(k) - SLOT_MS * LastSlot(sc, t, k)) % WORD <= Deadline(t)
  }

  /** While every health tick so far was forgiven, the watchdog is fed by each of them. */
  lemma {:induction false} ForgivenTicksFeed(
      sc: Script, n: nat, es: seq<Event>, times: seq<nat>, ss: seq<System>, k: nat)
    requires sc.Valid() && es == Events(sc, n) && times == Times(n) && Run(es, times, ss) && k <= n
    requires forall j | 0 <= j < k && es[j].HealthTick? :: Forgiven(sc, j)
    ensures ss[k].latch.code == NoFault
    ensures forall j | 0 <= j < k && es[j].HealthTick? :: Feeds(ss[j], es[j])
  {
    hide Apply, Feeds, Forgiven, EventAt;
    if k > 0 {
      ForgivenTicksFeed(sc, n, es, times, ss, k - 1);
      assert Happens(es, ss, k - 1);
      if es[k - 1].HealthTick? {
        ForgivenTickFeeds(sc, n, es, times, ss, k - 1);
      }
      NoOutsideFaults(sc, k - 1);
      CleanKeepsTheLatchClear(ss[k - 1], es[k - 1]);
    }
  }

  lemma NoOutsideFaults(sc: Script, k: nat)
    requires sc.Valid()
    ensures !EventAt(sc, k).FaultRaised?
  {
  }

  lemma ForgivenTickFeeds(sc: Script, n: nat, es: seq<Event>, times: seq<nat>, ss: seq<System>, k: nat)
    requires sc.Valid() && es == Events(sc, n) && times == Times(n) && Run(es, times, ss) && k < n
    requires es[k].HealthTick? && Forgiven(sc, k) && ss[k].latch.code == NoFault
    ensures Feeds(ss[k], es[k])
  {
    hide Apply, Feeds, EventAt, Uptime, LastSlot;
    FeedsAtAnyUptime(es, times, ss, k);
    forall t: TaskId
      ensures WrappedAge(es, times, t, k) == (Uptime(k) - SLOT_MS * LastSlot(sc, t, k)) % WORD
    {
      LastBeatIsInItsSlot(sc, n, t, k);
    }
  }

  // ----- a missed heartbeat does not hold the motors -----

  const TELEMETRY_STOPS := 150
  const DETECTED_IN := 175

  /** A car that drives on, and whose telemetry falls silent after 3 s. */
  const SILENT_TELEMETRY := Script([1000, 1000, 1000, TELEMETRY_STOPS], 300)

  lemma TelemetryIsMissedAt(k: nat)
    requires k <= 5 * DETECTED_IN + 3
    ensures EventAt(SILENT_TELEMETRY, k).HealthTick? ==>
              (Forgiven(SILENT_TELEMETRY, k) <==> k < 5 * DETECTED_IN + 3)
  {
    var sc, s := SILENT_TELEMETRY, k / 5;
    assert k == 5 * s + k % 5 && Uptime(k) == 20 * s;
    if EventAt(sc, k).HealthTick? {
      assert k % 5 >= 3;
      assert LastSlot(sc, 0, k) == s && LastSlot(sc, 1, k) == s && LastSlot(sc, 2, k) == s;
      assert LastSlot(sc, 3, k) == if s < TELEMETRY_STOPS then s else TELEMETRY_STOPS - 1;
      if k == 5 * DETECTED_IN + 3 {
        assert (Uptime(k) - SLOT_MS * LastSlot(sc, TELEMETRY_TASK, k)) % WORD > Deadline(TELEMETRY_TASK);
      }
    }
  }

  /** A run from boot in which everything beats in time and the watchdog is fed, until
      telemetry misses its deadline; the health task stops the motors and latches the
      fault, and the next control tick drives them again. */
  lemma MotorsCanMoveAfterAFault() returns (es: seq<Event>, times: seq<nat>, ss: seq<System>, f: nat)
    ensures Run(es, times, ss) && HealthEvery(es, times, SLOT_MS) && f < |es|
    ensures forall j | 0 <= j < f && es[j].HealthTick? :: Feeds(ss[j], es[j])
    ensures es[f].HealthTick? && RaisesFault(ss[f], es[f])
    ensures times[f] - LastBeat(es, times, TELEMETRY_TASK, f) == 520
    ensures ss[f + 1].latch.code == TaskStale && ss[f + 1].bank.Still()
    ensures ss[|es|].latch == ss[f + 1].latch && !ss[|es|].bank.Still()
  {
    var sc, n := SILENT_TELEMETRY, 5 * (DETECTED_IN + 1) + 3;
    es, times, ss := TraceOf(sc, n);
    f := 5 * DETECTED_IN + 3;
    forall j | 0 <= j < f && es[j].HealthTick?
      ensures Forgiven(sc, j)
    {
      TelemetryIsMissedAt(j);
    }
    ForgivenTicksFeed(sc, n, es, times, ss, f);
    TelemetryIsMissedAt(f);
    LastBeatIsInItsSlot(sc, n, TELEMETRY_TASK, f);
    assert es[f].HealthTick? && times[f] == 3500 && LastSlot(sc, TELEMETRY_TASK, f) == 149;
    assert es[n - 1] == ControlTick(TickAt(3520), 300, 300);
    hide EventAt, LastSlot, Uptime, Forgiven;
    MissedBeatRaises(es, times, ss, TELEMETRY_TASK, f);
    FaultIsForEver(es, times, ss, f + 1, n);
    assert Happens(es, ss, n - 1);
    ApplyMovesMotors(ss[n - 1], es[n - 1]);
  }

  lemma MissedBeatRaises(es: seq<Event>, times: seq<nat>, ss: seq<System>, t: TaskId, f: nat)
    requires Run(es, times, ss) && f < |es| && STARTUP_GRACE_MS <= times[f] < WORD && es[f].HealthTick?
    requires !Punctual(es, times, t, f) && ss[f].latch.code == NoFault
    ensures RaisesFault(ss[f], es[f])
    ensures ss[f + 1].latch.code == TaskStale && ss[f + 1].bank.Still()
  {
    assert Happens(es, ss, f);
    FeedsExactlyWhenPunctual(es, times, ss, f);
    hide StaleMask;
  }

  // ----- the grace reopens when the tick counter wraps -----

  /** The last slot that begins before the counter wraps, 16 ms before. */
  const LAST_SLOT := 214748364

  const SILENT_AT_THE_WRAP := Script([LAST_SLOT + 1, LAST_SLOT + 1, LAST_SLOT + 1, LAST_SLOT + 1], 0)

  lemma TheWrapForgives(k: nat)
    requires k < 5 * (LAST_SLOT + 101) && EventAt(SILENT_AT_THE_WRAP, k).HealthTick?
    ensures Forgiven(SILENT_AT_THE_WRAP, k)
  {
    var sc, s := SILENT_AT_THE_WRAP, k / 5;
    assert k == 5 * s + k % 5 && Uptime(k) == 20 * s;
    if s <= LAST_SLOT {
      assert k % 5 == 4;
      forall t: TaskId
        ensures LastSlot(sc, t, k) == s
      {
      }
    } else {
      assert WORD + 4 <= Uptime(k) < WORD + STARTUP_GRACE_MS;
      assert Uptime(k) % WORD == Uptime(k) - WORD;
    }
  }

  /** A run from boot in which every task beats in every slot for 49.7 days, and all four
      fall silent 16 ms before the counter wraps: the health task goes on feeding the
      watchdog for two more seconds, long after every deadline. */
  lemma GraceReopensAfterTheWrap() returns (es: seq<Event>, times: seq<nat>, ss: seq<System>, last: nat)
    ensures Run(es, times, ss) && HealthEvery(es, times, SLOT_MS) && |es| == last + 1
    ensures forall j | 0 <= j < |es| && es[j].HealthTick? :: Feeds(ss[j], es[j])
    ensures es[last].HealthTick? && times[last] == WORD + 1984
    ensures forall t: TaskId :: times[last] - LastBeat(es, times, t, last) == 2000
    ensures forall j | 0 <= j < |es| && times[j] < WORD && es[j].HealthTick? :: AllPunctual(es, times, j)
  {
    var sc, n := SILENT_AT_THE_WRAP, 5 * (LAST_SLOT + 101);
    last := n - 1;
    es, times, ss := TraceOf(sc, n);
    forall j | 0 <= j < n && es[j].HealthTick?
      ensures Forgiven(sc, j)
    {
      TheWrapForgives(j);
    }
    ForgivenTicksFeed(sc, n, es, times, ss, n);
    forall t: TaskId
      ensures times[last] - LastBeat(es, times, t, last) == 2000
    {
      LastBeatIsInItsSlot(sc, n, t, last);
    }
    forall j | 0 <= j < n && times[j] < WORD && es[j].HealthTick?
      ensures AllPunctual(es, times, j)
    {
      PunctualBeforeTheWrap(n, j);
    }
  }

  lemma PunctualBeforeTheWrap(n: nat, j: nat)
    requires j < n && Uptime(j) < WORD && EventAt(SILENT_AT_THE_WRAP, j).HealthTick?
    ensures AllPunctual(Events(SILENT_AT_THE_WRAP, n), Times(n), j)
  {
    var sc := SILENT_AT_THE_WRAP;
    assert j == 5 * (j / 5) + j % 5;
    assert j / 5 <= LAST_SLOT && j % 5 == 4;
    forall t: TaskId
      ensures Punctual(Events(sc, n), Times(n), t, j)
    {
      LastBeatIsInItsSlot(sc, n, t, j);
    }
    PunctualTasks(Events(sc, n), Times(n), j);
    hide AllPunctual;
  }
}
