/** The health monitor: the tick of every monitored task's last beat, checked against
    a deadline per task. */
module Health {
  import opened Ticks

  const TASK_COUNT := 4
  const STARTUP_GRACE_MS := 2000

  /** The monitored tasks, in order: IMU, fast input, control, telemetry. */
  type TaskId = t: nat | t < TASK_COUNT

  const IMU_TASK: TaskId := 0
  const FAST_TASK: TaskId := 1
  const CONTROL_TASK: TaskId := 2
  const TELEMETRY_TASK: TaskId := 3

  function Deadline(t: TaskId): nat {
    if t == FAST_TASK then 50 else if t == TELEMETRY_TASK then 500 else 100
  }

  predicate Stale(beats: seq<Tick>, now: Tick, t: TaskId)
    requires |beats| == TASK_COUNT
  {
    Since(now, beats[t]) > Deadline(t)
  }

  predicate InGrace(started: Tick, now: Tick) {
    Since(now, started) < STARTUP_GRACE_MS
  }

  /** `1u << task`. */
  function TaskBit(t: TaskId): Word32 {
    if t == 0 then 1 else if t == 1 then 2 else if t == 2 then 4 else 8
  }

  /** `mask & (1u << task)` is not zero. */
  predicate HasBit(mask: Word32, t: TaskId) {
    (mask / TaskBit(t)) % 2 == 1
  }

  lemma AddingABit(mask: Word32, t: TaskId, u: TaskId)
    requires mask < 16 && !HasBit(mask, t)
    ensures mask + TaskBit(t) < 16
    ensures HasBit(mask + TaskBit(t), u) <==> u == t || HasBit(mask, u)
  {
    hide HasBit;
    var b0, b1, b2, b3 := Decomposed(mask);
    BitsOf(b0, b1, b2, b3, t);
    BitsOf(b0, b1, b2, b3, u);
    match t {
      case 0 => BitsOf(1, b1, b2, b3, u);
      case 1 => BitsOf(b0, 1, b2, b3, u);
      case 2 => BitsOf(b0, b1, 1, b3, u);
      case _ => BitsOf(b0, b1, b2, 1, u);
    }
  }

  lemma Decomposed(mask: Word32) returns (b0: nat, b1: nat, b2: nat, b3: nat)
    requires mask < 16
    ensures b0 < 2 && b1 < 2 && b2 < 2 && b3 < 2
    ensures mask == b0 + 2 * b1 + 4 * b2 + 8 * b3
  {
    b0, b1, b2, b3 := mask % 2, (mask / 2) % 2, (mask / 4) % 2, (mask / 8) % 2;
  }

  lemma BitsOf(b0: nat, b1: nat, b2: nat, b3: nat, u: TaskId)
    requires b0 < 2 && b1 < 2 && b2 < 2 && b3 < 2
    ensures HasBit(b0 + 2 * b1 + 4 * b2 + 8 * b3, u) <==>
      (if u == 0 then b0 else if u == 1 then b1 else if u == 2 then b2 else b3) == 1
  {
  }

  /** `mask | (1u << task)`. */
  function WithBit(mask: Word32, t: TaskId): (m: nat)
    requires mask < 16
    ensures m < 16
    ensures forall u: TaskId :: HasBit(m, u) <==> u == t || HasBit(mask, u)
  {
    if HasBit(mask, t) then mask
    else
      assert mask + TaskBit(t) < 16 by { AddingABit(mask, t, 0); }
      assert forall u: TaskId :: HasBit(mask + TaskBit(t), u) <==> u == t || HasBit(mask, u) by {
        forall u: TaskId
          ensures HasBit(mask + TaskBit(t), u) <==> u == t || HasBit(mask, u)
        {
          AddingABit(mask, t, u);
        }
      }
      mask + TaskBit(t)
  }

  function MaskTo(beats: seq<Tick>, now: Tick, n: nat): (m: nat)
    requires |beats| == TASK_COUNT && n <= TASK_COUNT
    ensures m < 16
    ensures forall t: TaskId :: HasBit(m, t) <==> t < n && Stale(beats, now, t)
  {
    if n == 0 then 0
    else if Stale(beats, now, n - 1) then WithBit(MaskTo(beats, now, n - 1), n - 1)
    else MaskTo(beats, now, n - 1)
  }

  function StaleMask(beats: seq<Tick>, started: Tick, now: Tick): (m: Word32)
    requires |beats| == TASK_COUNT
  {
    if InGrace(started, now) then 0 else MaskTo(beats, now, TASK_COUNT)
  }

  /** The mask names exactly the stale tasks, and none during the startup grace. */
  ghost predicate MaskOf(mask: Word32, beats: seq<Tick>, started: Tick, now: Tick)
    requires |beats| == TASK_COUNT
  {
    && mask < 16
    && forall t: TaskId :: HasBit(mask, t) <==> !InGrace(started, now) && Stale(beats, now, t)
  }

  lemma NoBitsIsZero(mask: Word32)
    requires mask < 16
    ensures mask == 0 <==> forall t: TaskId :: !HasBit(mask, t)
  {
    if forall t: TaskId :: !HasBit(mask, t) {
      assert !HasBit(mask, 0) && !HasBit(mask, 1) && !HasBit(mask, 2) && !HasBit(mask, 3);
    }
  }

  /** Two masks that name the same tasks are equal. */
  lemma MaskIsUnique(a: Word32, b: Word32)
    requires a < 16 && b < 16 && forall t: TaskId :: HasBit(a, t) <==> HasBit(b, t)
    ensures a == b
  {
    assert HasBit(a, 0) <==> HasBit(b, 0);
    assert HasBit(a, 1) <==> HasBit(b, 1);
    assert HasBit(a, 2) <==> HasBit(b, 2);
    assert HasBit(a, 3) <==> HasBit(b, 3);
  }

  lemma StaleMaskNamesTheStale(beats: seq<Tick>, started: Tick, now: Tick)
    requires |beats| == TASK_COUNT
    ensures MaskOf(StaleMask(beats, started, now), beats, started, now)
    ensures StaleMask(beats, started, now) == 0 <==>
              InGrace(started, now) || forall t: TaskId :: !Stale(beats, now, t)
  {
    NoBitsIsZero(StaleMask(beats, started, now));
    hide Stale;
  }

  class HealthMonitor {
    var lastBeat: array<Tick>
    var started: Tick

    ghost predicate Valid()
      reads this
    {
      lastBeat.Length == TASK_COUNT
    }

    constructor (now: Tick)
      ensures Valid() && fresh(lastBeat) && started == now
      ensures lastBeat[..] == seq(TASK_COUNT, i => now)
    {
      started := now;
      var beats := new Tick[TASK_COUNT];
      for i := 0 to TASK_COUNT
        invariant forall j | 0 <= j < i :: beats[j] == now
      {
        beats[i] := now;
      }
      lastBeat := beats;
    }

    /** Beats of unknown tasks are ignored. */
    method Beat(task: nat, now: Tick)
      requires Valid()
      modifies lastBeat
      ensures lastBeat[..] == if task < TASK_COUNT then old(lastBeat[..])[task := now] else old(lastBeat[..])
    {
      if task < TASK_COUNT {
        lastBeat[task] := now;
      }
    }

    method Check(now: Tick) returns (healthy: bool, mask: Word32)
      requires Valid()
      ensures mask == StaleMask(lastBeat[..], started, now)
      ensures healthy <==> mask == 0
    {
      mask := 0;
      if Since(now, started) >= STARTUP_GRACE_MS {
        for i := 0 to TASK_COUNT
          invariant mask == MaskTo(lastBeat[..], now, i)
        {
          if Since(now, lastBeat[i]) > Deadline(i) {
            mask := WithBit(mask, i);
          }
        }
      }
      healthy := mask == 0;
    }
  }
}
