/** Quadrature decoding: the interrupt-driven wheel counters of the board and the
    polled driver, against the position of the shaft they watch. */
module QuadratureEncoder {
  import opened Ticks

  /** The two phase pins as a number, phase A first. */
  type Phases = p: nat | p < 4

  /** The decoding table, indexed by the last and the current phases. */
  const TABLE: seq<int> := [0, 1, -1, 0, -1, 0, 0, 1, 1, 0, 0, -1, 0, -1, 1, 0]

  function DecodeStep(last: Phases, current: Phases): (step: int)
    ensures -1 <= step <= 1
  {
    TABLE[4 * last + current]
  }

  /** What the phases show when the shaft stands at `position`: a Gray code. */
  function Gray(position: int): Phases {
    if position % 4 == 0 then 0 else if position % 4 == 1 then 1 else if position % 4 == 2 then 3 else 2
  }

  /** The decoder recovers the movement modulo four, except that it cannot tell a
      movement by two from none. */
  lemma DecodeMatchesMovement(p: int, q: int)
    ensures DecodeStep(Gray(p), Gray(q)) ==
              if (q - p) % 4 == 1 then 1 else if (q - p) % 4 == 3 then -1 else 0
  {
  }

  // ----- one wheel's counter -----

  datatype Wheel = Wheel(last: Phases, total: int, reported: int)

  function Interrupted(w: Wheel, current: Phases): Wheel {
    Wheel(current, w.total + DecodeStep(w.last, current), w.reported)
  }

  function Zeroed(current: Phases): Wheel {
    Wheel(current, 0, 0)
  }

  // ----- the poll diagnostics -----

  /** What polling has seen since the last reset: the latest phases, every phases shown,
      and how often they changed. */
  datatype Diagnostics = Diagnostics(poll: Phases, seen: set<Phases>, changes: Word32)

  function FreshDiagnostics(current: Phases): Diagnostics {
    Diagnostics(current, {current}, 0)
  }

  function Observed(d: Diagnostics, current: Phases): Diagnostics {
    Diagnostics(current, d.seen + {current}, if current != d.poll then (d.changes + 1) % WORD else d.changes)
  }

  ghost function AfterObserving(shown: seq<Phases>, k: nat): Diagnostics
    requires k < |shown|
  {
    if k == 0 then FreshDiagnostics(shown[0]) else Observed(AfterObserving(shown, k - 1), shown[k])
  }

  ghost function ChangesIn(shown: seq<Phases>, k: nat): nat
    requires k < |shown|
  {
    if k == 0 then 0 else ChangesIn(shown, k - 1) + if shown[k] != shown[k - 1] then 1 else 0
  }

  lemma OneMoreChange(n: nat)
    ensures (n % WORD + 1) % WORD == (n + 1) % WORD
  {
    var q, r := n / WORD, n % WORD;
    assert n == q * WORD + r;
    assert (n + 1) / WORD == if r + 1 == WORD then q + 1 else q;
  }

  /** The diagnostics are the history of the polls since the reset at `shown[0]`. */
  lemma {:induction false} DiagnosticsAreHistory(shown: seq<Phases>, k: nat)
    requires k < |shown|
    ensures var d := AfterObserving(shown, k);
      && d.poll == shown[k]
      && d.changes == ChangesIn(shown, k) % WORD
      && (forall p: Phases :: p in d.seen <==> p in shown[..k + 1])
  {
    if k > 0 {
      DiagnosticsAreHistory(shown, k - 1);
      OneMoreChange(ChangesIn(shown, k - 1));
      assert shown[..k + 1] == shown[..k] + [shown[k]];
    } else {
      assert shown[..1] == [shown[0]];
    }
  }

  class BoardEncoder {
    var leftLast: Phases
    var rightLast: Phases
    var leftTotal: int
    var rightTotal: int
    var leftReported: int
    var rightReported: int
    var leftPoll: Phases
    var rightPoll: Phases
    var leftSeen: set<Phases>
    var rightSeen: set<Phases>
    var leftChanges: Word32
    var rightChanges: Word32

    ghost function Left(): Wheel
      reads this`leftLast, this`leftTotal, this`leftReported
    {
      Wheel(leftLast, leftTotal, leftReported)
    }

    ghost function Right(): Wheel
      reads this`rightLast, this`rightTotal, this`rightReported
    {
      Wheel(rightLast, rightTotal, rightReported)
    }

    ghost function LeftSeen(): Diagnostics
      reads this`leftPoll, this`leftSeen, this`leftChanges
    {
      Diagnostics(leftPoll, leftSeen, leftChanges)
    }

    ghost function RightSeen(): Diagnostics
      reads this`rightPoll, this`rightSeen, this`rightChanges
    {
      Diagnostics(rightPoll, rightSeen, rightChanges)
    }

    constructor (left: Phases, right: Phases)
      ensures Left() == Zeroed(left) && Right() == Zeroed(right)
      ensures LeftSeen() == FreshDiagnostics(left) && RightSeen() == FreshDiagnostics(right)
    {
      leftLast, leftTotal, leftReported := left, 0, 0;
      rightLast, rightTotal, rightReported := right, 0, 0;
      leftPoll, leftSeen, leftChanges := left, {left}, 0;
      rightPoll, rightSeen, rightChanges := right, {right}, 0;
    }

    /** The fast task's poll only watches: the counts belong to the interrupt. */
    method Poll(left: Phases, right: Phases)
      modifies this`leftPoll, this`leftSeen, this`leftChanges, this`rightPoll, this`rightSeen, this`rightChanges
      ensures LeftSeen() == Observed(old(LeftSeen()), left) && RightSeen() == Observed(old(RightSeen()), right)
    {
      leftSeen, rightSeen := leftSeen + {left}, rightSeen + {right};
      if left != leftPoll {
        leftChanges := (leftChanges + 1) % WORD;
        leftPoll := left;
      }
      if right != rightPoll {
        rightChanges := (rightChanges + 1) % WORD;
        rightPoll := right;
      }
    }

    /** The group interrupt: only wheels with a pending edge are sampled. */
    method Interrupt(leftPending: bool, rightPending: bool, left: Phases, right: Phases)
      modifies this`leftLast, this`leftTotal, this`rightLast, this`rightTotal
      ensures Left() == if leftPending then Interrupted(old(Left()), left) else old(Left())
      ensures Right() == if rightPending then Interrupted(old(Right()), right) else old(Right())
    {
      if leftPending {
        leftTotal := leftTotal + DecodeStep(leftLast, left);
        leftLast := left;
      }
      if rightPending {
        rightTotal := rightTotal + DecodeStep(rightLast, right);
        rightLast := right;
      }
    }

    /** Channel 0 is the left wheel, every other channel the right one. */
    method GetDelta(ch: nat) returns (delta: int)
      modifies this`leftReported, this`rightReported
      ensures var w := old(if ch == 0 then Left() else Right()); delta == w.total - w.reported
      ensures Left() == if ch == 0 then old(Left()).(reported := old(leftTotal)) else old(Left())
      ensures Right() == if ch != 0 then old(Right()).(reported := old(rightTotal)) else old(Right())
    {
      if ch == 0 {
        delta := leftTotal - leftReported;
        leftReported := leftTotal;
      } else {
        delta := rightTotal - rightReported;
        rightReported := rightTotal;
      }
    }

    /** A reset samples the wheel's phases and starts counts and diagnostics afresh. */
    method Reset(ch: nat, phases: Phases)
      modifies this
      ensures Left() == if ch == 0 then Zeroed(phases) else old(Left())
      ensures Right() == if ch != 0 then Zeroed(phases) else old(Right())
      ensures LeftSeen() == if ch == 0 then FreshDiagnostics(phases) else old(LeftSeen())
      ensures RightSeen() == if ch != 0 then FreshDiagnostics(phases) else old(RightSeen())
    {
      if ch == 0 {
        leftLast, leftTotal, leftReported := phases, 0, 0;
        leftPoll, leftSeen, leftChanges := phases, {phases}, 0;
      } else {
        rightLast, rightTotal, rightReported := phases, 0, 0;
        rightPoll, rightSeen, rightChanges := phases, {phases}, 0;
      }
    }
  }

  // ----- a wheel and its shaft, in any interleaving -----

  /** The shaft moves by itself; edges, reads and resets happen in any order. */
  datatype Event = Moves(steps: int) | EdgeHandled | DeltaRead | WasReset

  /** `handled` is the shaft position the counter last sampled, `zero` the position
      at the last reset, `slips` the movements by an odd number of double steps the
      counter missed since then, and `returned` the deltas handed out since then. */
  datatype Scene = Scene(wheel: Wheel, position: int, handled: int, zero: int, slips: nat, returned: int)

  function Placed(position: int): Scene {
    Scene(Zeroed(Gray(position)), position, position, position, 0, 0)
  }

  function After(s: Scene, e: Event): Scene {
    match e
    case Moves(steps) => s.(position := s.position + steps)
    case EdgeHandled =>
      s.(wheel := Interrupted(s.wheel, Gray(s.position)), handled := s.position,
         slips := s.slips + if (s.position - s.handled) % 4 == 2 then 1 else 0)
    case DeltaRead =>
      s.(wheel := s.wheel.(reported := s.wheel.total), returned := s.returned + s.wheel.total - s.wheel.reported)
    case WasReset => Placed(s.position)
  }

  ghost predicate Run(es: seq<Event>, ss: seq<Scene>) {
    && |ss| == |es| + 1
    && ss[0] == Placed(ss[0].position)
    && forall k | 0 <= k < |es| :: Happens(es, ss, k)
  }

  ghost predicate Happens(es: seq<Event>, ss: seq<Scene>, k: nat)
    requires k < |es| && |ss| == |es| + 1
  {
    ss[k + 1] == After(ss[k], es[k])
  }

  /** The events `0 .. k - 1` never let the shaft run two steps ahead of the counter. */
  ghost predicate KeepsUp(es: seq<Event>, ss: seq<Scene>, k: nat)
    requires |ss| == |es| + 1 && k <= |es|
  {
    forall j | 0 <= j < k && es[j].EdgeHandled? :: -1 <= ss[j].position - ss[j].handled <= 1
  }

  lemma AfterKeepsSampling(s: Scene, e: Event)
    requires s.wheel.last == Gray(s.handled)
    ensures After(s, e).wheel.last == Gray(After(s, e).handled)
    ensures e.EdgeHandled? ==>
              After(s, e).wheel.total - s.wheel.total ==
              if (s.position - s.handled) % 4 == 1 then 1 else if (s.position - s.handled) % 4 == 3 then -1 else 0
  {
    DecodeMatchesMovement(s.handled, s.position);
  }

  lemma {:induction false} SamplesTheShaft(es: seq<Event>, ss: seq<Scene>, k: nat)
    requires Run(es, ss) && k <= |es|
    ensures ss[k].wheel.last == Gray(ss[k].handled)
  {
    hide After, Gray;
    if k > 0 {
      SamplesTheShaft(es, ss, k - 1);
      assert Happens(es, ss, k - 1);
      AfterKeepsSampling(ss[k - 1], es[k - 1]);
    } else {
      assert ss[0].handled == ss[0].position;
    }
  }

  /** If the shaft moves at most one step between handled edges, the total is exactly
      its displacement since the reset, as last sampled, under any interleaving. */
  lemma {:induction false} TotalIsTheDisplacement(es: seq<Event>, ss: seq<Scene>, k: nat)
    requires Run(es, ss) && k <= |es| && KeepsUp(es, ss, k)
    ensures ss[k].wheel.total == ss[k].handled - ss[k].zero
  {
    hide Gray, DecodeStep;
    if k > 0 {
      TotalIsTheDisplacement(es, ss, k - 1);
      assert Happens(es, ss, k - 1);
      SamplesTheShaft(es, ss, k - 1);
      AfterKeepsSampling(ss[k - 1], es[k - 1]);
    }
  }

  /** What the total lacks of the displacement and of two for every slip. */
  ghost function Deficit(s: Scene): int {
    s.wheel.total - (s.handled - s.zero) - 2 * s.slips
  }

  /** A decoded step and a counted slip account for a movement up to whole turns of the
      Gray code. */
  lemma StepAccountsForMovement(d: int, step: int, slip: int)
    requires step == if d % 4 == 1 then 1 else if d % 4 == 3 then -1 else 0
    requires slip == if d % 4 == 2 then 1 else 0
    ensures (step - d - 2 * slip) % 4 == 0
  {
    var q, r := d / 4, d % 4;
    assert d == 4 * q + r;
    assert step - d - 2 * slip == 4 * (-q - if r == 2 then 1 else if r == 3 then 1 else 0);
  }

  lemma MultiplesAdd(a: int, b: int)
    requires a % 4 == 0 && b % 4 == 0
    ensures (a + b) % 4 == 0
  {
    assert a + b == 4 * (a / 4 + b / 4);
  }

  lemma EdgeMovesTheDeficit(s: Scene)
    ensures var t, slip := After(s, EdgeHandled), if (s.position - s.handled) % 4 == 2 then 1 else 0;
      Deficit(t) == Deficit(s) + (t.wheel.total - s.wheel.total - (s.position - s.handled) - 2 * slip)
  {
    hide Gray, DecodeStep;
  }

  lemma OthersKeepTheDeficit(s: Scene, e: Event)
    requires !e.EdgeHandled?
    ensures Deficit(After(s, e)) == if e.WasReset? then 0 else Deficit(s)
  {
    hide Gray, DecodeStep;
  }

  lemma DeficitKeepsItsResidue(s: Scene, e: Event)
    requires s.wheel.last == Gray(s.handled) && Deficit(s) % 4 == 0
    ensures Deficit(After(s, e)) % 4 == 0
  {
    hide Gray, DecodeStep, After, Deficit;
    if e.EdgeHandled? {
      AfterKeepsSampling(s, e);
      EdgeMovesTheDeficit(s);
      var d := s.position - s.handled;
      var step, slip := After(s, e).wheel.total - s.wheel.total, if d % 4 == 2 then 1 else 0;
      StepAccountsForMovement(d, step, slip);
      MultiplesAdd(Deficit(s), step - d - 2 * slip);
    } else {
      OthersKeepTheDeficit(s, e);
    }
  }

  lemma {:induction false} DeficitIsAMultipleOfFour(es: seq<Event>, ss: seq<Scene>, k: nat)
    requires Run(es, ss) && k <= |es|
    ensures Deficit(ss[k]) % 4 == 0
  {
    if k > 0 {
      hide After, Deficit;
      DeficitIsAMultipleOfFour(es, ss, k - 1);
      assert Happens(es, ss, k - 1);
      SamplesTheShaft(es, ss, k - 1);
      DeficitKeepsItsResidue(ss[k - 1], es[k - 1]);
    }
  }

  lemma Residues(gap: int, slips: int)
    requires (gap - 2 * slips) % 4 == 0
    ensures gap % 2 == 0 && (gap % 4 == 0 <==> slips % 2 == 0)
  {
    var q := (gap - 2 * slips) / 4;
    assert gap == 4 * q + 2 * slips;
  }

  /** Whatever edges are missed, the total and the displacement differ by two for
      every slip, modulo four: their parities always agree. */
  lemma MissedEdgesKeepParity(es: seq<Event>, ss: seq<Scene>, k: nat)
    requires Run(es, ss) && k <= |es|
    ensures var gap := ss[k].wheel.total - (ss[k].handled - ss[k].zero);
      && (gap - 2 * ss[k].slips) % 4 == 0
      && gap % 2 == 0
      && (gap % 4 == 0 <==> ss[k].slips % 2 == 0)
  {
    DeficitIsAMultipleOfFour(es, ss, k);
    Residues(ss[k].wheel.total - (ss[k].handled - ss[k].zero), ss[k].slips);
  }

  /** The deltas returned since the reset add up to the reported total, and with
      what is still unreported to the total. */
  lemma {:induction false} DeltasAddUp(es: seq<Event>, ss: seq<Scene>, k: nat)
    requires Run(es, ss) && k <= |es|
    ensures ss[k].returned == ss[k].wheel.reported
    ensures k > 0 && es[k - 1].DeltaRead? ==> ss[k].returned == ss[k].wheel.total
  {
    hide Gray, DecodeStep;
    if k > 0 {
      DeltasAddUp(es, ss, k - 1);
      assert Happens(es, ss, k - 1);
    }
  }

  // ----- the polled driver -----

  datatype Polled = Polled(last: Phases, delta: int, total: int)

  function PollOnce(p: Polled, current: Phases, direction: int): Polled {
    var step := DecodeStep(p.last, current) * direction;
    Polled(current, p.delta + step, p.total + step)
  }

  class QuadDriver {
    var direction: int
    var lastState: Phases
    var delta: int
    var total: int

    ghost function State(): Polled
      reads this
    {
      Polled(lastState, delta, total)
    }

    /** A zero direction means forward. */
    constructor (dir: int, phases: Phases)
      ensures direction == (if dir == 0 then 1 else dir) && State() == Polled(phases, 0, 0)
    {
      direction := if dir == 0 then 1 else dir;
      delta, total, lastState := 0, 0, phases;
    }

    method Poll(current: Phases)
      modifies this`lastState, this`delta, this`total
      ensures State() == PollOnce(old(State()), current, direction)
    {
      var step := DecodeStep(lastState, current) * direction;
      lastState := current;
      delta := delta + step;
      total := total + step;
    }

    method GetDelta() returns (d: int)
      modifies this`delta
      ensures d == old(delta) && State() == old(State()).(delta := 0)
    {
      d := delta;
      delta := 0;
    }

    method Reset(phases: Phases)
      modifies this`lastState, this`delta, this`total
      ensures State() == Polled(phases, 0, 0)
    {
      delta, total, lastState := 0, 0, phases;
    }
  }

  /** A series of polls of a shaft that stands at `positions[k]` at poll `k`, the first
      being the reset, with a read of the delta after the polls in `readAt`. */
  ghost function AfterPolls(positions: seq<int>, readAt: set<nat>, direction: int, k: nat): (Polled, int)
    requires k < |positions|
  {
    if k == 0 then (Polled(Gray(positions[0]), 0, 0), 0)
    else
      var (before, sum) := AfterPolls(positions, readAt, direction, k - 1);
      var p := PollOnce(before, Gray(positions[k]), direction);
      if k in readAt then (p.(delta := 0), sum + p.delta) else (p, sum)
  }

  lemma PollTracks(p: Polled, from: int, to: int, zero: int, direction: int)
    requires p.last == Gray(from) && p.total == direction * (from - zero) && -1 <= to - from <= 1
    ensures PollOnce(p, Gray(to), direction).last == Gray(to)
    ensures PollOnce(p, Gray(to), direction).total == direction * (to - zero)
    ensures PollOnce(p, Gray(to), direction).delta - p.delta == PollOnce(p, Gray(to), direction).total - p.total
  {
    DecodeMatchesMovement(from, to);
    hide Gray, DecodeStep;
    var step := to - from;
    assert step * direction + direction * (from - zero) == direction * (to - zero);
  }

  /** Polled often enough, the driver's total is the signed displacement, and the
      deltas read plus the one pending always add up to it. */
  lemma {:induction false} PolledTotalIsTheDisplacement(
      positions: seq<int>, readAt: set<nat>, direction: int, k: nat)
    requires k < |positions|
    requires forall j | 0 < j <= k :: -1 <= positions[j] - positions[j - 1] <= 1
    ensures var (p, sum) := AfterPolls(positions, readAt, direction, k);
            && p.last == Gray(positions[k])
            && p.total == direction * (positions[k] - positions[0])
            && sum + p.delta == p.total
  {
    hide Gray, DecodeStep, PollOnce;
    if k > 0 {
      PolledTotalIsTheDisplacement(positions, readAt, direction, k - 1);
      var (before, sum) := AfterPolls(positions, readAt, direction, k - 1);
      PollTracks(before, positions[k - 1], positions[k], positions[0], direction);
    }
  }
}
