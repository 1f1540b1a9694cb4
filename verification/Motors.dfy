/** The two-channel motor bank: signed duties, the bridge mode of each channel and
    the tick of the last duty command, which the safety tick turns into a
    dead-man timer. */
module Motors {
  import opened Ticks

  const PWM_MAX := 1000
  const COMMAND_TIMEOUT_MS := 100

  datatype Bridge = Coasting | Braking | Driving

  datatype Channel = Channel(duty: int, bridge: Bridge)

  datatype Bank = Bank(left: Channel, right: Channel, lastCommand: Tick)
  {
    predicate Still() {
      left.duty == 0 && right.duty == 0
    }

    predicate Braked() {
      left == Channel(0, Braking) && right == Channel(0, Braking)
    }
  }

  function PowerOn(): Bank {
    Bank(Channel(0, Coasting), Channel(0, Coasting), 0)
  }

  function Clamp(duty: int): int {
    if duty > PWM_MAX then PWM_MAX else if duty < -PWM_MAX then -PWM_MAX else duty
  }

  /** A zero duty releases the bridge, any other duty drives it. */
  function Commanded(duty: int): Channel {
    Channel(Clamp(duty), if Clamp(duty) == 0 then Coasting else Driving)
  }

  /** Channel numbers above 1 address the right wheel. */
  function WithChannel(b: Bank, ch: nat, c: Channel): Bank {
    if ch == 0 then b.(left := c) else b.(right := c)
  }

  function SignedDuty(b: Bank, ch: nat, duty: int, millis: Tick): Bank {
    WithChannel(b, ch, Commanded(duty)).(lastCommand := millis)
  }

  function ForwardDuty(b: Bank, ch: nat, duty: int, millis: Tick): Bank {
    SignedDuty(b, ch, if duty < 0 then 0 else duty, millis)
  }

  /** Braking neither counts as a command nor restarts the dead-man timer. */
  function BrakeChannel(b: Bank, ch: nat): Bank {
    WithChannel(b, ch, Channel(0, Braking))
  }

  function SignedPair(b: Bank, l: int, r: int, millis: Tick): Bank {
    SignedDuty(SignedDuty(b, 0, l, millis), 1, r, millis)
  }

  function ForwardPair(b: Bank, l: int, r: int, millis: Tick): Bank {
    ForwardDuty(ForwardDuty(b, 0, l, millis), 1, r, millis)
  }

  function BrakePair(b: Bank): Bank {
    BrakeChannel(BrakeChannel(b, 0), 1)
  }

  function Safety(b: Bank, now: Tick): Bank {
    if !b.Still() && Since(now, b.lastCommand) > COMMAND_TIMEOUT_MS
    then b.(left := Channel(0, Coasting), right := Channel(0, Coasting))
    else b
  }

  class MotorBank {
    var left: Channel
    var right: Channel
    var lastCommand: Tick

    ghost function State(): Bank
      reads this
    {
      Bank(left, right, lastCommand)
    }

    constructor ()
      ensures State() == PowerOn()
    {
      left, right, lastCommand := Channel(0, Coasting), Channel(0, Coasting), 0;
    }

    method SetSignedDuty(ch: nat, duty: int, millis: Tick)
      modifies this
      ensures State() == SignedDuty(old(State()), ch, duty, millis)
    {
      var d := duty;
      if d > PWM_MAX { d := PWM_MAX; }
      if d < -PWM_MAX { d := -PWM_MAX; }
      var c := Channel(d, if d == 0 then Coasting else Driving);
      if ch == 0 { left := c; } else { right := c; }
      lastCommand := millis;
    }

    method SetDuty(ch: nat, duty: int, millis: Tick)
      modifies this
      ensures State() == ForwardDuty(old(State()), ch, duty, millis)
    {
      var d := duty;
      if d > PWM_MAX { d := PWM_MAX; }
      if d < 0 { d := 0; }
      SetSignedDuty(ch, d, millis);
    }

    method Brake(ch: nat)
      modifies this
      ensures State() == BrakeChannel(old(State()), ch)
    {
      if ch == 0 { left := Channel(0, Braking); } else { right := Channel(0, Braking); }
    }

    method SafetyTick(now: Tick)
      modifies this
      ensures State() == Safety(old(State()), now)
    {
      if (left.duty != 0 || right.duty != 0) && Since(now, lastCommand) > COMMAND_TIMEOUT_MS {
        left := Channel(0, Coasting);
        right := Channel(0, Coasting);
      }
    }
  }
}
