/** The fault manager: a latch that keeps the first fault for ever and stops the
    motors whenever any fault is raised. */
module Faults {
  import opened Ticks
  import opened Motors

  datatype FaultCode = NoFault | TaskStale | ImuFailure | StackFault | HeapFault

  datatype Latch = Latch(code: FaultCode, detail: Word32)

  function Latched(l: Latch, code: FaultCode, detail: Word32): Latch {
    if l.code == NoFault then Latch(code, detail) else l
  }

  class FaultManager {
    var code: FaultCode
    var detail: Word32
    const motors: MotorBank

    ghost function State(): Latch
      reads this
    {
      Latch(code, detail)
    }

    constructor (bank: MotorBank)
      ensures State() == Latch(NoFault, 0) && motors == bank
    {
      code, detail := NoFault, 0;
      motors := bank;
    }

    method Raise(fault: FaultCode, info: Word32, millis: Tick)
      modifies this, motors
      ensures State() == Latched(old(State()), fault, info)
      ensures motors.State() == ForwardPair(old(motors.State()), 0, 0, millis)
    {
      motors.SetDuty(0, 0, millis);
      motors.SetDuty(1, 0, millis);
      if code == NoFault {
        detail := info;
        code := fault;
      }
    }

    method IsActive() returns (active: bool)
      ensures active <==> State().code != NoFault
    {
      active := code != NoFault;
    }
  }
}
