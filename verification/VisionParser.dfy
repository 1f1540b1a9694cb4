/** The byte-fed parser of the vision link's frames
    `AA 55 len type payload xor 0D 0A`. */
module VisionParser {
  import opened Bytes
  import opened Ticks

  const MAX_PAYLOAD := 32
  const SYNC_1: Byte := 0xAA
  const SYNC_2: Byte := 0x55
  const CR: Byte := 0x0D
  const LF: Byte := 0x0A
  const TARGET_FRAME: Byte := 1
  const COMMAND_FRAME: Byte := 2

  datatype Target = Target(centerX: int, centerY: int, classId: Byte, area: int, ts: Tick)

  datatype Event =
    | NoEvent
    | TargetSeen(target: Target)
    | CommandReceived(command: Byte)

  datatype ParseState = Sync1 | Sync2 | Len | Type | Data | Crc | Cr | Lf

  datatype Parser = Parser(state: ParseState, len: nat, frameType: Byte, index: nat, crc: Byte,
                           payload: seq<Byte>, target: Target, hasNew: bool)
  {
    ghost predicate Valid() {
      && |payload| == MAX_PAYLOAD
      && index <= MAX_PAYLOAD && len <= MAX_PAYLOAD
      && (state != Type ==> index <= len)
      && (state == Data ==> index < len)
      && (state == Type || state == Crc || state == Cr || state == Lf ==> 1 <= len)
      && (state == Crc || state == Cr || state == Lf ==> index == len)
    }
  }

  function Blank(): Parser {
    Parser(Sync1, 0, 0, 0, 0, seq(MAX_PAYLOAD, i => 0), Target(0, 0, 0, 0, 0), false)
  }

  /** A byte and the time it arrived. */
  datatype Rx = Rx(byte: Byte, now: Tick)

  function U16(lo: Byte, hi: Byte): int {
    lo + 256 * hi
  }

  /** `(int16_t)` of an unsigned 16-bit value. */
  function S16(lo: Byte, hi: Byte): int {
    if U16(lo, hi) >= 32768 then U16(lo, hi) - 65536 else U16(lo, hi)
  }

  function TargetOf(payload: seq<Byte>, now: Tick): Target
    requires |payload| >= 7
  {
    Target(S16(payload[0], payload[1]), S16(payload[2], payload[3]), payload[4], U16(payload[5], payload[6]), now)
  }

  /** The frames the dispatcher knows. */
  predicate Recognised(frameType: Byte, payload: seq<Byte>) {
    (frameType == TARGET_FRAME && |payload| >= 7) || (frameType == COMMAND_FRAME && |payload| >= 1)
  }

  /** What a recognised frame means. */
  function Meaning(frameType: Byte, payload: seq<Byte>, now: Tick): Event {
    if frameType == TARGET_FRAME && |payload| >= 7 then TargetSeen(TargetOf(payload, now))
    else if frameType == COMMAND_FRAME && |payload| >= 1 then CommandReceived(payload[0])
    else NoEvent
  }

  /** A complete frame has been received. */
  predicate Accepts(p: Parser, rx: Rx)
    requires p.Valid()
  {
    p.state == Lf && rx.byte == LF && Recognised(p.frameType, p.payload[..p.len])
  }

  function Emitted(p: Parser, rx: Rx): Event
    requires p.Valid()
  {
    if p.state == Lf && rx.byte == LF then Meaning(p.frameType, p.payload[..p.len], rx.now) else NoEvent
  }

  function Next(p: Parser, rx: Rx): (q: Parser)
    requires p.Valid()
    ensures q.Valid()
  {
    var b := rx.byte;
    match p.state
    case Sync1 => if b == SYNC_1 then p.(state := Sync2) else p
    case Sync2 => p.(state := if b == SYNC_2 then Len else Sync1)
    case Len =>
      if b == 0 || b > MAX_PAYLOAD then p.(state := Sync1)
      else p.(len := b, crc := b, state := Type)
    case Type => p.(frameType := b, crc := Xor(p.crc, b), index := 0, state := Data)
    case Data =>
      p.(payload := p.payload[p.index := b], crc := Xor(p.crc, b), index := p.index + 1,
         state := if p.index + 1 >= p.len then Crc else Data)
    case Crc => p.(state := if b == p.crc then Cr else Sync1)
    case Cr => p.(state := if b == CR then Lf else Sync1)
    case Lf =>
      if b == LF && p.frameType == TARGET_FRAME && p.len >= 7
      then p.(state := Sync1, target := TargetOf(p.payload[..p.len], rx.now), hasNew := true)
      else p.(state := Sync1)
  }

  /** The payload index exceeds the length exactly after a length byte that is smaller
      than the index the previous frame left behind; the type byte clears it. */
  lemma LengthByteMayUndercut(p: Parser, rx: Rx)
    requires p.Valid()
    ensures Next(p, rx).index > Next(p, rx).len <==>
              p.state == Len && 1 <= rx.byte <= MAX_PAYLOAD && rx.byte < p.index
    ensures Next(p, rx).index > Next(p, rx).len ==> Next(p, rx).state == Type
  {
    hide Xor, TargetOf;
  }

  class VisionLink {
    var state: ParseState
    var len: nat
    var frameType: Byte
    var index: nat
    var crc: Byte
    const payload: array<Byte>
    var target: Target
    var freshTarget: bool

    ghost function State(): Parser
      reads this, payload
    {
      Parser(state, len, frameType, index, crc, payload[..], target, freshTarget)
    }

    ghost predicate Valid()
      reads this, payload
    {
      State().Valid()
    }

    constructor ()
      ensures Valid() && fresh(payload) && State() == Blank()
    {
      state, len, frameType, index, crc := Sync1, 0, 0, 0, 0;
      payload := new Byte[MAX_PAYLOAD](i => 0);
      target, freshTarget := Target(0, 0, 0, 0, 0), false;
    }

    /** Dispatches the frame just completed. */
    method Dispatch(now: Tick) returns (accepted: bool, event: Event)
      requires Valid() && len == index
      modifies this`target, this`freshTarget
      ensures accepted <==> Recognised(frameType, payload[..len])
      ensures event == Meaning(frameType, payload[..len], now)
      ensures State() == if frameType == TARGET_FRAME && len >= 7
                         then old(State()).(target := TargetOf(payload[..len], now), hasNew := true)
                         else old(State())
    {
      if frameType == TARGET_FRAME && len >= 7 {
        target := Target(S16(payload[0], payload[1]), S16(payload[2], payload[3]),
                         payload[4], U16(payload[5], payload[6]), now);
        freshTarget := true;
        return true, TargetSeen(target);
      }
      if frameType == COMMAND_FRAME && len >= 1 {
        return true, CommandReceived(payload[0]);
      }
      return false, NoEvent;
    }

    method Synchronise(byte: Byte, now: Tick)
      requires Valid() && (state == Sync1 || state == Sync2)
      modifies this
      ensures State() == Next(old(State()), Rx(byte, now))
    {
      if state == Sync1 {
        if byte == SYNC_1 { state := Sync2; }
      } else {
        state := if byte == SYNC_2 then Len else Sync1;
      }
    }

    method AcceptLength(byte: Byte, now: Tick)
      requires Valid() && state == Len
      modifies this
      ensures State() == Next(old(State()), Rx(byte, now))
    {
      if byte == 0 || byte > MAX_PAYLOAD {
        state := Sync1;
      } else {
        len := byte;
        crc := byte;
        state := Type;
      }
    }

    method AcceptType(byte: Byte, now: Tick)
      requires Valid() && state == Type
      modifies this
      ensures State() == Next(old(State()), Rx(byte, now))
    {
      frameType := byte;
      crc := Xor(crc, byte);
      index := 0;
      state := Data;
    }

    method Store(byte: Byte, now: Tick)
      requires Valid() && state == Data
      modifies this, payload
      ensures State() == Next(old(State()), Rx(byte, now))
    {
      if index < len {
        payload[index] := byte;
        index := index + 1;
        crc := Xor(crc, byte);
      }
      if index >= len { state := Crc; }
    }

    method CheckTrailer(byte: Byte, now: Tick)
      requires Valid() && (state == Crc || state == Cr)
      modifies this
      ensures State() == Next(old(State()), Rx(byte, now))
    {
      if state == Crc {
        state := if byte == crc then Cr else Sync1;
      } else {
        state := if byte == CR then Lf else Sync1;
      }
    }

    method EndFrame(byte: Byte, now: Tick) returns (accepted: bool, event: Event)
      requires Valid() && state == Lf
      modifies this
      ensures State() == Next(old(State()), Rx(byte, now))
      ensures accepted <==> Accepts(old(State()), Rx(byte, now))
      ensures event == Emitted(old(State()), Rx(byte, now))
    {
      accepted, event := false, NoEvent;
      state := Sync1;
      if byte == LF {
        accepted, event := Dispatch(now);
      }
    }

    method OnRxByte(byte: Byte, now: Tick) returns (accepted: bool, event: Event)
      requires Valid()
      modifies this, payload
      ensures Valid() && State() == Next(old(State()), Rx(byte, now))
      ensures accepted <==> Accepts(old(State()), Rx(byte, now))
      ensures event == Emitted(old(State()), Rx(byte, now))
    {
      hide Next, Recognised, Meaning;
      accepted, event := false, NoEvent;
      match state
      case Sync1 => Synchronise(byte, now);
      case Sync2 => Synchronise(byte, now);
      case Len => AcceptLength(byte, now);
      case Type => AcceptType(byte, now);
      case Data => Store(byte, now);
      case Crc => CheckTrailer(byte, now);
      case Cr => CheckTrailer(byte, now);
      case Lf => accepted, event := EndFrame(byte, now);
    }

    method ResetParser()
      requires Valid()
      modifies this
      ensures Valid()
      ensures State() == old(State()).(state := Sync1, len := 0, frameType := 0, index := 0, crc := 0)
    {
      state, len, frameType, index, crc := Sync1, 0, 0, 0, 0;
    }

    /** Consumes the fresh-target flag. */
    method HasFreshTarget() returns (had: bool)
      requires Valid()
      modifies this
      ensures Valid() && had == old(State()).hasNew && State() == old(State()).(hasNew := false)
    {
      had := freshTarget;
      freshTarget := false;
    }
  }
}
