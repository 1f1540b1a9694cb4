/** What a sender puts on the vision link is what the receiver gets: targets and commands,
    from their values through the bytes to the event and the stored target. */
module VisionTargets {
  import opened Bytes
  import opened Ticks
  import opened VisionParser
  import opened VisionStream

  type Int16 = v: int | -32768 <= v <= 32767

  type UInt16 = v: int | 0 <= v <= 65535

  // ----- the sender -----

  /** A word in two's complement, low byte first. */
  function Word(v: int): (bytes: seq<Byte>)
    requires -32768 <= v <= 65535
    ensures |bytes| == 2
  {
    var unsigned := if v < 0 then v + 65536 else v;
    [unsigned % 256, unsigned / 256]
  }

  function EncodeTarget(x: Int16, y: Int16, classId: Byte, area: UInt16): (bytes: seq<Byte>)
    ensures |bytes| == 7
  {
    Word(x) + Word(y) + [classId] + Word(area)
  }

  lemma WordsDecode(x: Int16, area: UInt16)
    ensures S16(Word(x)[0], Word(x)[1]) == x
    ensures U16(Word(area)[0], Word(area)[1]) == area
  {
  }

  lemma TargetsDecode(x: Int16, y: Int16, classId: Byte, area: UInt16, padding: seq<Byte>, now: Tick)
    ensures TargetOf(EncodeTarget(x, y, classId, area) + padding, now) == Target(x, y, classId, area, now)
  {
    var payload := EncodeTarget(x, y, classId, area) + padding;
    WordsDecode(x, area);
    WordsDecode(y, area);
    assert payload[0] == Word(x)[0] && payload[1] == Word(x)[1];
    assert payload[2] == Word(y)[0] && payload[3] == Word(y)[1];
    assert payload[4] == classId && payload[5] == Word(area)[0] && payload[6] == Word(area)[1];
    hide Word, U16, S16;
  }

  // ----- the stored target -----

  /** The last target the stream carried before byte `k`. */
  ghost function LastTarget(rx: seq<Rx>, ps: seq<Parser>, k: nat): Target
    requires Run(rx, ps) && k <= |rx|
  {
    if k == 0 then ps[0].target
    else match Emitted(ps[k - 1], rx[k - 1])
         case TargetSeen(target) => target
         case _ => LastTarget(rx, ps, k - 1)
  }

  lemma NextStores(p: Parser, rx: Rx)
    requires p.Valid()
    ensures match Emitted(p, rx)
            case TargetSeen(target) => Next(p, rx).target == target && Next(p, rx).hasNew
            case _ => Next(p, rx).target == p.target && Next(p, rx).hasNew == p.hasNew
    ensures !Accepts(p, rx) ==> Emitted(p, rx) == NoEvent
  {
    hide Xor, TargetOf;
  }

  /** The stored target is the last one seen, and it is fresh from then on until it is
      read. */
  lemma {:induction false} StoredTargetIsTheLast(rx: seq<Rx>, ps: seq<Parser>, k: nat)
    requires Run(rx, ps) && k <= |rx|
    ensures ps[k].target == LastTarget(rx, ps, k)
    ensures ps[k].hasNew <==>
              ps[0].hasNew || exists j :: 0 <= j < k && Emitted(ps[j], rx[j]).TargetSeen?
  {
    hide Next, Emitted;
    if k > 0 {
      StoredTargetIsTheLast(rx, ps, k - 1);
      assert Consumes(rx, ps, k - 1);
      NextStores(ps[k - 1], rx[k - 1]);
    }
  }

  lemma {:induction false} SilenceKeepsTheTarget(rx: seq<Rx>, ps: seq<Parser>, a: nat, b: nat)
    requires Run(rx, ps) && a <= b <= |rx| && Silent(rx, ps, a, b)
    ensures ps[b].target == ps[a].target && ps[b].hasNew == ps[a].hasNew
  {
    hide Next, Emitted, Accepts;
    if a < b {
      SilenceKeepsTheTarget(rx, ps, a, b - 1);
      assert Consumes(rx, ps, b - 1) && !AcceptedAt(rx, ps, b - 1);
      NextStores(ps[b - 1], rx[b - 1]);
    }
  }

  // ----- from sender to receiver -----

  /** A target frame, however padded, arrives as the target that was sent, is reported once,
      at its last byte, and is stored and fresh afterwards. */
  lemma TargetArrives(rx: seq<Rx>, ps: seq<Parser>, a: nat,
                      x: Int16, y: Int16, classId: Byte, area: UInt16, padding: seq<Byte>)
    requires Run(rx, ps) && |padding| + 7 <= MAX_PAYLOAD
    requires Carries(rx, a, Encode(TARGET_FRAME, EncodeTarget(x, y, classId, area) + padding))
    requires ps[a].state == Sync1
    ensures var last := a + |padding| + 13;
            var sent := Target(x, y, classId, area, rx[last].now);
            && Silent(rx, ps, a, last)
            && AcceptedAt(rx, ps, last) && Emitted(ps[last], rx[last]) == TargetSeen(sent)
            && ps[last + 1].target == sent && ps[last + 1].hasNew && ps[last + 1].state == Sync1
  {
    hide Encode, Next, Emitted, Accepts, EncodeTarget, TargetOf, Silent;
    var payload, last := EncodeTarget(x, y, classId, area) + padding, a + |padding| + 13;
    FrameRoundTrip(rx, ps, a, TARGET_FRAME, payload);
    TargetsDecode(x, y, classId, area, padding, rx[last].now);
    assert Recognised(TARGET_FRAME, payload);
    assert Consumes(rx, ps, last);
    NextStores(ps[last], rx[last]);
  }

  /** A command frame, however padded, arrives as the command that was sent, and leaves the
      stored target alone. */
  lemma CommandArrives(rx: seq<Rx>, ps: seq<Parser>, a: nat, command: Byte, padding: seq<Byte>)
    requires Run(rx, ps) && |padding| + 1 <= MAX_PAYLOAD
    requires Carries(rx, a, Encode(COMMAND_FRAME, [command] + padding)) && ps[a].state == Sync1
    ensures var last := a + |padding| + 7;
            && Silent(rx, ps, a, last)
            && AcceptedAt(rx, ps, last) && Emitted(ps[last], rx[last]) == CommandReceived(command)
            && ps[last + 1].target == ps[a].target && ps[last + 1].hasNew == ps[a].hasNew
  {
    hide Encode, Next, Emitted, Accepts, Silent;
    var payload, last := [command] + padding, a + |padding| + 7;
    FrameRoundTrip(rx, ps, a, COMMAND_FRAME, payload);
    assert Recognised(COMMAND_FRAME, payload);
    SilenceKeepsTheTarget(rx, ps, a, last);
    assert Consumes(rx, ps, last);
    NextStores(ps[last], rx[last]);
  }

  /** Every other frame is dropped: a target frame of fewer than seven payload bytes, and
      any type but 1 and 2. */
  lemma OtherFramesAreDropped(rx: seq<Rx>, ps: seq<Parser>, a: nat, frameType: Byte, payload: seq<Byte>)
    requires Run(rx, ps) && Encodable(payload)
    requires Carries(rx, a, Encode(frameType, payload)) && ps[a].state == Sync1
    ensures Silent(rx, ps, a, a + |payload| + 7) <==> !((frameType == 1 && |payload| >= 7) || frameType == 2)
    ensures Silent(rx, ps, a, a + |payload| + 7) ==> ps[a + |payload| + 7].target == ps[a].target
  {
    hide Encode, Next, Emitted, Accepts;
    FrameRoundTrip(rx, ps, a, frameType, payload);
    if Silent(rx, ps, a, a + |payload| + 7) {
      SilenceKeepsTheTarget(rx, ps, a, a + |payload| + 7);
    }
  }
}
