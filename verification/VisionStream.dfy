/** What the vision parser guarantees over whole byte streams. */
module VisionStream {
  import opened Bytes
  import opened VisionParser

  // ----- frames -----

  function XorFrom(seed: Byte, s: seq<Byte>): Byte {
    if s == [] then seed else Xor(XorFrom(seed, s[..|s| - 1]), s[|s| - 1])
  }

  predicate Encodable(payload: seq<Byte>) {
    1 <= |payload| <= MAX_PAYLOAD
  }

  function Checksum(frameType: Byte, payload: seq<Byte>): Byte
    requires Encodable(payload)
  {
    XorFrom(Xor(|payload|, frameType), payload)
  }

  /** The frame a sender transmits. */
  function Encode(frameType: Byte, payload: seq<Byte>): (f: seq<Byte>)
    requires Encodable(payload)
    ensures |f| == |payload| + 7
  {
    [SYNC_1, SYNC_2, |payload|, frameType] + payload + [Checksum(frameType, payload), CR, LF]
  }

  // ----- runs -----

  /** `ps[k]` is the parser before byte `k`. It may start in any valid state. */
  ghost predicate Run(rx: seq<Rx>, ps: seq<Parser>) {
    && |ps| == |rx| + 1
    && (forall k | 0 <= k <= |rx| :: ps[k].Valid())
    && forall k | 0 <= k < |rx| :: Consumes(rx, ps, k)
  }

  ghost predicate Consumes(rx: seq<Rx>, ps: seq<Parser>, k: int)
    requires 0 <= k < |rx| && |ps| == |rx| + 1 && ps[k].Valid()
  {
    ps[k + 1] == Next(ps[k], rx[k])
  }

  /** Byte `k` completes a recognised frame. */
  ghost predicate AcceptedAt(rx: seq<Rx>, ps: seq<Parser>, k: int)
    requires Run(rx, ps) && 0 <= k < |rx|
  {
    Accepts(ps[k], rx[k])
  }

  /** The bytes `a .. a + |bytes|` of the stream are `bytes`. */
  ghost predicate Carries(rx: seq<Rx>, a: int, bytes: seq<Byte>) {
    && 0 <= a && a + |bytes| <= |rx|
    && forall j | 0 <= j < |bytes| :: rx[a + j].byte == bytes[j]
  }

  // ----- soundness over history -----

  /** A frame header starts at byte `a`. */
  ghost predicate HeaderAt(rx: seq<Rx>, a: int, len: nat)
    requires len <= MAX_PAYLOAD
  {
    && 0 <= a && a + 3 <= |rx|
    && rx[a].byte == SYNC_1 && rx[a + 1].byte == SYNC_2 && rx[a + 2].byte == len
  }

  /** A header, a type and the first `m` payload bytes start at byte `a`, and are what
      the parser has stored and summed. */
  ghost predicate StoredAt(rx: seq<Rx>, p: Parser, a: int, m: nat)
    requires p.Valid() && m <= MAX_PAYLOAD
  {
    && HeaderAt(rx, a, p.len) && a + 4 + m <= |rx|
    && rx[a + 3].byte == p.frameType
    && (forall j | 0 <= j < m :: rx[a + 4 + j].byte == p.payload[j])
    && p.crc == XorFrom(Xor(p.len, p.frameType), p.payload[..m])
  }

  /** The parser's memory before byte `k` is the recent history of the stream. */
  ghost predicate Remembers(rx: seq<Rx>, p: Parser, k: int)
    requires p.Valid() && 0 <= k <= |rx|
  {
    var n := p.len;
    match p.state
    case Sync1 => true
    case Sync2 => k >= 1 && rx[k - 1].byte == SYNC_1
    case Len => k >= 2 && rx[k - 2].byte == SYNC_1 && rx[k - 1].byte == SYNC_2
    case Type => HeaderAt(rx, k - 3, n) && p.crc == n
    case Data => StoredAt(rx, p, k - 4 - p.index, p.index)
    case Crc => StoredAt(rx, p, k - 4 - n, n)
    case Cr => StoredAt(rx, p, k - 5 - n, n) && rx[k - 1].byte == p.crc
    case Lf => StoredAt(rx, p, k - 6 - n, n) && rx[k - 2].byte == p.crc && rx[k - 1].byte == CR
  }

  lemma StoreRemembers(rx: seq<Rx>, p: Parser, a: int)
    requires p.Valid() && p.state == Data && StoredAt(rx, p, a, p.index) && a + 4 + p.index < |rx|
    ensures StoredAt(rx, Next(p, rx[a + 4 + p.index]), a, p.index + 1)
  {
    var q := Next(p, rx[a + 4 + p.index]);
    assert q.payload[..p.index + 1][..p.index] == p.payload[..p.index];
  }

  lemma HeaderRemembers(rx: seq<Rx>, p: Parser, k: int)
    requires p.Valid() && 0 <= k < |rx| && Remembers(rx, p, k)
    requires p.state == Sync1 || p.state == Sync2 || p.state == Len || p.state == Type
    ensures Remembers(rx, Next(p, rx[k]), k + 1)
  {
    hide Xor;
    if p.state == Type {
      assert Next(p, rx[k]).payload[..0] == [];
    }
  }

  /** Only the state changes in the trailer. */
  lemma TrailerRemembers(rx: seq<Rx>, p: Parser, q: Parser, a: int)
    requires p.Valid() && q.Valid() && StoredAt(rx, p, a, p.len)
    requires q == p.(state := q.state, target := q.target, hasNew := q.hasNew)
    ensures StoredAt(rx, q, a, q.len)
  {
  }

  lemma NextRemembers(rx: seq<Rx>, p: Parser, k: int)
    requires p.Valid() && 0 <= k < |rx| && Remembers(rx, p, k)
    ensures Remembers(rx, Next(p, rx[k]), k + 1)
  {
    hide HeaderAt, StoredAt, Xor, TargetOf;
    match p.state
    case Data => StoreRemembers(rx, p, k - 4 - p.index);
    case Crc => TrailerRemembers(rx, p, Next(p, rx[k]), k - 4 - p.len);
    case Cr => TrailerRemembers(rx, p, Next(p, rx[k]), k - 5 - p.len);
    case Lf =>
    case _ => HeaderRemembers(rx, p, k);
  }

  lemma {:induction false} AlwaysRemembers(rx: seq<Rx>, ps: seq<Parser>, k: nat)
    requires Run(rx, ps) && ps[0].state == Sync1 && k <= |rx|
    ensures Remembers(rx, ps[k], k)
  {
    hide Next, Remembers;
    if k > 0 {
      AlwaysRemembers(rx, ps, k - 1);
      assert Consumes(rx, ps, k - 1);
      NextRemembers(rx, ps[k - 1], k - 1);
    } else {
      StartRemembers(rx, ps[0]);
    }
  }

  lemma StartRemembers(rx: seq<Rx>, p: Parser)
    requires p.Valid() && p.state == Sync1
    ensures Remembers(rx, p, 0)
  {
  }

  /** A byte is accepted only if it ends a complete, correctly summed, recognised
      frame, and the event is the meaning of that frame's payload. */
  lemma AcceptanceIsSound(rx: seq<Rx>, ps: seq<Parser>, k: nat) returns (frameType: Byte, payload: seq<Byte>)
    requires Run(rx, ps) && ps[0].state == Sync1 && k < |rx| && AcceptedAt(rx, ps, k)
    ensures Encodable(payload) && Recognised(frameType, payload)
    ensures Carries(rx, k - 6 - |payload|, Encode(frameType, payload))
    ensures Emitted(ps[k], rx[k]) == Meaning(frameType, payload, rx[k].now)
  {
    hide Next, Meaning, Recognised;
    AlwaysRemembers(rx, ps, k);
    frameType, payload := ps[k].frameType, ps[k].payload[..ps[k].len];
  }

  // ----- one frame, from its first byte -----

  ghost function Received(rx: seq<Rx>, a: nat, m: nat): (bytes: seq<Byte>)
    requires a + m <= |rx|
    ensures |bytes| == m && forall j | 0 <= j < m :: bytes[j] == rx[a + j].byte
  {
    if m == 0 then [] else Received(rx, a, m - 1) + [rx[a + m - 1].byte]
  }

  lemma HeaderParsed(rx: seq<Rx>, ps: seq<Parser>, a: nat, n: nat)
    requires Run(rx, ps) && 1 <= n <= MAX_PAYLOAD && HeaderAt(rx, a, n) && a + 4 <= |rx|
    requires ps[a].state == Sync1
    ensures ps[a + 1].state == Sync2 && ps[a + 2].state == Len && ps[a + 3].state == Type
    ensures ps[a + 4].state == Data && ps[a + 4].len == n && ps[a + 4].index == 0
    ensures ps[a + 4].frameType == rx[a + 3].byte && ps[a + 4].crc == Xor(n, rx[a + 3].byte)
  {
    hide Xor;
    assert Consumes(rx, ps, a);
    assert Consumes(rx, ps, a + 1);
    assert Consumes(rx, ps, a + 2);
    assert Consumes(rx, ps, a + 3);
  }

  /** The parser in the data phase of a frame that started at `a`, after `m` of its
      `n` payload bytes. */
  ghost predicate InPayload(rx: seq<Rx>, p: Parser, a: nat, n: nat, m: nat)
    requires p.Valid() && m <= n <= MAX_PAYLOAD && a + 4 + n <= |rx|
  {
    && p.state == (if m < n then Data else Crc)
    && p.len == n && p.index == m && p.frameType == rx[a + 3].byte
    && p.payload[..m] == Received(rx, a + 4, m)
    && p.crc == XorFrom(Xor(n, rx[a + 3].byte), Received(rx, a + 4, m))
  }

  lemma ByteStored(rx: seq<Rx>, p: Parser, a: nat, n: nat, m: nat)
    requires p.Valid() && m < n <= MAX_PAYLOAD && a + 4 + n <= |rx| && InPayload(rx, p, a, n, m)
    ensures InPayload(rx, Next(p, rx[a + 4 + m]), a, n, m + 1)
  {
    hide Xor;
    var q := Next(p, rx[a + 4 + m]);
    var r := Received(rx, a + 4, m + 1);
    assert r[..m] == Received(rx, a + 4, m);
    assert q.payload[..m + 1] == p.payload[..m] + [rx[a + 4 + m].byte] == r;
  }

  lemma {:induction false} PayloadParsed(rx: seq<Rx>, ps: seq<Parser>, a: nat, n: nat, m: nat)
    requires Run(rx, ps) && 1 <= n <= MAX_PAYLOAD && m <= n && HeaderAt(rx, a, n) && a + 4 + n <= |rx|
    requires ps[a].state == Sync1
    ensures InPayload(rx, ps[a + 4 + m], a, n, m)
    ensures forall k | a <= k <= a + 4 + m :: ps[k].state != Lf
  {
    hide Next, HeaderAt, Xor, InPayload, Received;
    if m == 0 {
      PayloadBegins(rx, ps, a, n);
    } else {
      PayloadParsed(rx, ps, a, n, m - 1);
      assert Consumes(rx, ps, a + 3 + m);
      ByteStored(rx, ps[a + 3 + m], a, n, m - 1);
      PayloadIsNotTheEnd(rx, ps[a + 4 + m], a, n, m);
    }
  }

  lemma PayloadBegins(rx: seq<Rx>, ps: seq<Parser>, a: nat, n: nat)
    requires Run(rx, ps) && 1 <= n <= MAX_PAYLOAD && HeaderAt(rx, a, n) && a + 4 + n <= |rx|
    requires ps[a].state == Sync1
    ensures InPayload(rx, ps[a + 4], a, n, 0)
    ensures forall k | a <= k <= a + 4 :: ps[k].state != Lf
  {
    hide Next, Xor;
    HeaderParsed(rx, ps, a, n);
  }

  lemma PayloadIsNotTheEnd(rx: seq<Rx>, p: Parser, a: nat, n: nat, m: nat)
    requires p.Valid() && m <= n <= MAX_PAYLOAD && a + 4 + n <= |rx| && InPayload(rx, p, a, n, m)
    ensures p.state != Lf
  {
    hide Received, Xor;
  }

  /** How the last three bytes of a frame are judged. */
  lemma TrailerParsed(rx: seq<Rx>, ps: seq<Parser>, c: nat)
    requires Run(rx, ps) && c + 3 <= |rx| && ps[c].state == Crc
    ensures ps[c + 1].state == if rx[c].byte == ps[c].crc then Cr else Sync1
    ensures ps[c + 1].state == Cr ==> ps[c + 2].state == if rx[c + 1].byte == CR then Lf else Sync1
    ensures ps[c + 2].state == Lf ==> ps[c + 1].state == Cr
    ensures ps[c + 2].state == Lf ==>
              ps[c + 2].frameType == ps[c].frameType && ps[c + 2].len == ps[c].len &&
              ps[c + 2].payload == ps[c].payload && ps[c + 3].state == Sync1
    ensures ps[c + 1].state == Sync1 && rx[c + 1].byte != SYNC_1 ==> ps[c + 2].state == Sync1
    ensures ps[c + 2].state == Sync1 && rx[c + 2].byte != SYNC_1 ==> ps[c + 3].state == Sync1
  {
    assert Consumes(rx, ps, c);
    assert Consumes(rx, ps, c + 1);
    assert Consumes(rx, ps, c + 2);
  }

  /** No byte in `a .. b - 1` completes a recognised frame. */
  ghost predicate Silent(rx: seq<Rx>, ps: seq<Parser>, a: int, b: int)
    requires Run(rx, ps)
  {
    forall k | a <= k < b && 0 <= k < |rx| :: !AcceptedAt(rx, ps, k)
  }

  ghost predicate SumIsRight(rx: seq<Rx>, a: nat, n: nat)
    requires 1 <= n <= MAX_PAYLOAD && a + 7 + n <= |rx|
  {
    rx[a + n + 4].byte == Checksum(rx[a + 3].byte, Received(rx, a + 4, n))
  }

  ghost predicate EndIsRight(rx: seq<Rx>, a: nat, n: nat)
    requires a + 7 + n <= |rx|
  {
    rx[a + n + 5].byte == CR && rx[a + n + 6].byte == LF
  }

  ghost predicate TypeIsKnown(rx: seq<Rx>, a: nat, n: nat)
    requires a + 7 + n <= |rx|
  {
    Recognised(rx[a + 3].byte, Received(rx, a + 4, n))
  }

  /** The verdict on any frame-shaped run of bytes: it is accepted exactly when the
      sum, the line ending and the type are right, and then only at its last byte. */
  lemma FrameVerdict(rx: seq<Rx>, ps: seq<Parser>, a: nat, n: nat)
    requires Run(rx, ps) && 1 <= n <= MAX_PAYLOAD && HeaderAt(rx, a, n) && a + 7 + n <= |rx|
    requires ps[a].state == Sync1
    ensures Silent(rx, ps, a, a + n + 6)
    ensures AcceptedAt(rx, ps, a + n + 6) <==> SumIsRight(rx, a, n) && EndIsRight(rx, a, n) && TypeIsKnown(rx, a, n)
    ensures AcceptedAt(rx, ps, a + n + 6) ==>
              Emitted(ps[a + n + 6], rx[a + n + 6]) ==
              Meaning(rx[a + 3].byte, Received(rx, a + 4, n), rx[a + n + 6].now)
    ensures SumIsRight(rx, a, n) && rx[a + n + 5].byte == CR ==> ps[a + n + 7].state == Sync1
    ensures !SumIsRight(rx, a, n) && EndIsRight(rx, a, n) ==> ps[a + n + 7].state == Sync1
    ensures rx[a + n + 5].byte != CR && SumIsRight(rx, a, n) && rx[a + n + 6].byte == LF ==>
              ps[a + n + 7].state == Sync1
  {
    hide Next, Xor, Meaning, Recognised;
    PayloadParsed(rx, ps, a, n, n);
    TrailerParsed(rx, ps, a + 4 + n);
    assert ps[a + n + 6].state == Lf ==> ps[a + n + 6].payload[..n] == Received(rx, a + 4, n);
  }

  // ----- round trip -----

  /** A frame that arrives while the parser is idle is accepted at its last byte if
      its type is known, with the meaning the sender gave it, and nowhere else; the
      parser is idle again afterwards. */
  lemma FrameRoundTrip(rx: seq<Rx>, ps: seq<Parser>, a: nat, frameType: Byte, payload: seq<Byte>)
    requires Run(rx, ps) && Encodable(payload) && Carries(rx, a, Encode(frameType, payload))
    requires ps[a].state == Sync1
    ensures var last := a + |payload| + 6;
            && Silent(rx, ps, a, last)
            && (AcceptedAt(rx, ps, last) <==> Recognised(frameType, payload))
            && (AcceptedAt(rx, ps, last) ==>
                Emitted(ps[last], rx[last]) == Meaning(frameType, payload, rx[last].now))
            && ps[last + 1].state == Sync1
  {
    CarriedFrame(rx, a, frameType, payload);
    hide Xor, XorFrom, Meaning, Recognised, Next, Encode, Carries, Silent, AcceptedAt, HeaderAt, SumIsRight, EndIsRight;
    FrameVerdict(rx, ps, a, |payload|);
  }

  /** A carried frame, read as the parser reads it. */
  lemma CarriedFrame(rx: seq<Rx>, a: nat, frameType: Byte, payload: seq<Byte>)
    requires Encodable(payload) && Carries(rx, a, Encode(frameType, payload))
    ensures var n := |payload|;
      && a + 7 + n <= |rx| && HeaderAt(rx, a, n)
      && rx[a + 3].byte == frameType && Received(rx, a + 4, n) == payload
      && SumIsRight(rx, a, n) && EndIsRight(rx, a, n) && rx[a + n + 5].byte == CR
  {
    hide Xor, XorFrom;
    var n := |payload|;
    var f := Encode(frameType, payload);
    assert forall j | 0 <= j < n :: rx[a + 4 + j].byte == f[4 + j] == payload[j];
    assert Received(rx, a + 4, n) == payload;
    assert f[0] == SYNC_1 && f[1] == SYNC_2 && f[2] == n && f[3] == frameType;
    assert f[n + 4] == Checksum(frameType, payload) && f[n + 5] == CR && f[n + 6] == LF;
    assert rx[a + 3].byte == f[3];
    assert rx[a + (n + 4)].byte == f[n + 4] && rx[a + (n + 5)].byte == f[n + 5] && rx[a + (n + 6)].byte == f[n + 6];
  }

  // ----- corruption -----

  lemma {:induction false} SumDependsOnSeed(s1: Byte, s2: Byte, bytes: seq<Byte>)
    requires XorFrom(s1, bytes) == XorFrom(s2, bytes)
    ensures s1 == s2
  {
    hide Xor;
    if bytes != [] {
      var n := |bytes| - 1;
      XorCancels(XorFrom(s1, bytes[..n]), XorFrom(s2, bytes[..n]), bytes[n]);
      SumDependsOnSeed(s1, s2, bytes[..n]);
    }
  }

  lemma XorCancelsLeft(a: Byte, b: Byte, c: Byte)
    requires Xor(c, a) == Xor(c, b)
    ensures a == b
  {
    hide Xor;
    XorCommutes(a, c);
    XorCommutes(b, c);
    XorCancels(a, b, c);
  }

  lemma {:induction false} SumDependsOnEveryByte(seed: Byte, bytes: seq<Byte>, i: nat, b: Byte)
    requires i < |bytes| && XorFrom(seed, bytes) == XorFrom(seed, bytes[i := b])
    ensures bytes[i] == b
  {
    hide Xor;
    var n := |bytes| - 1;
    var changed := bytes[i := b];
    if i == n {
      assert changed[..n] == bytes[..n];
      XorCancelsLeft(bytes[n], b, XorFrom(seed, bytes[..n]));
    } else {
      assert changed[..n] == bytes[..n][i := b];
      XorCancels(XorFrom(seed, bytes[..n]), XorFrom(seed, changed[..n]), bytes[n]);
      SumDependsOnEveryByte(seed, bytes[..n], i, b);
    }
  }

  /** Altering any single byte after the length byte suppresses the frame's event
      and leaves the parser idle for the next frame. */
  lemma CorruptionIsRejected(
      rx: seq<Rx>, ps: seq<Parser>, a: nat, frameType: Byte, payload: seq<Byte>, j: nat, b: Byte)
    requires Run(rx, ps) && Encodable(payload) && 3 <= j < |payload| + 7
    requires Encode(frameType, payload)[j] != b
    requires Carries(rx, a, Encode(frameType, payload)[j := b])
    requires ps[a].state == Sync1
    ensures Silent(rx, ps, a, a + |payload| + 7)
    ensures ps[a + |payload| + 7].state == Sync1
  {
    hide Xor, XorFrom, Meaning, Recognised, Next, AcceptedAt;
    var n := |payload|;
    var f := Encode(frameType, payload)[j := b];
    assert f[0] == SYNC_1 && f[1] == SYNC_2 && f[2] == n;
    assert rx[a + 3].byte == f[3];
    assert rx[a + (n + 4)].byte == f[n + 4] && rx[a + (n + 5)].byte == f[n + 5] && rx[a + (n + 6)].byte == f[n + 6];
    FrameVerdict(rx, ps, a, n);
    var got := Received(rx, a + 4, n);
    assert forall i | 0 <= i < n :: got[i] == rx[a + (4 + i)].byte == f[4 + i];
    if j == 3 {
      assert got == payload;
      if SumIsRight(rx, a, n) {
        SumDependsOnSeed(Xor(n, frameType), Xor(n, b), payload);
        XorCancelsLeft(frameType, b, n);
      }
    } else if j < n + 4 {
      assert got == payload[j - 4 := b];
      if SumIsRight(rx, a, n) {
        SumDependsOnEveryByte(Xor(n, frameType), payload, j - 4, b);
      }
    } else {
      assert got == payload;
    }
  }

  // ----- noise and streams -----

  /** Bytes that are not a sync byte leave an idle parser idle. */
  lemma {:induction false} NoiseIsIgnored(rx: seq<Rx>, ps: seq<Parser>, a: nat, b: nat)
    requires Run(rx, ps) && a <= b <= |rx| && ps[a].state == Sync1
    requires forall k | a <= k < b :: rx[k].byte != SYNC_1
    ensures ps[b].state == Sync1 && Silent(rx, ps, a, b)
  {
    if a < b {
      NoiseIsIgnored(rx, ps, a, b - 1);
      assert Consumes(rx, ps, b - 1);
    }
  }

  datatype Segment = Noise(bytes: seq<Byte>) | Frame(frameType: Byte, payload: seq<Byte>)
  {
    ghost predicate Valid() {
      match this
      case Noise(bytes) => SYNC_1 !in bytes
      case Frame(_, payload) => Encodable(payload)
    }

    ghost function Wire(): seq<Byte>
      requires Valid()
    {
      match this
      case Noise(bytes) => bytes
      case Frame(t, payload) => Encode(t, payload)
    }
  }

  ghost predicate ValidStream(segments: seq<Segment>) {
    forall s | s in segments :: s.Valid()
  }

  /** What goes over the wire. */
  ghost function Wire(segments: seq<Segment>): seq<Byte>
    requires ValidStream(segments)
  {
    if segments == [] then []
    else Wire(segments[..|segments| - 1]) + segments[|segments| - 1].Wire()
  }

  /** The events the sender meant: one per recognised frame, in order, stamped with
      the arrival of the frame's last byte. */
  ghost function Intended(segments: seq<Segment>, rx: seq<Rx>): seq<Event>
    requires ValidStream(segments) && |Wire(segments)| <= |rx|
  {
    if segments == [] then []
    else
      var s := segments[|segments| - 1];
      Intended(segments[..|segments| - 1], rx) +
      if s.Frame? && Recognised(s.frameType, s.payload)
      then [Meaning(s.frameType, s.payload, rx[|Wire(segments)| - 1].now)]
      else []
  }

  /** The events the parser reports in the first `k` bytes. */
  ghost function Reported(rx: seq<Rx>, ps: seq<Parser>, k: nat): seq<Event>
    requires Run(rx, ps) && k <= |rx|
  {
    if k == 0 then []
    else Reported(rx, ps, k - 1) + if AcceptedAt(rx, ps, k - 1) then [Emitted(ps[k - 1], rx[k - 1])] else []
  }

  lemma {:induction false} SilenceReportsNothing(rx: seq<Rx>, ps: seq<Parser>, a: nat, b: nat)
    requires Run(rx, ps) && a <= b <= |rx| && Silent(rx, ps, a, b)
    ensures Reported(rx, ps, b) == Reported(rx, ps, a)
  {
    if a < b {
      SilenceReportsNothing(rx, ps, a, b - 1);
      assert !AcceptedAt(rx, ps, b - 1);
    }
  }

  lemma SegmentParsed(rx: seq<Rx>, ps: seq<Parser>, a: nat, s: Segment)
    requires Run(rx, ps) && s.Valid() && Carries(rx, a, s.Wire()) && ps[a].state == Sync1
    ensures ps[a + |s.Wire()|].state == Sync1
    ensures Reported(rx, ps, a + |s.Wire()|) == Reported(rx, ps, a) +
              if s.Frame? && Recognised(s.frameType, s.payload)
              then [Meaning(s.frameType, s.payload, rx[a + |s.Wire()| - 1].now)] else []
  {
    hide Next, Meaning, Recognised, Encode;
    var b := a + |s.Wire()|;
    match s
    case Noise(bytes) =>
      forall k | a <= k < b
        ensures rx[k].byte != SYNC_1
      {
        assert rx[a + (k - a)].byte == bytes[k - a];
      }
      NoiseIsIgnored(rx, ps, a, b);
      SilenceReportsNothing(rx, ps, a, b);
    case Frame(t, payload) =>
      FrameRoundTrip(rx, ps, a, t, payload);
      SilenceReportsNothing(rx, ps, a, b - 1);
  }

  lemma CarriesBoth(rx: seq<Rx>, a: int, first: seq<Byte>, second: seq<Byte>)
    requires Carries(rx, a, first + second)
    ensures Carries(rx, a, first) && Carries(rx, a + |first|, second)
  {
    var both := first + second;
    forall j | 0 <= j < |first|
      ensures rx[a + j].byte == first[j]
    {
      assert both[j] == first[j];
    }
    forall j | 0 <= j < |second|
      ensures rx[a + |first| + j].byte == second[j]
    {
      assert rx[a + (|first| + j)].byte == both[|first| + j] == second[j];
    }
  }

  /** Any stream of frames interleaved with noise free of the sync byte is parsed
      into exactly the events its sender meant, in order. */
  lemma {:induction false} StreamRoundTrip(rx: seq<Rx>, ps: seq<Parser>, segments: seq<Segment>)
    requires Run(rx, ps) && ps[0].state == Sync1
    requires ValidStream(segments) && Carries(rx, 0, Wire(segments))
    ensures ps[|Wire(segments)|].state == Sync1
    ensures Reported(rx, ps, |Wire(segments)|) == Intended(segments, rx)
  {
    hide Meaning, Recognised, Carries, Run, Encode, Encodable, Parser.Valid, Segment.Wire, AcceptedAt, Emitted;
    if segments != [] {
      var before, s := segments[..|segments| - 1], segments[|segments| - 1];
      CarriesBoth(rx, 0, Wire(before), s.Wire());
      StreamRoundTrip(rx, ps, before);
      SegmentParsed(rx, ps, |Wire(before)|, s);
    }
  }

  // ----- resynchronisation -----

  /** The most bytes the parser can still take before it is idle. */
  ghost function Patience(p: Parser): nat
    requires p.Valid()
  {
    match p.state
    case Sync1 => 0
    case Sync2 => MAX_PAYLOAD + 6
    case Len => MAX_PAYLOAD + 5
    case Type => p.len + 4
    case Data => p.len - p.index + 3
    case Crc => 3
    case Cr => 2
    case Lf => 1
  }

  lemma {:induction false} PatienceRunsOut(rx: seq<Rx>, ps: seq<Parser>, a: nat) returns (k: nat)
    requires Run(rx, ps) && a <= |rx| && a + Patience(ps[a]) <= |rx|
    ensures a <= k <= a + Patience(ps[a]) && ps[k].state == Sync1
    decreases |rx| - a
  {
    hide Xor, Meaning;
    k := a;
    if ps[a].state != Sync1 {
      assert Consumes(rx, ps, a);
      k := PatienceRunsOut(rx, ps, a + 1);
    }
  }

  /** From any state, garbled or not, the parser is idle again within 38 bytes. */
  lemma AlwaysResynchronises(rx: seq<Rx>, ps: seq<Parser>, a: nat) returns (k: nat)
    requires Run(rx, ps) && a + MAX_PAYLOAD + 6 <= |rx|
    ensures a <= k <= a + MAX_PAYLOAD + 6 && ps[k].state == Sync1
  {
    k := PatienceRunsOut(rx, ps, a);
  }

  // ----- from power-on -----

  ghost function StatesOf(rx: seq<Rx>): (ps: seq<Parser>)
    ensures Run(rx, ps) && ps[0] == Blank()
  {
    hide Next, Parser.Valid;
    if rx == [] then
      assert Blank().Valid() by { BlankIsValid(); }
      [Blank()]
    else
      var n := |rx| - 1;
      var before := StatesOf(rx[..n]);
      var ps := before + [Next(before[n], rx[n])];
      assert forall k | 0 <= k <= n :: ps[k] == before[k];
      assert forall k | 0 <= k < n :: Consumes(rx[..n], before, k) ==> Consumes(rx, ps, k);
      ps
  }

  lemma BlankIsValid()
    ensures Blank().Valid()
  {
  }

  /** Any bytes, fed to the parser from power-on. */
  lemma Feed(wire: seq<Byte>) returns (rx: seq<Rx>, ps: seq<Parser>)
    ensures Run(rx, ps) && ps[0] == Blank() && ps[0].state == Sync1
    ensures |rx| == |wire| && Carries(rx, 0, wire)
  {
    hide Run;
    rx := seq(|wire|, k requires 0 <= k < |wire| => Rx(wire[k], 0));
    ps := StatesOf(rx);
  }

  // ----- doubled sync bytes -----

  /** How many sync bytes in a row precede byte `k`, counting from byte `a`. */
  ghost function TrailingSyncs(rx: seq<Rx>, a: nat, k: nat): nat
    requires a <= k <= |rx|
    decreases k
  {
    if k == a || rx[k - 1].byte != SYNC_1 then 0 else 1 + TrailingSyncs(rx, a, k - 1)
  }

  lemma {:induction false} SyncsArePaired(rx: seq<Rx>, ps: seq<Parser>, a: nat, k: nat)
    requires Run(rx, ps) && a <= k <= |rx| && ps[a].state == Sync1
    requires forall j | a < j < k && rx[j].byte == SYNC_2 :: rx[j - 1].byte != SYNC_1
    ensures Silent(rx, ps, a, k)
    ensures ps[k].state == if TrailingSyncs(rx, a, k) % 2 == 1 then Sync2 else Sync1
  {
    if a < k {
      SyncsArePaired(rx, ps, a, k - 1);
      assert Consumes(rx, ps, k - 1);
    }
  }

  /** Bytes after byte `a` never form a header. */
  ghost predicate NoHeaderAfter(bytes: seq<Byte>, a: nat) {
    forall j | a < j < |bytes| && bytes[j] == SYNC_2 :: bytes[j - 1] != SYNC_1
  }

  /** Noise that contains sync bytes, but no complete header, can swallow the first byte of
      what follows it: the parser takes that byte for the start of a frame exactly when
      the noise ends in an even number of sync bytes. */
  lemma StartIsSeenAfterEvenNoise(rx: seq<Rx>, ps: seq<Parser>, noise: nat)
    requires Run(rx, ps) && ps[0].state == Sync1 && noise < |rx| && rx[noise].byte == SYNC_1
    requires forall j | 0 < j < noise && rx[j].byte == SYNC_2 :: rx[j - 1].byte != SYNC_1
    ensures Silent(rx, ps, 0, noise + 1)
    ensures ps[noise + 1].state == if TrailingSyncs(rx, 0, noise) % 2 == 0 then Sync2 else Sync1
  {
    SyncsArePaired(rx, ps, 0, noise);
    assert Consumes(rx, ps, noise);
  }

  /** So a frame behind such noise is parsed as if there were no noise when the noise ends
      in an even number of sync bytes; otherwise nothing is reported, unless the frame holds
      a second header, in which the parser could find another frame. */
  lemma FrameAfterNoise(rx: seq<Rx>, ps: seq<Parser>, noise: nat, frameType: Byte, payload: seq<Byte>)
    requires Run(rx, ps) && ps[0].state == Sync1
    requires Encodable(payload) && Carries(rx, noise, Encode(frameType, payload))
    requires forall j | 0 < j < noise && rx[j].byte == SYNC_2 :: rx[j - 1].byte != SYNC_1
    ensures var last := noise + |payload| + 6;
            && (TrailingSyncs(rx, 0, noise) % 2 == 0 ==>
                  && Silent(rx, ps, 0, last)
                  && (AcceptedAt(rx, ps, last) <==> Recognised(frameType, payload))
                  && (AcceptedAt(rx, ps, last) ==>
                        Emitted(ps[last], rx[last]) == Meaning(frameType, payload, rx[last].now)))
            && (TrailingSyncs(rx, 0, noise) % 2 == 1 && NoHeaderAfter(Encode(frameType, payload), 1) ==>
                  Silent(rx, ps, 0, last + 1))
  {
    hide Next, Meaning, Recognised;
    var f := Encode(frameType, payload);
    var end := noise + |f|;
    assert rx[noise + 0].byte == f[0];
    StartIsSeenAfterEvenNoise(rx, ps, noise);
    SyncsArePaired(rx, ps, 0, noise);
    if TrailingSyncs(rx, 0, noise) % 2 == 0 {
      FrameRoundTrip(rx, ps, noise, frameType, payload);
    } else if NoHeaderAfter(f, 1) {
      forall j | noise + 1 < j < end && rx[j].byte == SYNC_2
        ensures rx[j - 1].byte != SYNC_1
      {
        assert rx[noise + (j - noise)].byte == f[j - noise];
        assert rx[noise + (j - 1 - noise)].byte == f[j - noise - 1];
      }
      SyncsArePaired(rx, ps, noise + 1, end);
    }
  }

  /** The stream of one stray sync byte and a command frame, from power-on: nothing is
      reported. */
  lemma StraySyncSwallowsACommand() returns (rx: seq<Rx>, ps: seq<Parser>)
    ensures Run(rx, ps) && ps[0] == Blank()
    ensures |rx| == 9 && Carries(rx, 0, [SYNC_1]) && Carries(rx, 1, Encode(COMMAND_FRAME, [0]))
    ensures Silent(rx, ps, 0, |rx|)
  {
    var f := Encode(COMMAND_FRAME, [0]);
    CommandHasOneHeader();
    rx, ps := Feed([SYNC_1] + f);
    CarriesBoth(rx, 0, [SYNC_1], f);
    hide Encode, Run, Next, AcceptedAt, NoHeaderAfter;
    assert rx[0 + 0].byte == [SYNC_1][0];
    assert TrailingSyncs(rx, 0, 1) == 1;
    FrameAfterNoise(rx, ps, 1, COMMAND_FRAME, [0]);
  }

  lemma CommandHasOneHeader()
    ensures NoHeaderAfter(Encode(COMMAND_FRAME, [0]), 1)
  {
    var f := Encode(COMMAND_FRAME, [0]);
    assert f[1] == SYNC_2 && f[2] == 1 && f[3] == COMMAND_FRAME && f[4] == 0 && f[6] == CR && f[7] == LF;
    hide Encode;
  }

  // ----- the index of a finished frame -----

  lemma IndexSurvives(p: Parser, rx: Rx)
    requires p.Valid() && p.state != Type && p.state != Data
    ensures Next(p, rx).index == p.index
    ensures Next(p, rx).state == Type ==> p.state == Len
    ensures Next(p, rx).state == Len ==> p.state == Sync2
    ensures Next(p, rx).state != Data
  {
    hide TargetOf;
  }

  /** A frame followed by the header of a shorter one takes the parser, from power-on, into
      a state whose index is larger than its length. */
  lemma ShorterHeaderUndercuts(frameType: Byte, payload: seq<Byte>, m: Byte) returns (rx: seq<Rx>, ps: seq<Parser>)
    requires Encodable(payload) && 1 <= m < |payload|
    ensures Run(rx, ps) && ps[0] == Blank() && |rx| == |payload| + 10
    ensures Carries(rx, 0, Encode(frameType, payload) + [SYNC_1, SYNC_2, m])
    ensures ps[|rx|].state == Type && ps[|rx|].len == m && ps[|rx|].index == |payload|
  {
    rx, ps := Feed(Encode(frameType, payload) + [SYNC_1, SYNC_2, m]);
    hide Encode, Run, Carries;
    UndercutFrom(rx, ps, frameType, payload, m);
  }

  lemma UndercutFrom(rx: seq<Rx>, ps: seq<Parser>, frameType: Byte, payload: seq<Byte>, m: Byte)
    requires Encodable(payload) && 1 <= m < |payload| && Run(rx, ps) && ps[0].state == Sync1
    requires |rx| == |payload| + 10 && Carries(rx, 0, Encode(frameType, payload) + [SYNC_1, SYNC_2, m])
    ensures ps[|rx|].state == Type && ps[|rx|].len == m && ps[|rx|].index == |payload|
  {
    hide Next, Xor, XorFrom, HeaderAt, SumIsRight, EndIsRight, Silent, AcceptedAt, Carries, Parser.Valid;
    var n := |payload|;
    CarriesBoth(rx, 0, Encode(frameType, payload), [SYNC_1, SYNC_2, m]);
    CarriedFrame(rx, 0, frameType, payload);
    hide Encode;
    FrameRoundTrip(rx, ps, 0, frameType, payload);
    FrameLeavesItsLength(rx, ps, n);
    HeaderKeepsTheIndex(rx, ps, n + 7, m);
  }

  lemma HeaderKeepsTheIndex(rx: seq<Rx>, ps: seq<Parser>, a: nat, m: Byte)
    requires Run(rx, ps) && Carries(rx, a, [SYNC_1, SYNC_2, m]) && 1 <= m <= MAX_PAYLOAD
    requires ps[a].state == Sync1
    ensures ps[a + 3].state == Type && ps[a + 3].len == m && ps[a + 3].index == ps[a].index
  {
    hide Xor, TargetOf;
    var header := [SYNC_1, SYNC_2, m];
    assert rx[a + 0].byte == header[0] && rx[a + 1].byte == header[1] && rx[a + 2].byte == header[2];
    assert Consumes(rx, ps, a) && Consumes(rx, ps, a + 1) && Consumes(rx, ps, a + 2);
  }

  lemma FrameLeavesItsLength(rx: seq<Rx>, ps: seq<Parser>, n: nat)
    requires Run(rx, ps) && 1 <= n <= MAX_PAYLOAD && HeaderAt(rx, 0, n) && n + 7 <= |rx| && ps[0].state == Sync1
    ensures ps[n + 7].index == n
  {
    hide Next, Xor, XorFrom;
    PayloadParsed(rx, ps, 0, n, n);
    assert Consumes(rx, ps, n + 4) && Consumes(rx, ps, n + 5) && Consumes(rx, ps, n + 6);
    TrailerParsed(rx, ps, n + 4);
    IndexSurvives(ps[n + 4], rx[n + 4]);
    IndexSurvives(ps[n + 5], rx[n + 5]);
    IndexSurvives(ps[n + 6], rx[n + 6]);
  }
}
