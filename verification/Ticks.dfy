/** Millisecond ticks. The firmware keeps time in a `uint32_t` that wraps; the
    proofs keep the unbounded uptime beside it and relate the two. */
module Ticks {

  const WORD: nat := 0x1_0000_0000

  /** A `uint32_t` that is not a time. */
  type Word32 = w: nat | w < 0x1_0000_0000

  type Tick = t: nat | t < 0x1_0000_0000

  /** The tick counter at a given uptime. */
  function TickAt(uptime: nat): Tick {
    uptime % 0x1_0000_0000
  }

  /** `(uint32_t)(now - start)`. */
  function Since(now: Tick, start: Tick): Tick {
    (now - start) % 0x1_0000_0000
  }

  /** The wrapped difference is the true elapsed time exactly while less than one
      full wrap has passed. */
  lemma SinceIsElapsed(start: nat, now: nat)
    requires start <= now
    ensures Since(TickAt(now), TickAt(start)) == (now - start) % WORD
    ensures Since(TickAt(now), TickAt(start)) == now - start <==> now - start < WORD
  {
    var a, b := now / 0x1_0000_0000, start / 0x1_0000_0000;
    assert now == a * 0x1_0000_0000 + TickAt(now);
    assert start == b * 0x1_0000_0000 + TickAt(start);
    assert now - start == (a - b) * 0x1_0000_0000 + (TickAt(now) - TickAt(start));
  }
}
