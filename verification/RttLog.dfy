/** The RTT up-buffer: a ring the firmware writes and a debug host reads at any time,
    also in the middle of a write. */
module RttLog {

  // ----- the ring as a value -----

  /** The cell `i` places after `start`. */
  function Cell(size: nat, start: nat, i: nat): nat
    requires start < size && i < size
    ensures Cell(size, start, i) < size
  {
    if start + i < size then start + i else start + i - size
  }

  function Used(size: nat, rd: nat, wr: nat): nat
    requires rd < size && wr < size
  {
    if rd <= wr then wr - rd else size - rd + wr
  }

  /** The published bytes, oldest first. */
  function Contents(buf: seq<char>, rd: nat, wr: nat): (s: seq<char>)
    requires rd < |buf| && wr < |buf|
    ensures |s| == Used(|buf|, rd, wr) < |buf|
    ensures forall i | 0 <= i < |s| :: s[i] == buf[Cell(|buf|, rd, i)]
  {
    if rd <= wr then buf[rd..wr] else buf[rd..] + buf[..wr]
  }

  /** `space_available`: one cell stays empty. */
  function Space(size: nat, rd: nat, wr: nat): (n: nat)
    requires rd < size && wr < size
    ensures n == size - 1 - Used(size, rd, wr)
  {
    if rd > wr then rd - wr - 1 else size - wr + rd - 1
  }

  /** Writing to a free cell leaves the published bytes alone. */
  lemma FreeCellIsInvisible(buf: seq<char>, rd: nat, wr: nat, i: nat, x: char)
    requires rd < |buf| && wr < |buf| && i + Used(|buf|, rd, wr) < |buf|
    ensures Contents(buf[Cell(|buf|, wr, i) := x], rd, wr) == Contents(buf, rd, wr)
  {
  }

  /** Moving the write offset over `n` freshly written free cells appends them. */
  lemma PublishingAppends(buf: seq<char>, rd: nat, wr: nat, data: seq<char>)
    requires rd < |buf| && wr < |buf| && |data| + Used(|buf|, rd, wr) < |buf|
    requires forall i | 0 <= i < |data| :: buf[Cell(|buf|, wr, i)] == data[i]
    ensures Contents(buf, rd, Cell(|buf|, wr, |data|)) == Contents(buf, rd, wr) + data
  {
    var n := Used(|buf|, rd, wr);
    var all := Contents(buf, rd, Cell(|buf|, wr, |data|));
    assert |all| == n + |data|;
    forall i | 0 <= i < |all|
      ensures all[i] == (Contents(buf, rd, wr) + data)[i]
    {
      if i >= n {
        assert Cell(|buf|, rd, i) == Cell(|buf|, wr, i - n);
      }
    }
  }

  /** Moving the read offset by `n` published cells drops the oldest `n` bytes. */
  lemma ReadingDrops(buf: seq<char>, rd: nat, wr: nat, n: nat)
    requires rd < |buf| && wr < |buf| && n <= Used(|buf|, rd, wr)
    ensures Contents(buf, Cell(|buf|, rd, n), wr) == Contents(buf, rd, wr)[n..]
  {
    var rest := Contents(buf, Cell(|buf|, rd, n), wr);
    assert |rest| == Used(|buf|, rd, wr) - n;
    forall i | 0 <= i < |rest|
      ensures rest[i] == Contents(buf, rd, wr)[n..][i]
    {
      assert Cell(|buf|, Cell(|buf|, rd, n), i) == Cell(|buf|, rd, n + i);
    }
  }

  function Min(a: nat, b: nat): nat {
    if a < b then a else b
  }

  // ----- the buffer and its two parties -----

  class UpBuffer {
    const buffer: array<char>
    var wrOff: nat
    var rdOff: nat
    var hostRead: seq<char>
    ghost var accepted: seq<char>

    ghost predicate Ready()
      reads this, buffer
    {
      wrOff < buffer.Length && rdOff < buffer.Length
    }

    ghost function Unread(): seq<char>
      requires Ready()
      reads this, buffer
    {
      Contents(buffer[..], rdOff, wrOff)
    }

    /** First in, first out, nothing lost and nothing invented: what the host has read
        followed by what the ring still holds is the concatenation of the accepted
        messages. */
    ghost predicate Valid()
      reads this, buffer
    {
      Ready() && hostRead + Unread() == accepted
    }

    constructor (size: nat)
      requires size > 0
      ensures Valid() && fresh(buffer) && buffer.Length == size
      ensures hostRead == [] && accepted == [] && Unread() == []
    {
      buffer := new char[size];
      wrOff, rdOff, hostRead, accepted := 0, 0, [], [];
    }

    /** The host takes up to `wanted` published bytes. */
    method HostReads(wanted: nat)
      requires Valid()
      modifies this`rdOff, this`hostRead
      ensures Valid()
      ensures hostRead == old(hostRead) + old(Unread())[..Min(wanted, |old(Unread())|)]
      ensures Unread() == old(Unread())[Min(wanted, |old(Unread())|)..]
    {
      var n := Min(wanted, Used(buffer.Length, rdOff, wrOff));
      ghost var unread := Unread();
      var taken: seq<char> := [];
      for i := 0 to n
        invariant taken == unread[..i]
      {
        taken := taken + [buffer[Cell(buffer.Length, rdOff, i)]];
      }
      assert hostRead + unread == (hostRead + taken) + unread[n..];
      ReadingDrops(buffer[..], rdOff, wrOff, n);
      hostRead := hostRead + taken;
      rdOff := Cell(buffer.Length, rdOff, n);
    }

    method SpaceAvailable() returns (n: nat)
      requires Ready()
      ensures n == buffer.Length - 1 - |Unread()|
    {
      if rdOff > wrOff {
        n := rdOff - wrOff - 1;
      } else {
        n := buffer.Length - wrOff + rdOff - 1;
      }
    }

    /** One log message. The host may read at any moment: `host(i)` is how many bytes
        it takes just before step `i`, where step 0 is the space check, steps 1 to
        `|data|` copy a byte each and the next publishes the write offset. A message
        is accepted whole or not at all; it is refused exactly when it is empty, can
        never fit, or does not fit the space the check sees. */
    method Write(data: seq<char>, host: nat -> nat) returns (ok: bool)
      requires Valid()
      modifies this, buffer
      ensures Valid() && accepted == old(accepted) + (if ok then data else [])
      ensures old(hostRead) <= hostRead
      ensures ok <==> 0 < |data| < buffer.Length &&
                      |data| + |old(Unread())| - Min(host(0), |old(Unread())|) < buffer.Length
    {
      if |data| == 0 || |data| >= buffer.Length {
        return false;
      }
      HostReads(host(0));
      var space := SpaceAvailable();
      if space < |data| {
        return false;
      }
      var wr := wrOff;
      for i := 0 to |data|
        invariant Valid() && accepted == old(accepted) && wrOff == old(wrOff) && old(hostRead) <= hostRead
        invariant |data| + |Unread()| < buffer.Length
        invariant wr == Cell(buffer.Length, wrOff, i)
        invariant Copied(data, i)
      {
        HostReads(host(i + 1));
        CopyByte(wr, data, i);
        wr := wr + 1;
        if wr >= buffer.Length { wr := 0; }
      }
      HostReads(host(|data| + 1));
      Publish(data, wr);
      ok := true;
    }

    /** The first `i` bytes of the message are in the free cells. */
    ghost predicate Copied(data: seq<char>, i: nat)
      requires wrOff < buffer.Length && i <= |data| < buffer.Length
      reads this`wrOff, buffer
    {
      forall j | 0 <= j < i :: buffer[Cell(buffer.Length, wrOff, j)] == data[j]
    }

    method CopyByte(wr: nat, data: seq<char>, i: nat)
      requires Valid() && i < |data| && |data| + |Unread()| < buffer.Length
      requires wr == Cell(buffer.Length, wrOff, i) && Copied(data, i)
      modifies buffer
      ensures Valid() && Unread() == old(Unread()) && Copied(data, i + 1)
    {
      FreeCellIsInvisible(buffer[..], rdOff, wrOff, i, data[i]);
      buffer[wr] := data[i];
      assert buffer[..] == old(buffer[..])[wr := data[i]];
    }

    method Publish(data: seq<char>, wr: nat)
      requires Valid() && 0 < |data| && |data| + |Unread()| < buffer.Length
      requires wr == Cell(buffer.Length, wrOff, |data|) && Copied(data, |data|)
      modifies this`wrOff, this`accepted
      ensures Valid() && accepted == old(accepted) + data && Unread() == old(Unread()) + data
    {
      PublishingAppends(buffer[..], rdOff, wrOff, data);
      wrOff := wr;
      accepted := accepted + data;
    }
  }
}
