/**
 * Serial packet reassembly (firmware/src/io.rs).
 *
 * `Serial` owns a 64-byte receive buffer and a write index.  `Poll` appends what
 * the USB serial port delivered; `ReadPacket` looks for the carriage-return
 * terminator and hands the bytes before it to the caller.  The USB device and
 * the CDC port are not modelled: `Poll` receives the outcome of their poll and
 * read as parameters.
 */
module Io {
  import opened Wrappers
  import opened Ints

  const BUF_SIZE: nat := 64
  /** The frame terminator is a carriage return. */
  const TERMINATOR: u8 := 13

  /** What `read_packet` gives back to its caller. */
  datatype ReadOutcome =
    | Packet(len: nat)             // `Ok(len)`; 0 means no complete packet yet
    | PacketBufTooSmall            // `Err("provided packet buffer too small")`
    | TerminatorNotAtEnd(at: nat)  // the `panic!` for a terminator before the last byte

  /** Index of the first terminator in `s`, if any. */
  function FindTerminator(s: seq<u8>): (r: Option<nat>)
    ensures r.None? <==> TERMINATOR !in s
    ensures r.Some? ==> r.value < |s| && s[r.value] == TERMINATOR && TERMINATOR !in s[..r.value]
  {
    if |s| == 0 then None
    else if s[0] == TERMINATOR then Some(0)
    else match FindTerminator(s[1..])
      case None => None
      case Some(i) =>
        assert s[..i + 1] == [s[0]] + s[1..][..i];
        Some(i + 1)
  }

  /** A terminator at `i` with none before it is the one `FindTerminator` reports. */
  lemma FirstTerminatorIs(s: seq<u8>, i: nat)
    requires i < |s| && s[i] == TERMINATOR && TERMINATOR !in s[..i]
    ensures FindTerminator(s) == Some(i)
  {
  }

  /**
   * True when `read_packet` consumes the buffered bytes: the first terminator is the
   * last buffered byte and the bytes before it fit into `capacity`.
   */
  predicate Delivers(pending: seq<u8>, capacity: nat)
  {
    FindTerminator(pending) == Some(|pending| - 1) && |pending| - 1 <= capacity
  }

  /** The outcome of `read_packet` on the buffered bytes `pending`. */
  function Deframe(pending: seq<u8>, capacity: nat): (r: ReadOutcome)
    ensures TERMINATOR !in pending ==> r == Packet(0)
    ensures r.Packet? && r.len > 0 ==> Delivers(pending, capacity)
    ensures Delivers(pending, capacity) ==> r == Packet(|pending| - 1)
    ensures Delivers(pending, capacity) <==> TERMINATOR in pending && r.Packet?
    ensures r.TerminatorNotAtEnd? <==>
      exists i :: 0 <= i < |pending| - 1 && pending[i] == TERMINATOR
    ensures r == PacketBufTooSmall <==>
      |pending| > 0 && FindTerminator(pending) == Some(|pending| - 1) && |pending| - 1 > capacity
  {
    if |pending| == 0 then Packet(0)
    else match FindTerminator(pending)
      case None => Packet(0)
      case Some(i) =>
        if i + 1 != |pending| then TerminatorNotAtEnd(i)
        else if i > capacity then PacketBufTooSmall
        else Packet(i)
  }

  /**
   * A payload without terminator, followed by one terminator, is delivered whole
   * when it fits the caller's buffer, and refused otherwise.
   */
  lemma {:induction false} DeframeFrame(payload: seq<u8>, capacity: nat)
    requires TERMINATOR !in payload
    ensures Deframe(payload + [TERMINATOR], capacity) ==
      (if |payload| <= capacity then Packet(|payload|) else PacketBufTooSmall)
  {
    var s := payload + [TERMINATOR];
    assert s[..|payload|] == payload;
    FirstTerminatorIs(s, |payload|);
  }

  /** A delivered packet never contains the terminator and is shorter than the buffer. */
  lemma DeliveredPacketShape(pending: seq<u8>, capacity: nat)
    requires |pending| <= BUF_SIZE
    requires Deframe(pending, capacity).Packet?
    ensures Deframe(pending, capacity).len < BUF_SIZE
    ensures TERMINATOR !in pending[..Deframe(pending, capacity).len]
  {
    var r := Deframe(pending, capacity);
    if r.len > 0 {
      assert FindTerminator(pending) == Some(r.len);
    }
  }

  class Serial {
    var buf: array<u8>
    var bufI: nat

    ghost predicate Valid()
      reads this
    {
      buf.Length == BUF_SIZE && bufI <= BUF_SIZE
    }

    /** The bytes received and not yet handed out as a packet. */
    ghost function Pending(): seq<u8>
      reads this, buf
      requires Valid()
    {
      buf[..bufI]
    }

    /** `Serial::new`: a zeroed buffer, nothing pending. */
    constructor ()
      ensures Valid() && fresh(buf)
      ensures bufI == 0 && buf[..] == seq(BUF_SIZE, _ => 0)
    {
      buf := new u8[BUF_SIZE](_ => 0);
      bufI := 0;
    }

    /**
     * `Serial::poll`.  `devicePolled` is what `usb_dev.poll` answered; `read` is the
     * outcome of `port.read` into `buf[bufI..]` (`None` for an error), which by the
     * port's contract delivers at most the free space.
     */
    method Poll(devicePolled: bool, read: Option<seq<u8>>) returns (count: nat)
      requires Valid()
      requires read.Some? ==> |read.value| <= BUF_SIZE - bufI
      modifies this, buf
      ensures Valid() && buf == old(buf)
      ensures count == (if devicePolled && read.Some? then |read.value| else 0)
      ensures bufI == old(bufI) + count
      ensures Pending() == old(Pending()) + (if count > 0 then read.value else [])
      ensures buf[bufI..] == old(buf[..])[bufI..]
    {
      if !devicePolled {
        return 0;
      }
      match read {
        case None =>
          count := 0;
        case Some(bytes) =>
          forall k | 0 <= k < |bytes| {
            buf[bufI + k] := bytes[k];
          }
          bufI := bufI + |bytes|;
          count := |bytes|;
      }
    }

    /**
     * `Serial::read_packet`.  Scans the pending bytes for the first terminator; when
     * it is the last pending byte and the bytes before it fit, copies them to the
     * front of `packetBuf` and empties the receive buffer.  Every other outcome
     * leaves the receive buffer and `packetBuf` as they were.
     */
    method ReadPacket(packetBuf: array<u8>) returns (r: ReadOutcome)
      requires Valid() && packetBuf != buf
      modifies this`bufI, packetBuf
      ensures Valid()
      ensures r == Deframe(old(Pending()), packetBuf.Length)
      ensures Delivers(old(Pending()), packetBuf.Length) ==>
        && bufI == 0
        && packetBuf[..r.len] == old(Pending())[..r.len]
        && packetBuf[r.len..] == old(packetBuf[r.len..])
      ensures !Delivers(old(Pending()), packetBuf.Length) ==>
        bufI == old(bufI) && packetBuf[..] == old(packetBuf[..])
    {
      if bufI == 0 {
        return Packet(0);
      }
      var i := 0;
      while i < bufI
        invariant 0 <= i <= bufI
        invariant TERMINATOR !in buf[..i]
      {
        if buf[i] == TERMINATOR {
          assert buf[..bufI][..i] == buf[..i];
          FirstTerminatorIs(buf[..bufI], i);
          if i + 1 != bufI {
            return TerminatorNotAtEnd(i);
          }
          if i > packetBuf.Length {
            return PacketBufTooSmall;
          }
          bufI := 0;
          forall k | 0 <= k < i {
            packetBuf[k] := buf[k];
          }
          return Packet(i);
        }
        assert buf[..i + 1] == buf[..i] + [buf[i]];
        i := i + 1;
      }
      assert buf[..bufI] == buf[..i];
      return Packet(0);
    }
  }
}
