/** The state both ends share, updated in place, and its operations. */
module Radio {
  import opened Bytes
  import opened IpFilter
  import opened MacFrames
  import opened Arq

  class RadioInterface {
    var readBuffer: seq<Packet>
    var frameBuffer: seq<byte>

    // TX state
    var nextTxSeq: byte
    var txInFlight: bool
    var txInflightSeq: byte
    var txInflightBytesLeft: byte
    var txInflightPayload: seq<byte>

    // RX ACK state
    var lastRxSeq: Option<byte>

    // The tunnel thread may read again, and what has been written to the TUN device.
    var tunnelReady: bool
    var tunnelOutput: seq<Packet>

    /** With nothing in flight, the in-flight fields are cleared. No method needs it and every method keeps it. */
    ghost predicate Cleared()
      reads this
    {
      !txInFlight ==> txInflightSeq == 0 && txInflightBytesLeft == 0 && txInflightPayload == []
    }

    ghost function Tx(): Sender
      reads this
    {
      Sender(readBuffer, tunnelReady, nextTxSeq,
             if txInFlight then Some(Fragment(txInflightSeq, txInflightBytesLeft, txInflightPayload)) else None)
    }

    ghost function Rx(): Receiver
      reads this
    {
      Receiver(lastRxSeq, frameBuffer, tunnelOutput)
    }

    ghost function View(): Endpoint
      reads this
    {
      Endpoint(Tx(), Rx())
    }

    constructor ()
      ensures readBuffer == [] && frameBuffer == [] && nextTxSeq == 1 && !txInFlight && lastRxSeq == None
      ensures tunnelReady && tunnelOutput == []
      ensures Cleared() && View() == NEW_ENDPOINT
    {
      readBuffer, frameBuffer := [], [];
      nextTxSeq, txInFlight, txInflightSeq, txInflightBytesLeft, txInflightPayload := 1, false, 0, 0, [];
      lastRxSeq, tunnelReady, tunnelOutput := None, true, [];
    }

    method AdvanceTxSeq()
      modifies this`nextTxSeq
      ensures nextTxSeq == Arq.AdvanceTxSeq(old(nextTxSeq))
      ensures old(Cleared()) ==> Cleared()
    {
      nextTxSeq := (nextTxSeq + 1) % 256;
      if nextTxSeq == 0 || nextTxSeq > MAX_SEQ {
        nextTxSeq := 1;
      }
    }

    method ResetRxAssemblyLocked()
      modifies this`frameBuffer, this`lastRxSeq
      ensures Rx() == ResetRxAssembly(old(Rx()))
    {
      frameBuffer := [];
      lastRxSeq := None;
    }

    /** What both ends do to this state in a reset. */
    method ResetSessionLocked()
      modifies this
      ensures Cleared() && View() == ResetSession(old(View()))
    {
      nextTxSeq := 1;
      txInFlight := false;
      txInflightSeq := 0;
      txInflightBytesLeft := 0;
      txInflightPayload := [];
      lastRxSeq := None;
      frameBuffer := [];
    }

    /** One pass of the tunnel thread: a read that returned, or a look at the queue length. */
    method TunnelPass(e: TunnelEvent)
      modifies this`readBuffer, this`tunnelReady
      ensures View() == old(View()).(tx := TunnelStep(old(Tx()), e))
      ensures e.Read? && old(tunnelReady) ==>
                readBuffer == old(readBuffer) +
                              if IsValidIpPacket(FirstBytes(e.bytes)) then [FirstBytes(e.bytes)] else []
      ensures e.Poll? ==> readBuffer == old(readBuffer) && tunnelReady == (old(tunnelReady) || |readBuffer| <= 1024)
      ensures old(Cleared()) ==> Cleared()
    {
      match e
      case Read(bytes) =>
        if tunnelReady {
          var packet := bytes[..Min(|bytes|, TUNNEL_READ_SIZE)];
          assert packet == FirstBytes(bytes);
          if IsValidIpPacket(packet) {
            readBuffer := readBuffer + [packet];
            tunnelReady := false;
          }
        }
      case Poll =>
        if |readBuffer| <= MAX_BUFFERED_FRAMES {
          tunnelReady := true;
        }
    }

    /** The tunnel thread at work while the radio thread does not hold the mutex. */
    method TunnelThread(es: seq<TunnelEvent>)
      modifies this`readBuffer, this`tunnelReady
      ensures View() == old(View()).(tx := TunnelRun(old(Tx()), es))
      ensures old(Cleared()) ==> Cleared()
    {
      for i := 0 to |es|
        invariant old(Cleared()) ==> Cleared()
        invariant Rx() == old(Rx())
        invariant TunnelRun(Tx(), es[i..]) == TunnelRun(old(Tx()), es)
      {
        assert es[i..][1..] == es[i + 1..];
        TunnelPass(es[i]);
      }
    }

    method BuildNextDataFrameLocked() returns (ok: bool, frame: MacFrame)
      modifies this`txInFlight, this`txInflightSeq, this`txInflightBytesLeft, this`txInflightPayload
      ensures Rx() == old(Rx())
      ensures old(Cleared()) ==> Cleared()
      ensures var (tx, f) := BuildNextData(old(Tx()), AckField(old(Rx())));
              Tx() == tx && ok == f.Some? && (ok ==> f.value == frame)
      ensures ok && !old(txInFlight) ==>
                && old(readBuffer) != []
                && var front := old(readBuffer[0]);
                   frame == MacFrame(3, nextTxSeq, if lastRxSeq.Some? then lastRxSeq.value else 0,
                                     BytesLeft(|readBuffer|), BytesLeft(|front|),
                                     if |front| <= 27 then front else front[..27])
    {
      frame := MacFrame(DATA, 0, if lastRxSeq.Some? then lastRxSeq.value else NO_SEQ, Min(|readBuffer|, 255), 0, []);
      if txInFlight {
        frame := frame.(seqNo := txInflightSeq, arg := txInflightBytesLeft, payload := txInflightPayload);
        return true, frame;
      }
      if readBuffer == [] {
        return false, frame;
      }
      var current := readBuffer[0];
      var transferSize := TransferSize(current);
      txInFlight := true;
      txInflightSeq := nextTxSeq;
      txInflightBytesLeft := Min(|current|, 255);
      txInflightPayload := current[..transferSize];
      frame := frame.(seqNo := txInflightSeq, arg := txInflightBytesLeft, payload := txInflightPayload);
      ok := true;
    }

    method CommitAckLocked(ackSeq: byte)
      modifies this`readBuffer, this`nextTxSeq
      modifies this`txInFlight, this`txInflightSeq, this`txInflightBytesLeft, this`txInflightPayload
      ensures View() == old(View()).(tx := CommitAck(old(Tx()), ackSeq))
      ensures old(Cleared()) ==> Cleared()
    {
      if !txInFlight {
        return;
      }
      if ackSeq != txInflightSeq {
        return;
      }
      if readBuffer != [] {
        var front := readBuffer[0];
        var consumed := Min(|front|, |txInflightPayload|);
        front := front[consumed..];
        readBuffer := if front == [] then readBuffer[1..] else [front] + readBuffer[1..];
      }
      txInFlight := false;
      txInflightSeq := 0;
      txInflightBytesLeft := 0;
      txInflightPayload := [];
      AdvanceTxSeq();
    }

    method WriteTunnel()
      modifies this`frameBuffer, this`tunnelOutput
      ensures Rx() == Arq.WriteTunnel(old(Rx()))
    {
      if !IsValidIpPacket(frameBuffer) {
        frameBuffer := [];
        return;
      }
      tunnelOutput := tunnelOutput + [frameBuffer];
      frameBuffer := [];
    }

    method ConsumeDataFrameLocked(frame: MacFrame) returns (ok: bool)
      modifies this`frameBuffer, this`lastRxSeq, this`tunnelOutput
      ensures Tx() == old(Tx())
      ensures old(Cleared()) ==> Cleared()
      ensures (Rx(), ok) == ConsumeData(old(Rx()), frame)
    {
      if frame.kind != DATA {
        return true;
      }
      if frame.seqNo == 0 {
        ResetRxAssemblyLocked();
        return false;
      }
      if lastRxSeq.Some? {
        var last := lastRxSeq.value;
        var expected := NextSeq(last);
        if frame.seqNo == last {
          return true;
        }
        if frame.seqNo != expected {
          ResetRxAssemblyLocked();
          return false;
        }
      }
      lastRxSeq := Some(frame.seqNo);
      if frame.payload != [] {
        frameBuffer := frameBuffer + frame.payload;
        if frame.arg <= MAX_PAYLOAD_SIZE {
          WriteTunnel();
        }
      }
      ok := true;
    }
  }
}
