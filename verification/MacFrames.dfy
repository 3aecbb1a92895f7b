/** The 32-byte MAC frame and its codec. */
module MacFrames {
  import opened Bytes

  // Frame types. A received type is a raw byte: any of the 256 values can arrive.
  const INVALID: byte := 0
  const PENDING: byte := 1
  const GRANT: byte := 2
  const DATA: byte := 3
  const ACK: byte := 4
  const RESET: byte := 5

  const MAX_PACKET_SIZE := 32
  const HEADER_SIZE := 5
  const MAX_PAYLOAD_SIZE := 27

  datatype MacFrame = MacFrame(
    kind: byte,
    seqNo: byte,
    ack: byte,
    pending: byte,
    arg: byte,
    payload: seq<byte>)

  const RESET_FRAME := MacFrame(RESET, 0, 0, 0, 0, [])

  function Zeros(n: nat): (z: seq<byte>)
    ensures |z| == n
    ensures forall i :: 0 <= i < n ==> z[i] == 0
  {
    seq(n, _ => 0)
  }

  /** Header, payload, zero padding; no frame when the payload does not fit. */
  function Encode(f: MacFrame): Option<seq<byte>> {
    if |f.payload| > MAX_PAYLOAD_SIZE then
      None
    else
      Some([f.kind, f.seqNo, f.ack, f.pending, f.arg] + f.payload + Zeros(MAX_PAYLOAD_SIZE - |f.payload|))
  }

  function Decode(wire: seq<byte>): Option<MacFrame> {
    if |wire| != MAX_PACKET_SIZE then
      None
    else
      var size := if wire[0] == DATA && wire[4] > 0 then Min(wire[4], MAX_PAYLOAD_SIZE) else 0;
      Some(MacFrame(wire[0], wire[1], wire[2], wire[3], wire[4], wire[HEADER_SIZE..HEADER_SIZE + size]))
  }

  /** The wire format, byte by byte: which frames fit, and where each field of one lies. */
  lemma WireLayout(f: MacFrame)
    ensures Encode(f).Some? <==> |f.payload| <= 27
    ensures Encode(f).Some? ==>
              var wire := Encode(f).value;
              && |wire| == 32
              && wire[0] == f.kind && wire[1] == f.seqNo && wire[2] == f.ack && wire[3] == f.pending && wire[4] == f.arg
              && (forall k :: 0 <= k < |f.payload| ==> wire[5 + k] == f.payload[k])
              && (forall k :: 5 + |f.payload| <= k < 32 ==> wire[k] == 0)
  {}

  /** What is read off any received bytes: 32 make a frame, and only type 3 has a payload, of up to 27 bytes. */
  lemma ReadLayout(wire: seq<byte>)
    ensures Decode(wire).Some? <==> |wire| == 32
    ensures Decode(wire).Some? ==>
              var f := Decode(wire).value;
              && f.kind == wire[0] && f.seqNo == wire[1] && f.ack == wire[2] && f.pending == wire[3] && f.arg == wire[4]
              && |f.payload| == (if wire[0] != 3 then 0 else if wire[4] <= 27 then wire[4] else 27)
              && (forall k :: 0 <= k < |f.payload| ==> f.payload[k] == wire[5 + k])
  {}

  /** The type codes of the six kinds of frame. */
  lemma TypeCodes()
    ensures INVALID == 0 && PENDING == 1 && GRANT == 2 && DATA == 3 && ACK == 4 && RESET == 5
  {}

  /** The payload length is the one the decoder will infer from type and arg. */
  predicate Canonical(f: MacFrame) {
    |f.payload| == if f.kind == DATA then Min(f.arg, MAX_PAYLOAD_SIZE) else 0
  }

  /** The wire round trip is the identity on exactly the canonical frames. */
  lemma CodecRoundTrip(f: MacFrame)
    ensures Canonical(f) <==> Encode(f).Some? && Decode(Encode(f).value) == Some(f)
  {
    if Encode(f).Some? {
      var wire := Encode(f).value;
      assert |wire| == MAX_PACKET_SIZE;
      var g := Decode(wire).value;
      if Canonical(f) {
        assert wire[HEADER_SIZE..HEADER_SIZE + |f.payload|] == f.payload;
        assert g.payload == f.payload;
      } else {
        assert |g.payload| != |f.payload|;
      }
    }
  }

  /** Fills a fresh 32-byte buffer in place, one payload byte at a time. */
  method EncodeMacFrame(frame: MacFrame) returns (ok: bool, packet: array<byte>)
    ensures packet.Length == 32
    ensures ok <==> |frame.payload| <= 27
    ensures ok ==>
              && packet[0] == frame.kind && packet[1] == frame.seqNo && packet[2] == frame.ack
              && packet[3] == frame.pending && packet[4] == frame.arg
              && (forall k :: 0 <= k < |frame.payload| ==> packet[5 + k] == frame.payload[k])
              && (forall k :: 5 + |frame.payload| <= k < 32 ==> packet[k] == 0)
    ensures ok <==> Encode(frame).Some?
    ensures packet[..] == if ok then Encode(frame).value else Zeros(MAX_PACKET_SIZE)
  {
    packet := new byte[MAX_PACKET_SIZE](_ => 0);
    if |frame.payload| > MAX_PAYLOAD_SIZE {
      return false, packet;
    }
    packet[0] := frame.kind;
    packet[1] := frame.seqNo;
    packet[2] := frame.ack;
    packet[3] := frame.pending;
    packet[4] := frame.arg;
    ghost var header := [frame.kind, frame.seqNo, frame.ack, frame.pending, frame.arg];
    for i := 0 to |frame.payload|
      invariant packet[..HEADER_SIZE] == header
      invariant forall k :: 0 <= k < i ==> packet[HEADER_SIZE + k] == frame.payload[k]
      invariant forall k :: HEADER_SIZE + i <= k < MAX_PACKET_SIZE ==> packet[k] == 0
    {
      packet[HEADER_SIZE + i] := frame.payload[i];
    }
    var n := HEADER_SIZE + |frame.payload|;
    assert packet[HEADER_SIZE..n] == frame.payload;
    assert packet[n..] == Zeros(MAX_PACKET_SIZE - n);
    assert packet[..] == packet[..HEADER_SIZE] + packet[HEADER_SIZE..n] + packet[n..];
    ok := true;
  }

  method DecodeMacFrame(packet: array<byte>) returns (ok: bool, frame: MacFrame)
    ensures ok <==> packet.Length == 32
    ensures ok ==>
              && frame.kind == packet[0] && frame.seqNo == packet[1] && frame.ack == packet[2]
              && frame.pending == packet[3] && frame.arg == packet[4]
              && |frame.payload| == (if packet[0] != 3 then 0 else if packet[4] <= 27 then packet[4] else 27)
              && (forall k :: 0 <= k < |frame.payload| ==> frame.payload[k] == packet[5 + k])
    ensures Decode(packet[..]) == if ok then Some(frame) else None
  {
    frame := MacFrame(INVALID, 0, 0, 0, 0, []);
    if packet.Length != MAX_PACKET_SIZE {
      return false, frame;
    }
    frame := frame.(kind := packet[0], seqNo := packet[1], ack := packet[2],
                    pending := packet[3], arg := packet[4], payload := []);
    if frame.kind == DATA && frame.arg > 0 {
      var size := Min(frame.arg, MAX_PAYLOAD_SIZE);
      frame := frame.(payload := frame.payload + packet[HEADER_SIZE..HEADER_SIZE + size]);
    }
    assert frame.payload == packet[..][HEADER_SIZE..HEADER_SIZE + |frame.payload|];
    ok := true;
  }
}
