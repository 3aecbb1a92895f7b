/**
 The stop-and-wait ARQ endpoint shared by both ends: the queue of packets read from the
 tunnel, the fragment in flight, the receive side with its reassembly buffer.
 */
module Arq {
  import opened Bytes
  import opened IpFilter
  import opened MacFrames

  const NO_SEQ: byte := 0
  const MAX_SEQ: byte := 31
  const MAX_BUFFERED_FRAMES := 1024
  const TUNNEL_READ_SIZE := 3200

  /** The fragment in flight: tx_inflight_seq_, tx_inflight_bytes_left_, tx_inflight_payload_. */
  datatype Fragment = Fragment(seqNo: byte, bytesLeft: byte, payload: seq<byte>)

  /** The transmit half. `ready` is false while the tunnel thread waits for the queue to shrink. */
  datatype Sender = Sender(queue: seq<Packet>, ready: bool, nextSeq: byte, inflight: Option<Fragment>)

  /** The receive half. `written` is the log of packets handed to the TUN device. */
  datatype Receiver = Receiver(last: Option<byte>, assembly: seq<byte>, written: seq<Packet>)

  datatype Endpoint = Endpoint(tx: Sender, rx: Receiver)

  const NEW_ENDPOINT := Endpoint(Sender([], true, 1, None), Receiver(None, [], []))

  // ---- Sequence numbers: 1..31, with 0 meaning "none". ----

  function AdvanceTxSeq(s: byte): byte {
    var next := (s + 1) % 256;
    if next == 0 || next > MAX_SEQ then 1 else next
  }

  function NextSeq(s: byte): byte {
    if s == 0 || s >= MAX_SEQ then 1 else s + 1
  }

  // ---- The tunnel thread. ----

  /** One thing the tunnel thread can do: return from a read, or re-check the queue length. */
  datatype TunnelEvent = Read(bytes: seq<byte>) | Poll

  /** What read() leaves in the 3200-byte buffer. */
  function ReadResult(bytes: seq<byte>): seq<byte> {
    bytes[..Min(|bytes|, TUNNEL_READ_SIZE)]
  }

  /** The packet this event puts on the queue, if any. */
  function Queued(s: Sender, e: TunnelEvent): seq<Packet> {
    if e.Read? && s.ready && IsValidIpPacket(ReadResult(e.bytes)) then [ReadResult(e.bytes)] else []
  }

  function TunnelStep(s: Sender, e: TunnelEvent): Sender {
    match e
    case Read(bytes) =>
      if s.ready && IsValidIpPacket(ReadResult(bytes)) then
        s.(queue := s.queue + [ReadResult(bytes)], ready := false)
      else
        s
    case Poll => if |s.queue| > MAX_BUFFERED_FRAMES then s else s.(ready := true)
  }

  function TunnelRun(s: Sender, es: seq<TunnelEvent>): Sender
    decreases |es|
  {
    if es == [] then s else TunnelRun(TunnelStep(s, es[0]), es[1..])
  }

  function AllQueued(s: Sender, es: seq<TunnelEvent>): seq<Packet>
    decreases |es|
  {
    if es == [] then [] else Queued(s, es[0]) + AllQueued(TunnelStep(s, es[0]), es[1..])
  }

  // ---- Transmit side. ----

  predicate HasData(s: Sender) {
    s.inflight.Some? || s.queue != []
  }

  function TransferSize(p: Packet): nat {
    Min(|p|, MAX_PAYLOAD_SIZE)
  }

  /** The ack field of every frame an endpoint sends. */
  function AckField(r: Receiver): byte {
    if r.last.Some? then r.last.value else NO_SEQ
  }

  function NewFragment(p: Packet, seqNo: byte): Fragment {
    Fragment(seqNo, Min(|p|, 255), p[..TransferSize(p)])
  }

  function DataFrame(g: Fragment, ack: byte, queued: nat): MacFrame {
    MacFrame(DATA, g.seqNo, ack, Min(queued, 255), g.bytesLeft, g.payload)
  }

  /** Repeats the fragment in flight, or cuts a new one from the front packet. */
  function BuildNextData(s: Sender, ack: byte): (Sender, Option<MacFrame>) {
    if s.inflight.Some? then
      (s, Some(DataFrame(s.inflight.value, ack, |s.queue|)))
    else if s.queue == [] then
      (s, None)
    else
      var g := NewFragment(s.queue[0], s.nextSeq);
      (s.(inflight := Some(g)), Some(DataFrame(g, ack, |s.queue|)))
  }

  predicate Commits(s: Sender, ack: byte) {
    s.inflight.Some? && ack == s.inflight.value.seqNo
  }

  /** The bytes a commit erases from the front packet. */
  function Erased(s: Sender): seq<byte>
    requires s.inflight.Some?
  {
    if s.queue == [] then [] else s.queue[0][..Min(|s.queue[0]|, |s.inflight.value.payload|)]
  }

  function CommitAck(s: Sender, ack: byte): Sender {
    if !Commits(s, ack) then
      s
    else
      var queue :=
        if s.queue == [] then
          []
        else
          var rest := s.queue[0][|Erased(s)|..];
          if rest == [] then s.queue[1..] else [rest] + s.queue[1..];
      s.(queue := queue, inflight := None, nextSeq := AdvanceTxSeq(s.nextSeq))
  }

  // ---- Receive side. ----

  function ResetRxAssembly(r: Receiver): Receiver {
    r.(last := None, assembly := [])
  }

  function WriteTunnel(r: Receiver): Receiver {
    if IsValidIpPacket(r.assembly) then
      r.(assembly := [], written := r.written + [r.assembly])
    else
      r.(assembly := [])
  }

  /** The DATA frame is the next one, not a retransmission and not out of order. */
  predicate Advances(r: Receiver, f: MacFrame) {
    && f.kind == DATA
    && f.seqNo != 0
    && (r.last.Some? ==> f.seqNo != r.last.value && f.seqNo == NextSeq(r.last.value))
  }

  function ConsumeData(r: Receiver, f: MacFrame): (Receiver, bool) {
    if f.kind != DATA then
      (r, true)
    else if f.seqNo == 0 then
      (ResetRxAssembly(r), false)
    else if r.last.Some? && f.seqNo == r.last.value then
      (r, true)
    else if r.last.Some? && f.seqNo != NextSeq(r.last.value) then
      (ResetRxAssembly(r), false)
    else
      var r1 := r.(last := Some(f.seqNo));
      if f.payload == [] then
        (r1, true)
      else
        var r2 := r1.(assembly := r1.assembly + f.payload);
        (if f.arg <= MAX_PAYLOAD_SIZE then WriteTunnel(r2) else r2, true)
  }

  /**
   Whatever frame arrives: it is refused exactly when it is DATA with no number or a number out of turn,
   and a refusal forgets the session's receive state and writes nothing. The next DATA frame adds its
   payload to the buffer; when its arg is at most 27, the buffer is emptied and written if it is a valid
   packet. Every other frame changes nothing.
   */
  lemma ConsumeAnyFrame(r: Receiver, f: MacFrame)
    ensures var (r1, ok) := ConsumeData(r, f);
            && (!ok <==>
                  f.kind == DATA && (f.seqNo == 0 || (r.last.Some? && f.seqNo != r.last.value && !Advances(r, f))))
            && (!ok ==> r1 == Receiver(None, [], r.written))
            && (ok && !Advances(r, f) ==> r1 == r)
            && (Advances(r, f) ==>
                  var whole := r.assembly + f.payload;
                  && ok && r1.last == Some(f.seqNo)
                  && r1.assembly == (if f.payload != [] && f.arg <= 27 then [] else whole)
                  && r1.written ==
                     r.written + (if f.payload != [] && f.arg <= 27 && IsValidIpPacket(whole) then [whole] else []))
  {
    hide IsValidIpPacket;
  }

  // ---- Both. ----

  /** What ApplyPeerResponse and ApplyCoordinatorRequest do first: commit, then consume DATA. */
  function Absorb(e: Endpoint, f: MacFrame): (Endpoint, bool) {
    var (rx, ok) := ConsumeData(e.rx, f);
    (Endpoint(CommitAck(e.tx, f.ack), rx), ok)
  }

  /** The part of a reset both ends share: everything but the packet queue and the output. */
  function ResetSession(e: Endpoint): Endpoint {
    Endpoint(e.tx.(nextSeq := 1, inflight := None), ResetRxAssembly(e.rx))
  }

  predicate SessionStart(e: Endpoint) {
    && e.tx.nextSeq == 1 && e.tx.inflight == None
    && e.rx.last == None && e.rx.assembly == []
  }

  // ---- Facts about the tunnel thread. ----

  /** The queue bound, as the tunnel thread enforces it: push only after a check that saw room. */
  predicate Bounded(s: Sender) {
    && |s.queue| <= MAX_BUFFERED_FRAMES + 1
    && (s.ready ==> |s.queue| <= MAX_BUFFERED_FRAMES)
  }

  lemma TunnelStepFacts(s: Sender, e: TunnelEvent)
    requires Bounded(s)
    ensures Bounded(TunnelStep(s, e))
    ensures TunnelStep(s, e) == s.(queue := s.queue + Queued(s, e), ready := TunnelStep(s, e).ready)
    ensures forall p <- Queued(s, e) :: IsValidIpPacket(p) && |p| <= TUNNEL_READ_SIZE
  {
    hide IsValidIpPacket;
  }

  lemma {:induction false} TunnelRunFacts(s: Sender, es: seq<TunnelEvent>)
    requires Bounded(s)
    ensures Bounded(TunnelRun(s, es))
    ensures TunnelRun(s, es) == s.(queue := s.queue + AllQueued(s, es), ready := TunnelRun(s, es).ready)
    ensures |TunnelRun(s, es).queue| <= 1025
    ensures forall p <- AllQueued(s, es) :: IsValidIpPacket(p) && |p| <= 3200
    decreases |es|
  {
    hide IsValidIpPacket, TunnelStep, Queued;
    if es == [] {
      assert s.queue + AllQueued(s, es) == s.queue;
    } else {
      var s1, q := TunnelStep(s, es[0]), Queued(s, es[0]);
      TunnelStepFacts(s, es[0]);
      TunnelRunFacts(s1, es[1..]);
      assert s.queue + (q + AllQueued(s1, es[1..])) == s.queue + q + AllQueued(s1, es[1..]);
    }
  }

  /** The tunnel thread only ever adds data; what is in flight stays as it is. */
  lemma {:induction false} DataStays(s: Sender, es: seq<TunnelEvent>)
    ensures HasData(s) ==> HasData(TunnelRun(s, es))
    ensures TunnelRun(s, es).inflight == s.inflight && TunnelRun(s, es).nextSeq == s.nextSeq
    ensures s.queue <= TunnelRun(s, es).queue
    decreases |es|
  {
    hide IsValidIpPacket;
    if es != [] {
      DataStays(TunnelStep(s, es[0]), es[1..]);
    }
  }

  /** What a read leaves of what the device had: the first 3200 bytes. */
  function FirstBytes(bytes: seq<byte>): seq<byte> {
    if |bytes| <= 3200 then bytes else bytes[..3200]
  }

  /**
   A look at the queue length and then a read, whatever the device delivers. With at most 1024 packets
   queued, the first 3200 bytes are queued exactly when the filter accepts them; with more, nothing is read.
   */
  lemma PollThenRead(s: Sender, bytes: seq<byte>)
    requires Bounded(s)
    ensures var p := FirstBytes(bytes);
            TunnelRun(TunnelRun(s, [Poll]), [Read(bytes)]).queue ==
            if |s.queue| <= 1024 && IsValidIpPacket(p) then s.queue + [p] else s.queue
  {
    hide IsValidIpPacket;
    assert ReadResult(bytes) == FirstBytes(bytes);
    assert [Poll][1..] == [] && [Read(bytes)][1..] == [];
    assert TunnelRun(s, [Poll]) == TunnelStep(s, Poll);
    assert TunnelRun(TunnelStep(s, Poll), [Read(bytes)]) == TunnelStep(TunnelStep(s, Poll), Read(bytes));
  }

  /**
   After a packet was queued, nothing more is read until a look at the queue finds at most 1024 packets;
   bytes the filter rejects are as if never read.
   */
  lemma ReadThenWait(s: Sender, first: seq<byte>, second: seq<byte>)
    requires s.ready
    ensures var s1 := TunnelRun(s, [Read(first)]);
            if IsValidIpPacket(FirstBytes(first)) then
              && s1 == s.(queue := s.queue + [FirstBytes(first)], ready := false)
              && TunnelRun(s1, [Read(second)]) == s1
              && TunnelRun(s1, [Poll]) == s1.(ready := |s1.queue| <= 1024)
            else
              s1 == s
  {
    hide IsValidIpPacket;
    assert ReadResult(first) == FirstBytes(first);
    assert [Poll][1..] == [] && [Read(first)][1..] == [] && [Read(second)][1..] == [];
    var s1 := TunnelStep(s, Read(first));
    assert TunnelRun(s, [Read(first)]) == s1;
    assert TunnelRun(s1, [Read(second)]) == TunnelStep(s1, Read(second));
    assert TunnelRun(s1, [Poll]) == TunnelStep(s1, Poll);
  }

  // ---- The fragment in flight. ----

  /** The bytes-left field for a packet of which n bytes are left. */
  function BytesLeft(n: nat): byte {
    if n < 256 then n else 255
  }

  /** The fragment in flight is cut from the queue front: its number, the bytes left, the first 27 of them. */
  ghost predicate FlightOk(s: Sender) {
    s.inflight.Some? ==>
      && s.queue != []
      && var front := s.queue[0];
         s.inflight.value == Fragment(s.nextSeq, BytesLeft(|front|), if |front| <= 27 then front else front[..27])
  }

  /** The DATA frame that a nonempty queue calls for, as it goes out: pending is always 1. */
  function NextData(s: Sender, ack: byte): MacFrame
    requires s.queue != []
  {
    var front := s.queue[0];
    MacFrame(3, s.nextSeq, ack, 1, BytesLeft(|front|), if |front| <= 27 then front else front[..27])
  }

  lemma BuildKeepsFlight(s: Sender, ack: byte)
    requires FlightOk(s)
    ensures var (s1, f) := BuildNextData(s, ack);
            && FlightOk(s1) && s1 == s.(inflight := s1.inflight)
            && (f.Some? <==> s.queue != [])
            && (f.Some? ==> f.value == NextData(s, ack).(pending := BytesLeft(|s.queue|)))
  {}

  lemma CommitKeepsFlight(s: Sender, ack: byte)
    requires FlightOk(s)
    ensures FlightOk(CommitAck(s, ack))
  {}

  lemma {:induction false} TunnelKeepsFlight(s: Sender, es: seq<TunnelEvent>)
    requires FlightOk(s)
    ensures FlightOk(TunnelRun(s, es))
    decreases |es|
  {
    hide IsValidIpPacket;
    if es != [] {
      TunnelKeepsFlight(TunnelStep(s, es[0]), es[1..]);
    }
  }

  /**
   From one fragment of a packet to the next: once the one in flight is acknowledged, the next DATA frame has the
   next number and the next 27 bytes, and its arg is 27 less, unless both are at the ceiling of 255.
   */
  lemma ArgsCountDown(s: Sender, ack: byte, reply: byte)
    requires FlightOk(s) && Commits(s, reply) && |s.queue[0]| > 27
    ensures var front, f := s.queue[0], BuildNextData(CommitAck(s, reply), ack).1;
            && f.Some? && (1 <= s.nextSeq <= 31 ==> f.value.seqNo == s.nextSeq % 31 + 1)
            && f.value.arg == BytesLeft(|front| - 27)
            && (s.inflight.value.bytesLeft < 255 ==> f.value.arg == s.inflight.value.bytesLeft - 27)
            && f.value.payload == (if |front| <= 54 then front[27..] else front[27..54])
  {
    var s1 := CommitAck(s, reply);
    CommitKeepsFlight(s, reply);
    BuildKeepsFlight(s1, ack);
    assert s1.queue[0] == s.queue[0][27..];
  }
}
