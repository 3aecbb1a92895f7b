/**
 One direction of traffic, seen from outside. A Flow is a history: it records what the
 sending end was given, what each end has done with it, and counts fragments without
 wrap-around. Nothing in the protocol reads it.

 `Kept` relates a flow to its two ends at all times, resets included. `Synced` holds
 in addition inside a session. The lemmas below say that each endpoint operation keeps them.
 */
module Flows {
  import opened Bytes
  import opened IpFilter
  import opened MacFrames
  import opened Arq

  /** Byte `off` of the `index`-th packet ever queued. */
  datatype Pos = Pos(index: nat, off: nat)

  /** A write to the TUN device: packet `index` from byte `from` on, in the given session. */
  datatype Delivery = Delivery(index: nat, from: nat, session: nat)

  datatype Flow = Flow(
    offered: seq<Packet>,         // every packet ever queued at the sending end
    committed: seq<byte>,         // every byte ever erased from the queue by an acknowledgement
    sent: Pos,                    // first byte not yet committed
    log: seq<Delivery>,           // every packet the receiving end ever wrote
    session: nat,                 // how often both ends have been reset together
    base: Pos,                    // `sent` at the start of the session
    recv: Pos,                    // first byte not yet accepted in this session
    acked: nat,                   // fragments committed in this session
    accepted: nat,                // fragments accepted in this session
    sessionCommitted: seq<byte>,  // bytes committed in this session
    sessionAccepted: seq<byte>,   // bytes accepted in this session
    logBase: nat,                 // length of `log` at the start of the session
    starts: seq<Pos>)             // where every session started

  const NEW_FLOW := Flow([], [], Pos(0, 0), [], 0, Pos(0, 0), Pos(0, 0), 0, 0, [], [], 0, [])

  // ---- How a flow follows its ends. ----

  function Offer(fl: Flow, s: Sender, es: seq<TunnelEvent>): Flow {
    Grow(fl, AllQueued(s, es))
  }

  function Grow(fl: Flow, ps: seq<Packet>): Flow {
    fl.(offered := fl.offered + ps)
  }

  function OnCommit(fl: Flow, s: Sender, ack: byte): Flow {
    if !Commits(s, ack) then
      fl
    else
      fl.(committed := fl.committed + Erased(s),
          sessionCommitted := fl.sessionCommitted + Erased(s),
          sent := NextPos(fl.offered, fl.sent),
          acked := fl.acked + 1)
  }

  function OnConsume(fl: Flow, r: Receiver, f: MacFrame): Flow {
    if !Advances(r, f) then
      fl
    else
      var wrote := |ConsumeData(r, f).0.written| > |r.written|;
      fl.(sessionAccepted := fl.sessionAccepted + f.payload,
          recv := NextPos(fl.offered, fl.recv),
          accepted := fl.accepted + 1,
          log := if wrote then fl.log + [Delivery(fl.recv.index, UnitStart(fl, fl.recv.index), fl.session)] else fl.log)
  }

  function OnSessionStart(fl: Flow): Flow {
    fl.(session := fl.session + 1, base := fl.sent, recv := fl.sent, acked := 0, accepted := 0,
        sessionCommitted := [], sessionAccepted := [], logBase := |fl.log|, starts := fl.starts + [fl.sent])
  }

  // ---- Positions. ----

  predicate PosOk(offered: seq<Packet>, p: Pos) {
    && p.index <= |offered|
    && (if p.index < |offered| then p.off < |offered[p.index]| else p.off == 0)
  }

  predicate PosLe(p: Pos, q: Pos) {
    p.index < q.index || (p.index == q.index && p.off <= q.off)
  }

  /** The fragment at `p` is the last one of its packet. */
  predicate IsLast(offered: seq<Packet>, p: Pos)
    requires p.index < |offered|
  {
    p.off + MAX_PAYLOAD_SIZE >= |offered[p.index]|
  }

  function NextPos(offered: seq<Packet>, p: Pos): Pos {
    if p.index < |offered| && !IsLast(offered, p) then Pos(p.index, p.off + MAX_PAYLOAD_SIZE) else Pos(p.index + 1, 0)
  }

  /** What is left to send from `p` on: the front packet may be a suffix. */
  function QueueAt(offered: seq<Packet>, p: Pos): seq<Packet>
    requires PosOk(offered, p)
  {
    if p.index < |offered| then [offered[p.index][p.off..]] + offered[p.index + 1..] else []
  }

  /** Where the unit with the given packet index begins: a session may start inside a packet. */
  function UnitStart(fl: Flow, index: nat): nat {
    if index == fl.base.index then fl.base.off else 0
  }

  /** The first packet index whose unit passes the filter at the far end in this session. */
  function FirstUnit(fl: Flow): nat
    requires PosOk(fl.offered, fl.base)
  {
    if fl.base.index == |fl.offered| || IsValidIpPacket(fl.offered[fl.base.index][fl.base.off..])
    then fl.base.index
    else fl.base.index + 1
  }

  // ---- Wire numbers. ----

  /** The 1..31 number of the n-th fragment of a session. */
  function WireSeq(n: nat): byte {
    n % 31 + 1
  }

  /** The ack field of an end that has accepted n fragments in this session. */
  function WireAck(n: nat): byte {
    if n == 0 then NO_SEQ else WireSeq(n - 1)
  }

  lemma WireSeqSteps(n: nat)
    ensures NextSeq(WireSeq(n)) == WireSeq(n + 1) == AdvanceTxSeq(WireSeq(n))
    ensures WireSeq(n) != WireSeq(n + 1)
  {}

  // ---- Invariants. ----

  /** Two writes of the same packet lie in different sessions, and the later one is its last fragment. */
  ghost predicate Ordered(offered: seq<Packet>, log: seq<Delivery>)
    requires forall k :: 0 <= k < |log| ==> log[k].index < |offered|
  {
    forall k, l :: 0 <= k < l < |log| ==>
      && log[k].index <= log[l].index
      && (log[k].index == log[l].index ==>
            log[k].session < log[l].session && log[l].from + MAX_PAYLOAD_SIZE >= |offered[log[l].index]|)
  }

  ghost predicate LogOk(fl: Flow, r: Receiver) {
    && |r.written| == |fl.log|
    && (forall k :: 0 <= k < |fl.log| ==>
          var d := fl.log[k];
          && d.index < |fl.offered|
          && d.from <= |fl.offered[d.index]|
          && d.session <= fl.session
          && r.written[k] == fl.offered[d.index][d.from..])
    && Ordered(fl.offered, fl.log)
  }

  /** Every logged packet lies before `sent`, or is the packet whose last fragment is at `sent`. */
  ghost predicate Settled(fl: Flow) {
    forall k :: 0 <= k < |fl.log| ==>
      || fl.log[k].index < fl.sent.index
      || (fl.log[k].index == fl.sent.index < |fl.offered| && IsLast(fl.offered, fl.sent))
  }

  ghost predicate AllValid(offered: seq<Packet>) {
    forall i :: 0 <= i < |offered| ==> IsValidIpPacket(offered[i])
  }

  predicate IsTail(tail: seq<byte>, all: seq<byte>) {
    |tail| <= |all| && all[|all| - |tail|..] == tail
  }

  /** The queue is what is left of the offered packets, and no byte is lost or invented. */
  ghost predicate QueueOk(fl: Flow, s: Sender) {
    && (forall i :: 0 <= i < |fl.offered| ==> 0 < |fl.offered[i]| <= TUNNEL_READ_SIZE)
    && PosOk(fl.offered, fl.sent)
    && s.queue == QueueAt(fl.offered, fl.sent)
    && fl.committed + Flatten(s.queue) == Flatten(fl.offered)
    && IsTail(fl.sessionCommitted, fl.committed)
    && Bounded(s)
  }

  ghost predicate Kept(fl: Flow, s: Sender, r: Receiver) {
    && AllValid(fl.offered)
    && QueueOk(fl, s)
    && LogOk(fl, r)
    && Settled(fl)
    && |r.assembly| <= TUNNEL_READ_SIZE
  }

  function FragmentAt(fl: Flow): Fragment
    requires PosOk(fl.offered, fl.sent) && fl.sent.index < |fl.offered|
  {
    NewFragment(fl.offered[fl.sent.index][fl.sent.off..], WireSeq(fl.acked))
  }

  /** The receiver has accepted the fragment in flight, but the sender does not know yet. */
  predicate Ahead(fl: Flow) {
    fl.accepted == fl.acked + 1
  }

  ghost predicate SenderSynced(fl: Flow, s: Sender)
    requires PosOk(fl.offered, fl.sent)
  {
    && s.nextSeq == WireSeq(fl.acked)
    && (s.inflight.Some? ==> fl.sent.index < |fl.offered| && s.inflight.value == FragmentAt(fl))
    && (if Ahead(fl)
        then s.inflight.Some? && fl.recv == NextPos(fl.offered, fl.sent)
             && fl.sessionAccepted == fl.sessionCommitted + s.inflight.value.payload
        else fl.accepted == fl.acked && fl.recv == fl.sent
             && fl.sessionAccepted == fl.sessionCommitted)
  }

  ghost predicate ReceiverSynced(fl: Flow, r: Receiver) {
    && r.last == (if fl.accepted == 0 then None else Some(WireSeq(fl.accepted - 1)))
    && PosOk(fl.offered, fl.recv)
    && UnitStart(fl, fl.recv.index) <= fl.recv.off
    && r.assembly == (if fl.recv.index < |fl.offered|
                      then fl.offered[fl.recv.index][UnitStart(fl, fl.recv.index)..fl.recv.off] else [])
  }

  /** The writes of this session: one per completed unit, in order, filter rejects left out. */
  ghost predicate SessionLogOk(fl: Flow)
    requires PosOk(fl.offered, fl.base)
  {
    && fl.logBase <= |fl.log|
    && |fl.log| - fl.logBase == (if fl.recv.index > FirstUnit(fl) then fl.recv.index - FirstUnit(fl) else 0)
    && (forall k :: fl.logBase <= k < |fl.log| ==>
          var index := FirstUnit(fl) + k - fl.logBase;
          fl.log[k] == Delivery(index, UnitStart(fl, index), fl.session))
    && (forall k :: 0 <= k < |fl.log| ==>
          || fl.log[k].index < fl.recv.index
          || (&& fl.log[k].index == fl.recv.index < |fl.offered| && fl.recv == fl.base
              && IsLast(fl.offered, fl.base) && fl.log[k].session < fl.session))
  }

  ghost predicate Synced(fl: Flow, s: Sender, r: Receiver)
    requires PosOk(fl.offered, fl.sent)
  {
    && PosOk(fl.offered, fl.base)
    && PosLe(fl.base, fl.sent)
    && SenderSynced(fl, s)
    && ReceiverSynced(fl, r)
    && SessionLogOk(fl)
  }

  ghost predicate InSession(fl: Flow, s: Sender, r: Receiver) {
    Kept(fl, s, r) && Synced(fl, s, r)
  }

  /**
   What a session has established about positions, bytes and writes. It speaks of the flow alone,
   so it outlives the session's state in the two ends: it holds through the outage that ends a session.
   */
  ghost predicate Tracked(fl: Flow) {
    && PosOk(fl.offered, fl.base)
    && PosOk(fl.offered, fl.sent)
    && PosOk(fl.offered, fl.recv)
    && PosLe(fl.base, fl.sent)
    && (if Ahead(fl)
        then fl.sent.index < |fl.offered| && fl.recv == NextPos(fl.offered, fl.sent)
             && fl.sessionAccepted == fl.sessionCommitted + FragmentAt(fl).payload
        else fl.accepted == fl.acked && fl.recv == fl.sent && fl.sessionAccepted == fl.sessionCommitted)
    && SessionLogOk(fl)
  }

  lemma InSessionIsTracked(fl: Flow, s: Sender, r: Receiver)
    requires InSession(fl, s, r)
    ensures Kept(fl, s, r) && Tracked(fl)
  {
    hide LogOk, Settled, SessionLogOk, Flatten, QueueAt, WireSeq, NewFragment, AllValid;
  }

  /** What a session says about the counters, without looking inside. */
  lemma SessionFacts(fl: Flow, s: Sender, r: Receiver)
    requires InSession(fl, s, r)
    ensures AckField(r) == WireAck(fl.accepted)
    ensures fl.accepted == fl.acked || (fl.accepted == fl.acked + 1 && s.inflight.Some?)
  {
    hide LogOk, SessionLogOk, QueueOk;
  }

  /** Both directions of a session between ends a and b. */
  ghost predicate Duplex(ab: Flow, ba: Flow, a: Endpoint, b: Endpoint) {
    InSession(ab, a.tx, b.rx) && InSession(ba, b.tx, a.rx)
  }

  // ---- Preservation: tunnel reads. ----

  lemma QueueAtGrows(offered: seq<Packet>, p: Pos, ps: seq<Packet>)
    requires PosOk(offered, p)
    requires forall x <- ps :: x != []
    ensures PosOk(offered + ps, p)
    ensures QueueAt(offered + ps, p) == QueueAt(offered, p) + ps
  {
    if p.index == |offered| && ps != [] {
      assert ps[0] in ps;
      assert ps[0][0..] == ps[0];
    }
  }

  ghost predicate Readable(ps: seq<Packet>) {
    forall p <- ps :: IsValidIpPacket(p) && 0 < |p| <= TUNNEL_READ_SIZE
  }

  lemma ValidGrows(fl: Flow, ps: seq<Packet>)
    requires Readable(ps)
    requires AllValid(fl.offered)
    requires forall i :: 0 <= i < |fl.offered| ==> 0 < |fl.offered[i]| <= TUNNEL_READ_SIZE
    ensures AllValid(Grow(fl, ps).offered)
    ensures forall i :: 0 <= i < |Grow(fl, ps).offered| ==> 0 < |Grow(fl, ps).offered[i]| <= TUNNEL_READ_SIZE
  {
    hide IsValidIpPacket;
    var offered := Grow(fl, ps).offered;
    forall i | 0 <= i < |offered|
      ensures IsValidIpPacket(offered[i]) && 0 < |offered[i]| <= TUNNEL_READ_SIZE
    {
      assert i >= |fl.offered| ==> offered[i] in ps;
    }
  }

  lemma OfferedGrows(fl: Flow, s: Sender, es: seq<TunnelEvent>)
    requires AllValid(fl.offered) && QueueOk(fl, s)
    ensures Readable(AllQueued(s, es))
    ensures AllValid(Offer(fl, s, es).offered) && QueueOk(Offer(fl, s, es), TunnelRun(s, es))
  {
    hide IsValidIpPacket, AllValid, TunnelRun, AllQueued, QueueAt, Flatten;
    TunnelRunFacts(s, es);
    var ps := AllQueued(s, es);
    assert forall p <- ps :: p != [] by {
      forall p <- ps ensures p != [] { ValidIsNonempty(p); }
    }
    ValidGrows(fl, ps);
    QueueAtGrows(fl.offered, fl.sent, ps);
    BytesGrow(fl.committed, s.queue, fl.offered, ps);
  }

  lemma BytesGrow(committed: seq<byte>, queue: seq<Packet>, offered: seq<Packet>, ps: seq<Packet>)
    requires committed + Flatten(queue) == Flatten(offered)
    ensures committed + Flatten(queue + ps) == Flatten(offered + ps)
  {
    hide Flatten;
    FlattenAppend(queue, ps);
    FlattenAppend(offered, ps);
    assert committed + (Flatten(queue) + Flatten(ps)) == committed + Flatten(queue) + Flatten(ps);
  }

  lemma OfferKeeps(fl: Flow, s: Sender, r: Receiver, es: seq<TunnelEvent>)
    requires Kept(fl, s, r)
    ensures Kept(Offer(fl, s, es), TunnelRun(s, es), r)
  {
    hide IsValidIpPacket, AllValid, QueueOk, TunnelRun, AllQueued;
    OfferedGrows(fl, s, es);
    LogGrows(fl, r, AllQueued(s, es));
  }

  lemma LogGrows(fl: Flow, r: Receiver, ps: seq<Packet>)
    requires LogOk(fl, r) && Settled(fl)
    ensures LogOk(Grow(fl, ps), r) && Settled(Grow(fl, ps))
  {}

  lemma SessionGrows(fl: Flow, s: Sender, r: Receiver, ps: seq<Packet>)
    requires Readable(ps)
    requires PosOk(fl.offered, fl.sent) && Synced(fl, s, r)
    ensures PosOk(Grow(fl, ps).offered, fl.sent)
    ensures Synced(Grow(fl, ps), s, r)
  {
    hide IsValidIpPacket, WireSeq;
    var fl1 := Grow(fl, ps);
    QueueAtGrows(fl.offered, fl.sent, ps);
    QueueAtGrows(fl.offered, fl.base, ps);
    QueueAtGrows(fl.offered, fl.recv, ps);
    assert SenderSynced(fl1, s);
    assert fl.recv.index == |fl.offered| < |fl1.offered| ==> fl1.offered[fl.recv.index][0..0] == [];
    assert ReceiverSynced(fl1, r);
    SessionLogGrows(fl, ps);
  }

  lemma SessionLogGrows(fl: Flow, ps: seq<Packet>)
    requires Readable(ps)
    requires PosOk(fl.offered, fl.base) && SessionLogOk(fl)
    ensures PosOk(Grow(fl, ps).offered, fl.base)
    ensures SessionLogOk(Grow(fl, ps))
  {
    hide IsValidIpPacket;
    var fl1 := Grow(fl, ps);
    if fl.base.index == |fl.offered| && ps != [] {
      assert ps[0] in ps;
      assert fl1.offered[fl.base.index][fl.base.off..] == ps[0];
    }
    assert FirstUnit(fl1) == FirstUnit(fl);
  }

  /** Tunnel reads during an outage leave what the session established. */
  lemma OfferStaysTracked(fl: Flow, s: Sender, r: Receiver, es: seq<TunnelEvent>)
    requires Kept(fl, s, r) && Tracked(fl)
    ensures Tracked(Offer(fl, s, es))
  {
    hide IsValidIpPacket, Kept, TunnelRun, AllQueued, QueueAt, WireSeq, SessionLogOk;
    var ps := AllQueued(s, es);
    assert Readable(ps) by { KeptOffers(fl, s, r, es); }
    QueueAtGrows(fl.offered, fl.sent, ps);
    QueueAtGrows(fl.offered, fl.base, ps);
    QueueAtGrows(fl.offered, fl.recv, ps);
    SessionLogGrows(fl, ps);
    if Ahead(fl) {
      assert Grow(fl, ps).offered[fl.sent.index] == fl.offered[fl.sent.index];
    }
  }

  lemma KeptOffers(fl: Flow, s: Sender, r: Receiver, es: seq<TunnelEvent>)
    requires Kept(fl, s, r)
    ensures Readable(AllQueued(s, es))
  {
    hide AllValid, QueueOk, TunnelRun, AllQueued;
    OfferedGrows(fl, s, es);
  }

  lemma OfferStaysSynced(fl: Flow, s: Sender, r: Receiver, es: seq<TunnelEvent>)
    requires InSession(fl, s, r)
    ensures InSession(Offer(fl, s, es), TunnelRun(s, es), r)
    ensures TunnelRun(s, es).inflight == s.inflight
    ensures s.queue <= TunnelRun(s, es).queue
  {
    hide IsValidIpPacket, LogOk, Settled, ReceiverSynced, SessionLogOk, TunnelRun, AllQueued;
    OfferKeeps(fl, s, r, es);
    OfferedGrows(fl, s, es);
    TunnelRunFacts(s, es);
    SessionGrows(fl, s, r, AllQueued(s, es));
  }

  // ---- Preservation: building a DATA frame. ----

  /** DATA frame number n, which is the last one accepted or the next one. */
  predicate Carries(fl: Flow, s: Sender, f: MacFrame, n: nat) {
    && f.kind == DATA
    && f.seqNo == WireSeq(n)
    && fl.accepted <= n + 1
    && n <= fl.acked
    && (n == fl.accepted ==>
          s.inflight.Some? && f.arg == s.inflight.value.bytesLeft && f.payload == s.inflight.value.payload)
  }

  /** A DATA frame built in session repeats or cuts the fragment at `sent`. */
  lemma BuildStaysSynced(fl: Flow, s: Sender, r: Receiver, ack: byte)
    requires InSession(fl, s, r)
    requires HasData(s)
    ensures PosOk(fl.offered, fl.sent) && fl.sent.index < |fl.offered|
    ensures var left := fl.offered[fl.sent.index][fl.sent.off..];
            BuildNextData(s, ack).1 ==
            Some(MacFrame(3, fl.acked % 31 + 1, ack, BytesLeft(|s.queue|), BytesLeft(|left|),
                          if |left| <= 27 then left else left[..27]))
    ensures var (s1, f) := BuildNextData(s, ack);
            && InSession(fl, s1, r)
            && fl.sent.index < |fl.offered|
            && s1 == s.(inflight := Some(FragmentAt(fl)))
            && f == Some(DataFrame(FragmentAt(fl), ack, |s.queue|))
            && Canonical(f.value)
            && Carries(fl, s1, f.value, fl.acked)
  {
    hide IsValidIpPacket;
    var left := fl.offered[fl.sent.index][fl.sent.off..];
    assert left[..|left|] == left;
  }

  // ---- Preservation: accepting a DATA frame. ----

  lemma ConsumeStaysSynced(fl: Flow, s: Sender, r: Receiver, f: MacFrame, n: nat)
    requires InSession(fl, s, r)
    requires Carries(fl, s, f, n)
    ensures var (r1, ok) := ConsumeData(r, f);
            && ok
            && InSession(OnConsume(fl, r, f), s, r1)
            && OnConsume(fl, r, f).accepted == n + 1
  {
    hide IsValidIpPacket;
    WireSeqSteps(n);
    if n + 1 == fl.accepted {
      assert !Advances(r, f);
    } else {
      if n > 0 { WireSeqSteps(n - 1); }
      assert Advances(r, f);
      AcceptStaysSynced(fl, s, r, f);
    }
  }

  /** What accepting the fragment at `recv` leaves in the reassembly buffer, and whether it writes. */
  lemma AcceptedUnit(fl: Flow, s: Sender, r: Receiver, f: MacFrame)
    requires AllValid(fl.offered) && QueueOk(fl, s)
    requires SenderSynced(fl, s) && ReceiverSynced(fl, r)
    requires Carries(fl, s, f, fl.accepted)
    requires Advances(r, f)
    ensures fl.recv == fl.sent && fl.sent.index < |fl.offered|
    ensures ConsumeData(r, f).1
    ensures var p := fl.offered[fl.recv.index];
            var unit := p[UnitStart(fl, fl.recv.index)..];
            var r1 := ConsumeData(r, f).0;
            if !IsLast(fl.offered, fl.recv) then
              r1 == r.(last := Some(f.seqNo),
                       assembly := p[UnitStart(fl, fl.recv.index)..fl.recv.off + MAX_PAYLOAD_SIZE])
            else if IsValidIpPacket(unit) then
              r1 == Receiver(Some(f.seqNo), [], r.written + [unit])
            else
              r1 == Receiver(Some(f.seqNo), [], r.written)
  {
    hide IsValidIpPacket;
    var p := fl.offered[fl.recv.index];
    var start := UnitStart(fl, fl.recv.index);
    var rest := p[fl.recv.off..];
    assert f.payload == rest[..TransferSize(rest)];
    assert rest[..TransferSize(rest)] == p[fl.recv.off..fl.recv.off + TransferSize(rest)];
    assert p[start..fl.recv.off] + f.payload == p[start..fl.recv.off + |f.payload|];
    if IsLast(fl.offered, fl.recv) {
      assert p[start..fl.recv.off + |f.payload|] == p[start..];
    }
  }

  lemma AcceptedEnds(fl: Flow, s: Sender, r: Receiver, f: MacFrame)
    requires AllValid(fl.offered) && QueueOk(fl, s)
    requires SenderSynced(fl, s) && ReceiverSynced(fl, r)
    requires PosLe(fl.base, fl.sent)
    requires Carries(fl, s, f, fl.accepted)
    requires Advances(r, f)
    ensures var fl1 := OnConsume(fl, r, f);
            SenderSynced(fl1, s) && ReceiverSynced(fl1, ConsumeData(r, f).0)
  {
    hide IsValidIpPacket, AllValid, ConsumeData;
    AcceptedUnit(fl, s, r, f);
    var fl1 := OnConsume(fl, r, f);
    assert fl1.recv.off == 0 && fl1.recv.index < |fl.offered| ==> fl.offered[fl1.recv.index][0..0] == [];
  }

  /** The writes stay in order when the unit ending at `recv` is written. */
  lemma AppendedInOrder(fl: Flow, d: Delivery)
    requires forall k :: 0 <= k < |fl.log| ==> fl.log[k].index < |fl.offered|
    requires Ordered(fl.offered, fl.log)
    requires fl.recv.index < |fl.offered| && d == Delivery(fl.recv.index, UnitStart(fl, fl.recv.index), fl.session)
    requires PosOk(fl.offered, fl.base) && SessionLogOk(fl)
    ensures Ordered(fl.offered, fl.log + [d])
  {
    hide IsValidIpPacket, FirstUnit;
    var log := fl.log + [d];
    forall k, l | 0 <= k < l < |log|
      ensures log[k].index <= log[l].index
      ensures log[k].index == log[l].index ==>
                log[k].session < log[l].session && log[l].from + MAX_PAYLOAD_SIZE >= |fl.offered[log[l].index]|
    {
      assert log[k] == fl.log[k];
      if l < |fl.log| {
        assert log[l] == fl.log[l];
      }
    }
  }

  lemma AcceptedLog(fl: Flow, s: Sender, r: Receiver, f: MacFrame)
    requires AllValid(fl.offered) && QueueOk(fl, s)
    requires SenderSynced(fl, s) && ReceiverSynced(fl, r)
    requires PosOk(fl.offered, fl.base) && PosLe(fl.base, fl.sent)
    requires LogOk(fl, r) && SessionLogOk(fl)
    requires Carries(fl, s, f, fl.accepted)
    requires Advances(r, f)
    ensures var fl1 := OnConsume(fl, r, f);
            LogOk(fl1, ConsumeData(r, f).0)
  {
    hide IsValidIpPacket, ConsumeData, QueueOk, SenderSynced, ReceiverSynced, Ordered, AllValid;
    AcceptedUnit(fl, s, r, f);
    AppendedInOrder(fl, Delivery(fl.recv.index, UnitStart(fl, fl.recv.index), fl.session));
  }

  lemma AcceptedSessionLog(fl: Flow, s: Sender, r: Receiver, f: MacFrame)
    requires AllValid(fl.offered) && QueueOk(fl, s)
    requires SenderSynced(fl, s) && ReceiverSynced(fl, r)
    requires PosOk(fl.offered, fl.base) && PosLe(fl.base, fl.sent)
    requires LogOk(fl, r) && SessionLogOk(fl)
    requires Carries(fl, s, f, fl.accepted)
    requires Advances(r, f)
    ensures SessionLogOk(OnConsume(fl, r, f))
  {
    hide IsValidIpPacket, ConsumeData, QueueOk, SenderSynced, ReceiverSynced, Ordered;
    AcceptedUnit(fl, s, r, f);
    var fl1 := OnConsume(fl, r, f);
    assert FirstUnit(fl1) == FirstUnit(fl);
    assert fl.offered[fl.recv.index][0..] == fl.offered[fl.recv.index];
  }

  /** Inside a session, `Settled` follows from where the two ends are. */
  lemma SyncedIsSettled(fl: Flow, s: Sender, r: Receiver)
    requires PosOk(fl.offered, fl.sent) && Synced(fl, s, r)
    ensures Settled(fl)
  {
    hide IsValidIpPacket, FirstUnit, WireSeq;
  }

  lemma AssemblyIsBounded(fl: Flow, s: Sender, r: Receiver)
    requires QueueOk(fl, s) && ReceiverSynced(fl, r)
    ensures |r.assembly| <= TUNNEL_READ_SIZE
  {
    hide Flatten, QueueAt, WireSeq;
  }

  lemma AcceptStaysSynced(fl: Flow, s: Sender, r: Receiver, f: MacFrame)
    requires InSession(fl, s, r)
    requires Carries(fl, s, f, fl.accepted)
    requires Advances(r, f)
    ensures var (r1, ok) := ConsumeData(r, f);
            ok && InSession(OnConsume(fl, r, f), s, r1)
  {
    hide IsValidIpPacket, AllValid, LogOk, SessionLogOk, SenderSynced, ReceiverSynced, Settled, ConsumeData, Carries,
         Advances, Flatten, QueueAt, WireSeq, NextPos;
    AcceptedEnds(fl, s, r, f);
    AcceptedLog(fl, s, r, f);
    AcceptedSessionLog(fl, s, r, f);
    AcceptedUnit(fl, s, r, f);
    AssemblyIsBounded(OnConsume(fl, r, f), s, ConsumeData(r, f).0);
    SyncedIsSettled(OnConsume(fl, r, f), s, ConsumeData(r, f).0);
  }

  // ---- Preservation: acknowledgements. ----

  /** An ack sent after k acceptances names the fragment in flight exactly when k is ahead. */
  lemma AckMeaning(s: Sender, acked: nat, k: nat)
    requires s.inflight.Some? ==> s.inflight.value.seqNo == WireSeq(acked)
    requires k == acked || (k == acked + 1 && s.inflight.Some?)
    ensures Commits(s, WireAck(k)) == (k > acked)
  {
    if k == acked > 0 {
      WireSeqSteps(k - 1);
    }
  }

  /** An acknowledgement that the receiver sent when it had accepted k fragments. */
  lemma CommitStaysSynced(fl: Flow, s: Sender, r: Receiver, k: nat)
    requires InSession(fl, s, r)
    requires fl.acked <= k <= fl.accepted
    ensures var fl1 := OnCommit(fl, s, WireAck(k));
            && InSession(fl1, CommitAck(s, WireAck(k)), r)
            && (s.inflight.Some? ==> fl1.acked == k)
            && Commits(s, WireAck(k)) == (k > fl.acked)
  {
    hide LogOk, QueueOk, AllValid, Settled, ReceiverSynced, SessionLogOk, WireSeq, WireAck, AdvanceTxSeq;
    AckMeaning(s, fl.acked, k);
    if k > fl.acked {
      AckedStaysSynced(fl, s, r);
    }
  }

  /** A commit moves the queue to the next position of the offered packets. */
  lemma CommittedFront(fl: Flow, s: Sender)
    requires PosOk(fl.offered, fl.sent) && fl.sent.index < |fl.offered|
    requires s.queue == QueueAt(fl.offered, fl.sent)
    requires s.inflight == Some(FragmentAt(fl))
    ensures Erased(s) == s.inflight.value.payload
    ensures NextPos(fl.offered, fl.sent).index < |fl.offered| ==>
              0 < |fl.offered[NextPos(fl.offered, fl.sent).index]| ==> PosOk(fl.offered, NextPos(fl.offered, fl.sent))
    ensures PosOk(fl.offered, NextPos(fl.offered, fl.sent)) ==>
              CommitAck(s, s.inflight.value.seqNo).queue == QueueAt(fl.offered, NextPos(fl.offered, fl.sent))
  {
    hide WireSeq, AdvanceTxSeq;
    var next := NextPos(fl.offered, fl.sent);
    if IsLast(fl.offered, fl.sent) {
      assert next.index < |fl.offered| ==> fl.offered[next.index][0..] == fl.offered[next.index];
    }
  }

  lemma CommittedBytes(s: Sender)
    requires s.inflight.Some? && s.queue != []
    ensures Flatten(s.queue) == Erased(s) + Flatten(CommitAck(s, s.inflight.value.seqNo).queue)
  {
    hide AdvanceTxSeq;
    var front, rest := s.queue[0], s.queue[0][|Erased(s)|..];
    assert front == Erased(s) + rest;
    if rest != [] {
      assert ([rest] + s.queue[1..])[1..] == s.queue[1..];
    }
  }

  lemma CommittedQueue(fl: Flow, s: Sender)
    requires QueueOk(fl, s)
    requires s.inflight.Some? && fl.sent.index < |fl.offered| && s.inflight.value == FragmentAt(fl)
    ensures var ack := s.inflight.value.seqNo;
            && Erased(s) == s.inflight.value.payload
            && QueueOk(OnCommit(fl, s, ack), CommitAck(s, ack))
  {
    hide WireSeq, AdvanceTxSeq, Flatten, Erased, NewFragment;
    CommittedFront(fl, s);
    CommittedBytes(s);
    TailGrows(fl.sessionCommitted, fl.committed, Erased(s));
  }

  lemma TailGrows(tail: seq<byte>, all: seq<byte>, more: seq<byte>)
    requires IsTail(tail, all)
    ensures IsTail(tail + more, all + more)
  {
    assert all == all[..|all| - |tail|] + tail;
  }

  lemma AckedStaysSynced(fl: Flow, s: Sender, r: Receiver)
    requires InSession(fl, s, r)
    requires Ahead(fl)
    ensures var ack := s.inflight.value.seqNo;
            InSession(OnCommit(fl, s, ack), CommitAck(s, ack), r)
  {
    hide IsValidIpPacket, AllValid, Settled, Erased, NewFragment, WireSeq, AdvanceTxSeq, NextPos, Flatten, QueueAt;
    WireSeqSteps(fl.acked);
    CommittedQueue(fl, s);
    var ack := s.inflight.value.seqNo;
    var fl1, s1 := OnCommit(fl, s, ack), CommitAck(s, ack);
    BaseStaysBelow(fl);
    assert SenderSynced(fl1, s1);
    SyncedIsSettled(fl1, s1, r);
  }

  lemma BaseStaysBelow(fl: Flow)
    requires PosLe(fl.base, fl.sent)
    ensures PosLe(fl.base, NextPos(fl.offered, fl.sent))
  {}

  /** End b absorbs a frame that a sent: the ack tells of k acceptances, the data is fragment n. */
  lemma AbsorbStaysSynced(ab: Flow, ba: Flow, a: Endpoint, b: Endpoint, f: MacFrame, k: nat, n: nat)
    requires Duplex(ab, ba, a, b)
    requires f.ack == WireAck(k) && ba.acked <= k <= ba.accepted
    requires f.kind == DATA ==> Carries(ab, a.tx, f, n)
    ensures var (b1, ok) := Absorb(b, f);
            var ab1, ba1 := OnConsume(ab, b.rx, f), OnCommit(ba, b.tx, f.ack);
            && ok
            && Duplex(ab1, ba1, a, b1)
            && ab1.accepted == (if f.kind == DATA then n + 1 else ab.accepted)
            && ab1.acked == ab.acked
            && ba1.acked == k && ba1.accepted == ba.accepted
            && (k > ba.acked ==> b1.tx.inflight.None?)
            && (k == ba.acked ==> b1.tx == b.tx)
  {
    hide InSession, WireAck, WireSeq;
    SessionFacts(ba, b.tx, a.rx);
    CommitStaysSynced(ba, b.tx, a.rx, k);
    if f.kind == DATA {
      ConsumeStaysSynced(ab, a.tx, b.rx, f, n);
    }
  }

  // ---- Resets. ----

  lemma EmptyFlowIsKept(fl: Flow, s: Sender, r: Receiver)
    requires fl.offered == [] && fl.committed == fl.sessionCommitted == [] && fl.sent == Pos(0, 0) && fl.log == []
    requires s.queue == [] && r.written == [] && r.assembly == []
    ensures Kept(fl, s, r)
  {
    hide IsValidIpPacket;
    assert QueueAt(fl.offered, fl.sent) == [];
    assert fl.committed + Flatten(s.queue) == [];
  }

  lemma EmptyFlowIsTracked(fl: Flow)
    requires fl.offered == [] && fl.sent == fl.base == fl.recv == Pos(0, 0) && fl.acked == fl.accepted == 0
    requires fl.sessionAccepted == fl.sessionCommitted && fl.log == [] && fl.logBase == 0
    ensures Tracked(fl)
  {}

  lemma ResetKeeps(fl: Flow, e: Endpoint, o: Endpoint)
    requires Kept(fl, e.tx, o.rx)
    ensures Kept(fl, ResetSession(e).tx, o.rx)
    ensures Kept(fl, e.tx, ResetSession(o).rx)
    ensures Kept(fl, ResetSession(e).tx, ResetSession(o).rx)
  {}

  lemma SessionStartIsSynced(fl: Flow, e: Endpoint, o: Endpoint)
    requires Kept(fl, e.tx, o.rx)
    requires SessionStart(e) && SessionStart(o)
    ensures InSession(OnSessionStart(fl), e.tx, o.rx)
  {
    var fl1 := OnSessionStart(fl);
    if fl.sent.index < |fl.offered| {
      assert fl.offered[fl.sent.index][fl.sent.off..fl.sent.off] == [];
    }
  }
}
