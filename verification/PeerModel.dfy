/** The peer: answers one coordinator frame at a time. */
module PeerModel {
  import opened Bytes
  import opened MacFrames
  import opened Arq

  datatype Peer = Peer(ep: Endpoint, granted: bool, budget: byte)

  const NEW_PEER := Peer(NEW_ENDPOINT, false, 0)

  /** Tunnel-thread activity while the peer thread does not hold the mutex. */
  datatype PeerGaps = PeerGaps(beforeCheck: seq<TunnelEvent>, beforeBuild: seq<TunnelEvent>)

  function HandleReset(p: Peer): Peer {
    Peer(ResetSession(p.ep), false, 0)
  }

  function ApplyRequest(p: Peer, f: MacFrame): (Peer, bool) {
    if f.kind == DATA then
      var (ep, ok) := Absorb(p.ep, f);
      if ok then (Peer(ep, false, 0), true) else (p.(ep := ep), false)
    else
      var ep := p.ep.(tx := CommitAck(p.ep.tx, f.ack));
      if f.kind == GRANT then
        (Peer(ep, f.arg > 0, f.arg), true)
      else if f.kind == PENDING || f.kind == ACK then
        (Peer(ep, false, 0), true)
      else
        (p.(ep := ep), false)
  }

  function RunTunnel(p: Peer, es: seq<TunnelEvent>): Peer {
    p.(ep := p.ep.(tx := TunnelRun(p.ep.tx, es)))
  }

  /** `gap` happens between the has-data check and the second lock. */
  function ChooseResponse(p: Peer, gap: seq<TunnelEvent>): (Peer, Option<MacFrame>) {
    var ack := AckField(p.ep.rx);
    var hasData := HasData(p.ep.tx);
    var p1 := RunTunnel(p, gap);
    if p.granted && p.budget > 0 && hasData then
      var (tx, f) := BuildNextData(p1.ep.tx, ack);
      if f.None? then
        (p1, None)
      else
        var budget := p1.budget - 1;
        (Peer(p1.ep.(tx := tx), budget > 0 && p1.granted, budget), Some(f.value.(pending := 1)))
    else if hasData then
      (p1, Some(MacFrame(PENDING, 0, ack, 1, 0, [])))
    else
      (p1, Some(MacFrame(ACK, 0, ack, 0, 0, [])))
  }

  /** Apply a request that is not a reset, then answer it. */
  function Serve(p: Peer, f: MacFrame, gaps: PeerGaps): (Peer, Option<MacFrame>) {
    var (p1, ok) := ApplyRequest(p, f);
    if !ok then (p1, None) else ChooseResponse(RunTunnel(p1, gaps.beforeCheck), gaps.beforeBuild)
  }

  /** One iteration of the peer loop on a received 32-byte packet; the answer goes out encoded. */
  function PeerTurn(p: Peer, wire: seq<byte>, gaps: PeerGaps): (Peer, Option<seq<byte>>) {
    match Decode(wire)
    case None => (p, None)
    case Some(f) =>
      if f.kind == RESET then
        (HandleReset(p), Encode(RESET_FRAME))
      else
        var (p1, response) := Serve(p, f, gaps);
        (p1, if response.None? then None else Encode(response.value))
  }

  // ---- Grant discipline against arbitrary input. ----

  datatype PeerInput = Packet(wire: seq<byte>, gaps: PeerGaps) | Tunnel(e: TunnelEvent)

  function PeerRun(inputs: seq<PeerInput>): Peer {
    if inputs == [] then
      NEW_PEER
    else
      var p := PeerRun(inputs[..|inputs| - 1]);
      match inputs[|inputs| - 1]
      case Packet(wire, gaps) => PeerTurn(p, wire, gaps).0
      case Tunnel(e) => RunTunnel(p, [e])
  }

  /** Whatever frames arrive, the grant flag and the budget never disagree. */
  lemma {:induction false} GrantFlagMatchesBudget(inputs: seq<PeerInput>)
    ensures PeerRun(inputs).granted <==> PeerRun(inputs).budget > 0
  {
    if inputs != [] {
      GrantFlagMatchesBudget(inputs[..|inputs| - 1]);
    }
  }

  /**
   Whatever the state and the input: a DATA answer is an answer to a GRANT with a positive arg, spends
   one credit of it, and says that more may come. An answer without pending means there was nothing to send.
   */
  lemma DataAnswersGrant(p: Peer, f: MacFrame, gaps: PeerGaps)
    ensures var (p1, response) := Serve(p, f, gaps);
            response.Some? ==>
              && (response.value.kind == DATA ==>
                    f.kind == GRANT && f.arg > 0 && p1.budget == f.arg - 1 && (p1.granted <==> f.arg > 1))
              && (response.value.pending != 0 <==> response.value.kind != ACK)
              && (response.value.kind == ACK ==> !HasData(TunnelRun(CommitAck(p.ep.tx, f.ack), gaps.beforeCheck)))
  {}

  /** From any state, the gap between the has-data check and the second lock never makes the answer fail. */
  lemma AnswerNeverFails(p: Peer, gap: seq<TunnelEvent>)
    ensures ChooseResponse(p, gap).1.Some?
  {
    DataStays(p.ep.tx, gap);
  }

  // ---- Frames and grants in full, from any state. ----

  /** Every field of the answer, by what was granted and what there was to send at the check. */
  lemma AnswerFields(p: Peer, gap: seq<TunnelEvent>)
    requires FlightOk(p.ep.tx)
    ensures var (p1, f) := ChooseResponse(p, gap);
            var ack := if p.ep.rx.last.Some? then p.ep.rx.last.value else 0;
            if p.ep.tx.inflight.None? && p.ep.tx.queue == [] then
              f == Some(MacFrame(4, 0, ack, 0, 0, [])) && p1 == RunTunnel(p, gap)
            else if !p.granted || p.budget == 0 then
              f == Some(MacFrame(1, 0, ack, 1, 0, [])) && p1 == RunTunnel(p, gap)
            else
              && f == Some(NextData(p.ep.tx, ack))
              && p1.budget == p.budget - 1 && (p1.granted <==> p.budget > 1)
  {
    hide TunnelRun, BuildNextData;
    DataStays(p.ep.tx, gap);
    TunnelKeepsFlight(p.ep.tx, gap);
    BuildKeepsFlight(TunnelRun(p.ep.tx, gap), AckField(p.ep.rx));
    assert p.ep.tx.inflight.Some? ==> p.ep.tx.queue != [];
  }

  /** What any request that is not a RESET does to the grant, and whether it is answered. */
  lemma RequestEffects(p: Peer, f: MacFrame)
    ensures var (p1, ok) := ApplyRequest(p, f);
            && p1.ep.tx == CommitAck(p.ep.tx, f.ack)
            && (f.kind == 3 ==> (p1.ep.rx, ok) == ConsumeData(p.ep.rx, f))
            && (f.kind != 3 ==> p1.ep.rx == p.ep.rx && (ok <==> f.kind in {1, 2, 4}))
            && (!ok ==> p1.granted == p.granted && p1.budget == p.budget)
            && (ok ==> p1.budget == (if f.kind == 2 then f.arg else 0) && (p1.granted <==> p1.budget > 0))
  {
    hide CommitAck, ConsumeData;
  }

  /** What any received bytes lead to: 32 of them with type 5 reset the session and are echoed with all fields 0. */
  lemma TurnEffects(p: Peer, wire: seq<byte>, gaps: PeerGaps)
    ensures var (p1, answer) := PeerTurn(p, wire, gaps);
            && (|wire| != 32 ==> p1 == p && answer == None)
            && (|wire| == 32 && wire[0] == 5 ==>
                  && p1.ep.tx == p.ep.tx.(nextSeq := 1, inflight := None)
                  && p1.ep.rx == Receiver(None, [], p.ep.rx.written)
                  && !p1.granted && p1.budget == 0
                  && answer.Some? && |answer.value| == 32 && answer.value[0] == 5
                  && (forall k :: 1 <= k < 32 ==> answer.value[k] == 0))
            && (|wire| == 32 && wire[0] != 5 && !ApplyRequest(p, Decode(wire).value).1 ==> answer == None)
  {
    hide Serve, Encode, Decode;
    ReadLayout(wire);
    WireLayout(RESET_FRAME);
    if |wire| == 32 && wire[0] != 5 && !ApplyRequest(p, Decode(wire).value).1 {
      RefusedIsSilent(p, Decode(wire).value, gaps);
    }
  }

  lemma RefusedIsSilent(p: Peer, f: MacFrame, gaps: PeerGaps)
    requires !ApplyRequest(p, f).1
    ensures Serve(p, f, gaps) == (ApplyRequest(p, f).0, None)
  {}

  lemma ServeKeepsFlight(p: Peer, f: MacFrame, gaps: PeerGaps)
    requires FlightOk(p.ep.tx)
    ensures FlightOk(Serve(p, f, gaps).0.ep.tx)
  {
    hide FlightOk, CommitAck, ConsumeData, BuildNextData, TunnelRun;
    var p1 := ApplyRequest(p, f).0;
    CommitKeepsFlight(p.ep.tx, f.ack);
    TunnelKeepsFlight(p1.ep.tx, gaps.beforeCheck);
    var p2 := RunTunnel(p1, gaps.beforeCheck);
    TunnelKeepsFlight(p2.ep.tx, gaps.beforeBuild);
    BuildKeepsFlight(TunnelRun(p2.ep.tx, gaps.beforeBuild), AckField(p2.ep.rx));
  }

  lemma PeerTurnKeepsFlight(p: Peer, wire: seq<byte>, gaps: PeerGaps)
    requires FlightOk(p.ep.tx)
    ensures FlightOk(PeerTurn(p, wire, gaps).0.ep.tx)
  {
    hide Serve, Decode;
    if Decode(wire).Some? {
      ServeKeepsFlight(p, Decode(wire).value, gaps);
    }
  }

  /** Whatever bytes arrive, the peer's fragment in flight is always the one its queue front calls for. */
  lemma {:induction false} PeerFlight(inputs: seq<PeerInput>)
    ensures FlightOk(PeerRun(inputs).ep.tx)
  {
    hide PeerTurn, TunnelRun;
    if inputs != [] {
      var p, last := PeerRun(inputs[..|inputs| - 1]), inputs[|inputs| - 1];
      PeerFlight(inputs[..|inputs| - 1]);
      match last
      case Packet(wire, gaps) => PeerTurnKeepsFlight(p, wire, gaps);
      case Tunnel(e) => TunnelKeepsFlight(p.ep.tx, [e]);
    }
  }
}
