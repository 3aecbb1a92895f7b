/** The coordinator: schedules exchanges, watches the link, resets the session. */
module CoordinatorModel {
  import opened Bytes
  import opened MacFrames
  import opened Arq
  import opened LinkHealth

  const DEFAULT_BURST_GRANT: byte := 3
  const FAIR_DATA_BURST_LIMIT := 2

  datatype Mode = ResetSync | Idle | IssueGrant | ActiveRx

  datatype Coord = Coord(ep: Endpoint, mode: Mode, link: Link, peerHasPending: bool, burst: byte)

  const NEW_COORD := Coord(NEW_ENDPOINT, ResetSync, NEW_LINK, false, 0)

  /** What Send and Receive give back for one request. */
  datatype Reply = SendFailed | TimedOut | Got(wire: seq<byte>)

  /**
   The environment of one loop iteration: the clock at its head and when it ends, and the
   tunnel-thread activity between the has-data check and the second lock, and while waiting.
   */
  datatype Tick = Tick(now: nat, later: nat, beforeBuild: seq<TunnelEvent>, whileWaiting: seq<TunnelEvent>)

  function RunTunnel(c: Coord, es: seq<TunnelEvent>): Coord {
    c.(ep := c.ep.(tx := TunnelRun(c.ep.tx, es)))
  }

  // ---- Reset handshake. ----

  function BeginReset(c: Coord): Coord {
    c.(ep := ResetSession(c.ep), peerHasPending := false, burst := 0)
  }

  predicate IsResetReply(reply: Reply) {
    reply.Got? && Decode(reply.wire).Some? && Decode(reply.wire).value.kind == RESET
  }

  function ConnectionReset(c: Coord, reply: Reply): (Coord, bool) {
    (BeginReset(c), IsResetReply(reply))
  }

  /** What a successful handshake sets, in either branch of the loop. */
  function Reconnect(c: Coord): Coord {
    c.(link := HEALTHY, mode := Idle)
  }

  function HandleFailure(c: Coord, f: Failure, now: nat): Coord {
    c.(link := OnFailure(c.link, f, now),
       mode := if OverThreshold(Count(c.link, f)) then ResetSync else c.mode)
  }

  // ---- One exchange. ----

  function ChooseTx(c: Coord, gap: seq<TunnelEvent>): (Coord, Option<MacFrame>) {
    var ack := AckField(c.ep.rx);
    var hasData := HasData(c.ep.tx);
    var c1 := RunTunnel(c, gap);
    match c.mode
    case ResetSync => (c1, Some(MacFrame(RESET, 0, ack, 0, 0, [])))
    case IssueGrant => (c1, Some(GrantFrame(ack, hasData)))
    case ActiveRx => (c1, Some(GrantFrame(ack, hasData)))
    case Idle =>
      if !hasData then
        (c1, Some(MacFrame(PENDING, 0, ack, 0, 0, [])))
      else if c.peerHasPending && c.burst >= FAIR_DATA_BURST_LIMIT then
        (c1, Some(GrantFrame(ack, true)))
      else
        var (tx, f) := BuildNextData(c1.ep.tx, ack);
        if f.None? then (c1, None) else (c1.(ep := c1.ep.(tx := tx)), Some(f.value.(pending := 1)))
  }

  function GrantFrame(ack: byte, hasData: bool): MacFrame {
    MacFrame(GRANT, 0, ack, if hasData then 1 else 0, DEFAULT_BURST_GRANT, [])
  }

  function ApplyResponse(c: Coord, rx: MacFrame): (Coord, bool) {
    var (ep, ok) := if rx.kind == DATA then Absorb(c.ep, rx) else (c.ep.(tx := CommitAck(c.ep.tx, rx.ack)), true);
    if !ok then
      (c.(ep := ep), false)
    else
      var c1 := c.(ep := ep, peerHasPending := rx.pending != 0);
      if rx.kind == ACK then
        (c1.(mode := if c1.peerHasPending then IssueGrant else Idle), true)
      else if rx.kind == PENDING then
        (c1.(mode := IssueGrant), true)
      else if rx.kind == DATA then
        (c1.(mode := if c1.peerHasPending then ActiveRx else Idle), true)
      else
        (c1, false)
  }

  /** The fairness counter after a response was applied or refused. */
  function NextBurst(burst: byte, tx: MacFrame, rx: MacFrame, applied: bool): byte {
    if applied && tx.kind == DATA && rx.kind != DATA then Min(burst + 1, 255) else 0
  }

  datatype ExchangeResult = Success | Failed(failure: Failure)

  function PerformExchange(c: Coord, reply: Reply, t: Tick): (Coord, ExchangeResult) {
    var (c1, tx) := ChooseTx(c, t.beforeBuild);
    if tx.None? || Encode(tx.value).None? then
      (c1, Failed(ProtocolFailure))
    else
      var c2 := RunTunnel(c1, t.whileWaiting);
      match reply
      case SendFailed => (c2, Failed(SendFailure))
      case TimedOut => (c2, Failed(TimeoutFailure))
      case Got(wire) =>
        match Decode(wire)
        case None => (c2, Failed(ProtocolFailure))
        case Some(rx) =>
          var (c3, applied) := ApplyResponse(c2, rx);
          (c3.(burst := NextBurst(c3.burst, tx.value, rx, applied)),
           if applied then Success else Failed(ProtocolFailure))
  }

  // ---- The loop. ----

  predicate Sleeps(c: Coord, t: Tick) {
    c.link.disconnected && t.now < c.link.nextRetryUs
  }

  /** The frame this iteration transmits, if it transmits at all. */
  function Request(c: Coord, t: Tick): Option<MacFrame> {
    if Sleeps(c, t) then
      None
    else if c.link.disconnected || c.link.resetRequired then
      Some(RESET_FRAME)
    else
      ChooseTx(c, t.beforeBuild).1
  }

  /** One iteration of the coordinator loop. */
  function Iterate(c: Coord, t: Tick, reply: Reply): Coord {
    if Sleeps(c, t) then
      c
    else if c.link.disconnected then
      var (c1, ok) := ConnectionReset(c, reply);
      if ok then Reconnect(c1) else c1.(link := OnRetryFailed(c1.link, t.later))
    else if c.link.resetRequired then
      var (c1, ok) := ConnectionReset(c, reply);
      if ok then Reconnect(c1) else HandleFailure(c1, ProtocolFailure, t.later)
    else
      var (c1, result) := PerformExchange(c, reply, t);
      match result
      case Success => c1.(link := OnSuccess(c1.link))
      case Failed(f) => HandleFailure(c1, f, t.later)
  }

  /** The gap between the has-data check and the second lock never makes the choice fail. */
  lemma ChoiceNeverFails(c: Coord, gap: seq<TunnelEvent>)
    ensures ChooseTx(c, gap).1.Some?
  {
    DataStays(c.ep.tx, gap);
  }

  /**
   Against any peer, however it behaves: after an exchange that succeeded with pending set in the answer,
   the next frame is a GRANT; so at most one DATA frame in a row is answered that way.
   */
  lemma PendingCallsForGrant(c: Coord, reply: Reply, t: Tick, gap: seq<TunnelEvent>)
    ensures var (c1, result) := PerformExchange(c, reply, t);
            result == Success && Decode(reply.wire).value.pending != 0 ==>
              var f := ChooseTx(c1, gap).1;
              f.Some? && f.value.kind == GRANT && f.value.arg == DEFAULT_BURST_GRANT
  {
    hide Encode, BuildNextData, TunnelRun, Absorb, CommitAck;
  }

  // ---- Frames, answers and results in full, from any state. ----

  /** Every field of the frame the coordinator sends, by its state and by what it has to send at the check. */
  lemma FrameFields(c: Coord, gap: seq<TunnelEvent>)
    requires FlightOk(c.ep.tx)
    ensures var f := ChooseTx(c, gap).1;
            var ack := if c.ep.rx.last.Some? then c.ep.rx.last.value else 0;
            var hasData := c.ep.tx.inflight.Some? || c.ep.tx.queue != [];
            if c.mode == ResetSync then
              f == Some(MacFrame(5, 0, ack, 0, 0, []))
            else if c.mode == IssueGrant || c.mode == ActiveRx || (hasData && c.peerHasPending && c.burst >= 2) then
              f == Some(MacFrame(2, 0, ack, if hasData then 1 else 0, 3, []))
            else if hasData then
              c.ep.tx.queue != [] && f == Some(NextData(c.ep.tx, ack))
            else
              f == Some(MacFrame(1, 0, ack, 0, 0, []))
  {
    hide TunnelRun, BuildNextData;
    DataStays(c.ep.tx, gap);
    TunnelKeepsFlight(c.ep.tx, gap);
    BuildKeepsFlight(TunnelRun(c.ep.tx, gap), AckField(c.ep.rx));
    assert c.ep.tx.inflight.Some? ==> c.ep.tx.queue != [];
  }

  /** While a reset is due, nothing but a RESET with all other fields 0 goes out, and only once its time has come. */
  lemma ResetRequest(c: Coord, t: Tick)
    requires c.link.disconnected || c.link.resetRequired
    ensures Request(c, t) ==
            if c.link.disconnected && t.now < c.link.nextRetryUs then None else Some(MacFrame(5, 0, 0, 0, 0, []))
  {}

  /** A reset attempt clears the session first, whatever comes back, and succeeds on 32 bytes of type 5 only. */
  lemma ResetAttempt(c: Coord, reply: Reply)
    ensures var (c1, ok) := ConnectionReset(c, reply);
            && (ok <==> reply.Got? && |reply.wire| == 32 && reply.wire[0] == 5)
            && c1.ep.tx == c.ep.tx.(nextSeq := 1, inflight := None)
            && c1.ep.rx == Receiver(None, [], c.ep.rx.written)
            && !c1.peerHasPending && c1.burst == 0 && c1.mode == c.mode && c1.link == c.link
  {
    hide Decode;
    if reply.Got? {
      ReadLayout(reply.wire);
    }
  }

  /** What any answer does: who it commits for, whether it is accepted, and which state follows. */
  lemma AnswerEffects(c: Coord, rx: MacFrame)
    ensures var (c1, applied) := ApplyResponse(c, rx);
            && c1 == c.(ep := c1.ep, peerHasPending := c1.peerHasPending, mode := c1.mode)
            && c1.ep.tx == CommitAck(c.ep.tx, rx.ack)
            && (rx.kind == 3 ==> (c1.ep.rx, applied) == ConsumeData(c.ep.rx, rx))
            && (rx.kind != 3 ==> c1.ep.rx == c.ep.rx && (applied <==> rx.kind in {1, 4}))
            && c1.peerHasPending == (if rx.kind == 3 && !applied then c.peerHasPending else rx.pending != 0)
            && c1.mode ==
               (if !applied then c.mode
                else if rx.kind == 1 then IssueGrant
                else if rx.pending == 0 then Idle
                else if rx.kind == 3 then ActiveRx else IssueGrant)
  {
    hide CommitAck, ConsumeData;
  }

  /** How any reply is classified, and what becomes of the fairness counter. */
  lemma ReplyEffects(c: Coord, reply: Reply, t: Tick)
    requires FlightOk(c.ep.tx)
    ensures ChooseTx(c, t.beforeBuild).1.Some?
    ensures var tx := ChooseTx(c, t.beforeBuild).1.value;
            var (c1, result) := PerformExchange(c, reply, t);
            && (reply.SendFailed? ==> result == Failed(SendFailure) && c1.burst == c.burst)
            && (reply.TimedOut? ==> result == Failed(TimeoutFailure) && c1.burst == c.burst)
            && (reply.Got? && |reply.wire| != 32 ==> result == Failed(ProtocolFailure) && c1.burst == c.burst)
            && (reply.Got? && |reply.wire| == 32 && result != Success ==>
                  result == Failed(ProtocolFailure) && c1.burst == 0)
            && (result == Success ==>
                  && reply.Got? && |reply.wire| == 32
                  && c1.burst == (if tx.kind != 3 || reply.wire[0] == 3 then 0
                                  else if c.burst < 255 then c.burst + 1 else 255))
  {
    hide TunnelRun, ChooseTx, Absorb, CommitAck, Decode, Encode;
    ChoiceNeverFails(c, t.beforeBuild);
    FrameFields(c, t.beforeBuild);
    ChooseFrame(c, t.beforeBuild);
    WireLayout(ChooseTx(c, t.beforeBuild).1.value);
    if reply.Got? {
      ReadLayout(reply.wire);
    }
  }

  lemma ChooseFrame(c: Coord, gap: seq<TunnelEvent>)
    ensures ChooseTx(c, gap).0.burst == c.burst
  {
    hide TunnelRun, BuildNextData;
  }

  lemma ExchangeKeepsFlight(c: Coord, reply: Reply, t: Tick)
    requires FlightOk(c.ep.tx)
    ensures FlightOk(ChooseTx(c, t.beforeBuild).0.ep.tx)
    ensures FlightOk(PerformExchange(c, reply, t).0.ep.tx)
  {
    hide FlightOk, CommitAck, ConsumeData, BuildNextData, TunnelRun, Encode, Decode;
    TunnelKeepsFlight(c.ep.tx, t.beforeBuild);
    BuildKeepsFlight(TunnelRun(c.ep.tx, t.beforeBuild), AckField(c.ep.rx));
    var c2 := RunTunnel(ChooseTx(c, t.beforeBuild).0, t.whileWaiting);
    TunnelKeepsFlight(ChooseTx(c, t.beforeBuild).0.ep.tx, t.whileWaiting);
    if reply.Got? && Decode(reply.wire).Some? {
      CommitKeepsFlight(c2.ep.tx, Decode(reply.wire).value.ack);
    }
  }

  /** Whatever comes back, the coordinator's fragment in flight is always the one its queue front calls for. */
  lemma IterateKeepsFlight(c: Coord, t: Tick, reply: Reply)
    requires FlightOk(c.ep.tx)
    ensures FlightOk(Iterate(c, t, reply).ep.tx)
  {
    hide PerformExchange, ChooseTx, IsResetReply;
    ExchangeKeepsFlight(c, reply, t);
  }
}
