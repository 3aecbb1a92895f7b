/** Every run keeps the joint invariant: one lemma per stage of an iteration, then runs. */
module JointInvariant {
  import opened Bytes
  import opened MacFrames
  import opened Arq
  import opened Flows
  import opened LinkHealth
  import opened PeerModel
  import opened JointSystem
  import CM = CoordinatorModel

  /** A frame from end a to end b, fit to be absorbed: its ack is current and its data is the fragment in flight. */
  ghost predicate Current(ab: Flow, ba: Flow, a: Endpoint, f: MacFrame) {
    && Canonical(f)
    && f.ack == WireAck(ba.accepted)
    && (f.kind == DATA ==> Carries(ab, a.tx, f, ab.acked))
  }

  // ---- Stage 1: the coordinator chooses a frame. ----

  lemma ChooseStage(w: World, gap: seq<TunnelEvent>)
    requires Duplex(w.down, w.up, w.coord.ep, w.peer.ep)
    requires Connected(w) && Turns(w.coord, w.peer)
    ensures var (c1, f) := CM.ChooseTx(w.coord, gap);
            var down1 := Offer(w.down, w.coord.ep.tx, gap);
            && f.Some?
            && Duplex(down1, w.up, c1.ep, w.peer.ep)
            && Current(down1, w.up, c1.ep, f.value)
            && c1 == w.coord.(ep := c1.ep) && c1.ep.rx == w.coord.ep.rx
            && Turns(c1, w.peer)
            && (f.value.kind == GRANT <==> Granting(c1.mode))
            && f.value.kind == (if Granting(c1.mode) then GRANT else if HasData(w.coord.ep.tx) then DATA else PENDING)
            && (f.value.kind == GRANT ==>
                  f.value.arg == 3 && f.value.pending == (if HasData(w.coord.ep.tx) then 1 else 0))
            && (f.value.kind == PENDING ==> f.value.arg == f.value.pending == f.value.seqNo == 0)
            && (f.value.kind == DATA ==> f.value.pending == 1)
            && (f.value.kind != DATA ==> c1.ep.tx.inflight.None?)
            && down1.acked == w.down.acked && down1.accepted == w.down.accepted
            && down1.session == w.down.session
  {
    hide InSession, WireAck, TunnelRun, BuildNextData, AllQueued;
    var c, p := w.coord.ep, w.peer.ep;
    SessionFacts(w.up, p.tx, c.rx);
    OfferStaysSynced(w.down, c.tx, p.rx, gap);
    DataStays(c.tx, gap);
    if HasData(c.tx) {
      BuildStaysSynced(Offer(w.down, c.tx, gap), TunnelRun(c.tx, gap), p.rx, AckField(c.rx));
    }
  }

  // ---- Stage 2: the peer serves it. ----

  lemma ServeStage(down: Flow, up: Flow, c: Endpoint, p: Peer, f: MacFrame, gaps: PeerGaps)
    requires Duplex(down, up, c, p.ep)
    requires Current(down, up, c, f)
    requires f.kind == DATA || f.kind == PENDING || f.kind == GRANT
    requires f.kind == GRANT ==> f.arg > 0
    requires f.kind != GRANT ==> p.ep.tx.inflight.None?
    ensures var (p1, r) := Serve(p, f, gaps);
            var (down1, up1) := FlowsServed(down, up, p, f, gaps);
            && r.Some?
            && Duplex(down1, up1, c, p1.ep)
            && Current(up1, down1, p1.ep, r.value)
            && r.value.kind == (if !HasData(TunnelRun(CommitAck(p.ep.tx, f.ack), gaps.beforeCheck)) then ACK
                                else if f.kind == GRANT then DATA else PENDING)
            && r.value.pending == (if r.value.kind == ACK then 0 else 1)
            && (r.value.kind != DATA ==> p1.ep.tx.inflight.None?)
            && (p1.granted <==> p1.budget > 0)
            && down1.acked == down.acked
            && down1.accepted == (if f.kind == DATA then down.acked + 1 else down.accepted)
            && up1.acked == up.accepted && up1.accepted == up.accepted
            && down1.session == down.session && up1.session == up.session
  {
    hide InSession, WireAck, WireSeq, TunnelRun, AllQueued, BuildNextData;
    SessionFacts(up, p.ep.tx, c.rx);
    AbsorbStaysSynced(down, up, c, p.ep, f, up.accepted, down.acked);
    var e1 := Absorb(p.ep, f).0;
    var down1, up1 := OnConsume(down, p.ep.rx, f), OnCommit(up, p.ep.tx, f.ack);
    assert e1 == ApplyRequest(p, f).0.ep;
    RespondStage(down1, up1, c, ApplyRequest(p, f).0, gaps);
  }

  /** After the request is applied: two stretches of tunnel activity around the has-data check, then the answer. */
  lemma RespondStage(down: Flow, up: Flow, c: Endpoint, p: Peer, gaps: PeerGaps)
    requires Duplex(down, up, c, p.ep)
    requires p.granted <==> p.budget > 0
    requires p.ep.tx.inflight.Some? ==> p.granted
    ensures var p2 := RunTunnel(p, gaps.beforeCheck);
            var (p1, r) := ChooseResponse(p2, gaps.beforeBuild);
            var up1 := Offer(Offer(up, p.ep.tx, gaps.beforeCheck), p2.ep.tx, gaps.beforeBuild);
            && r.Some?
            && Duplex(down, up1, c, p1.ep)
            && Current(up1, down, p1.ep, r.value)
            && r.value.kind == (if !HasData(p2.ep.tx) then ACK else if p.granted then DATA else PENDING)
            && r.value.pending == (if r.value.kind == ACK then 0 else 1)
            && (r.value.kind != DATA ==> p1.ep.tx.inflight.None?)
            && (p1.granted <==> p1.budget > 0)
            && up1.acked == up.acked && up1.accepted == up.accepted
  {
    hide InSession, WireAck, WireSeq, TunnelRun, AllQueued, BuildNextData;
    var p2 := RunTunnel(p, gaps.beforeCheck);
    var up2 := Offer(up, p.ep.tx, gaps.beforeCheck);
    OfferStaysSynced(up, p.ep.tx, c.rx, gaps.beforeCheck);
    OfferStaysSynced(up2, p2.ep.tx, c.rx, gaps.beforeBuild);
    DataStays(p2.ep.tx, gaps.beforeBuild);
    SessionFacts(down, c.tx, p.ep.rx);
    if HasData(p2.ep.tx) {
      BuildStaysSynced(Offer(up2, p2.ep.tx, gaps.beforeBuild), TunnelRun(p2.ep.tx, gaps.beforeBuild), c.rx,
                       AckField(p.ep.rx));
    }
  }

  // ---- The link: frames survive encoding. ----

  lemma CarryFacts(p: Peer, f: MacFrame, o: Outcome, gaps: PeerGaps)
    requires Canonical(f) && f.kind != RESET
    requires Serve(p, f, gaps).1.Some? && Canonical(Serve(p, f, gaps).1.value)
    ensures Encode(f).Some?
    ensures var (p1, reply) := Carry(p, f, o, gaps);
            && p1 == (if o.Lost? then p else Serve(p, f, gaps).0)
            && (reply.Got? <==> o.Both?)
            && (reply.Got? ==> Decode(reply.wire) == Serve(p, f, gaps).1)
            && (reply == CM.SendFailed <==> !o.Both? && !o.reported)
  {
    hide Serve, Encode, Decode;
    CodecRoundTrip(f);
    CodecRoundTrip(Serve(p, f, gaps).1.value);
  }

  // ---- Stage 3: the coordinator applies the answer. ----

  lemma ApplyStage(down: Flow, up: Flow, c: CM.Coord, p: Peer, rx: MacFrame)
    requires Duplex(down, up, c.ep, p.ep)
    requires Current(up, down, p.ep, rx)
    requires rx.kind == ACK || rx.kind == PENDING || rx.kind == DATA
    requires rx.pending != 0 <==> rx.kind != ACK
    requires rx.kind != DATA ==> p.ep.tx.inflight.None?
    requires c.ep.tx.inflight.Some? ==> down.accepted == down.acked + 1
    ensures var (c1, applied) := CM.ApplyResponse(c, rx);
            var down1, up1 := OnCommit(down, c.ep.tx, rx.ack), OnConsume(up, c.ep.rx, rx);
            && applied
            && Duplex(down1, up1, c1.ep, p.ep)
            && c1 == c.(ep := c1.ep, mode := c1.mode, peerHasPending := rx.kind != ACK)
            && c1.mode == (if rx.kind == ACK then CM.Idle else if rx.kind == DATA then CM.ActiveRx else CM.IssueGrant)
            && Turns(c1, p)
            && c1.ep.tx.inflight.None?
            && down1.acked == down.accepted == down1.accepted
            && up1.acked == up.acked
            && up1.accepted == (if rx.kind == DATA then up.acked + 1 else up.accepted)
            && down1.session == down.session && up1.session == up.session
  {
    hide InSession, WireAck, WireSeq;
    SessionFacts(down, c.ep.tx, p.ep.rx);
    AbsorbStaysSynced(up, down, p.ep, c.ep, rx, down.accepted, up.acked);
    assert Absorb(c.ep, rx).0.rx == CM.ApplyResponse(c, rx).0.ep.rx;
  }

  // ---- A whole exchange. ----

  /** The world after an exchange, before the link's failure counters are updated. */
  lemma ExchangeStage(w: World, ev: Event)
    requires Duplex(w.down, w.up, w.coord.ep, w.peer.ep)
    requires Connected(w) && Turns(w.coord, w.peer) && Exchanging(w.coord) && ev.Loop?
    ensures var (p, reply) := Respond(w, ev);
            var (c, result) := CM.PerformExchange(w.coord, reply, ev.t);
            var (down, up) := FlowsAfter(w, ev, reply);
            && Duplex(down, up, c.ep, p.ep)
            && Turns(c, p)
            && c.link == w.coord.link
            && c.mode != CM.ResetSync
            && down.session == w.down.session && up.session == w.up.session
            && (reply.Got? <==> ev.outcome.Both?)
            && (if ev.outcome.Both? then
                  && result == CM.Success
                  && AnswerOf(reply).Some?
                  && (AnswerOf(reply).value.pending <==> Granting(c.mode))
                else
                  && result == CM.Failed(if ev.outcome.reported then TimeoutFailure else SendFailure)
                  && AnswerOf(reply).None?
                  && c.mode == w.coord.mode)
  {
    hide InSession, CM.ChooseTx, Serve, FlowsServed, Carry, OnCommit, OnConsume, CM.ApplyResponse, Encode, Decode,
         TunnelRun, AllQueued, Carries, WireAck;
    var (c1, request) := CM.ChooseTx(w.coord, ev.t.beforeBuild);
    ChooseStage(w, ev.t.beforeBuild);
    var f := request.value;
    var down1 := Offer(w.down, w.coord.ep.tx, ev.t.beforeBuild);
    ServeStage(down1, w.up, c1.ep, w.peer, f, ev.gaps);
    CarryFacts(w.peer, f, ev.outcome, ev.gaps);
    var (p, reply) := Respond(w, ev);
    var (down2, up2) := if ev.outcome.Lost? then (down1, w.up) else FlowsServed(down1, w.up, w.peer, f, ev.gaps);
    var c2 := CM.RunTunnel(c1, ev.t.whileWaiting);
    var down3 := Offer(down2, c1.ep.tx, ev.t.whileWaiting);
    OfferStaysSynced(down2, c1.ep.tx, p.ep.rx, ev.t.whileWaiting);
    if ev.outcome.Both? {
      var rx := Decode(reply.wire).value;
      ApplyStage(down3, up2, c2, p, rx);
    }
  }

  // ---- The three kinds of step. ----

  lemma TraceExtends(trace: seq<Sent>, session: nat, mode: CM.Mode, s: Sent, session1: nat, mode1: CM.Mode)
    requires TraceOk(trace, session, mode)
    requires s.session == session <= session1
    requires s.linkDown <==> s.kind == RESET
    requires s.linkDown <==> mode == CM.ResetSync
    requires mode != CM.ResetSync ==> (s.kind == GRANT <==> Granting(mode))
    requires mode1 != CM.ResetSync ==> (Granting(mode1) <==> session == session1 && CallsForGrant(s))
    ensures TraceOk(trace + [s], session1, mode1)
  {
    var t := trace + [s];
    forall k | 0 <= k < |t| - 1
      ensures t[k].session <= t[k + 1].session
      ensures t[k + 1].kind != RESET ==>
                (t[k + 1].kind == GRANT <==> t[k].session == t[k + 1].session && CallsForGrant(t[k]))
    {
      assert t[k] == trace[k];
      if k + 1 < |trace| {
        assert t[k + 1] == trace[k + 1];
      }
    }
  }

  /** The link's counters, the mode and the outage after a failure while the link was up. */
  lemma FailureStage(c: CM.Coord, f: Failure, now: nat, later: nat)
    requires LinkOk(c.link) && !c.link.disconnected && now <= later
    requires c.link.resetRequired <==> c.mode == CM.ResetSync
    ensures var c1 := CM.HandleFailure(c, f, later);
            && LinkOk(c1.link)
            && (c1.link.resetRequired <==> c1.mode == CM.ResetSync)
            && (c1.link.disconnected ==> OutageOk(c1.link, [Attempt(now, later)]))
            && (c1.mode == c.mode || c1.mode == CM.ResetSync)
  {
    hide OutageOk, LinkOk, OverThreshold, OnFailure, Count;
    FailureEffect(c.link, f, now, later);
  }

  lemma FailureFrame(c: CM.Coord, f: Failure, later: nat)
    ensures CM.HandleFailure(c, f, later).ep == c.ep
    ensures CM.HandleFailure(c, f, later).peerHasPending == c.peerHasPending
  {}

  /** An iteration that performs an exchange. */
  lemma ExchangeKeepsInv(w: World, ev: Event)
    requires Inv(w) && Connected(w) && ev.Loop? && ev.t.now <= ev.t.later
    ensures Inv(Step(w, ev))
  {
    hide InSession, Kept, Tracked, CM.PerformExchange, Respond, FlowsAfter, TraceOk, OutageOk, LinkOk, CM.ChooseTx,
         Offer, Current, AnswerOf, CM.HandleFailure, OnFailure;
    assert !w.coord.link.disconnected && LinkOk(HEALTHY) by {
      LinkFacts(w.coord.link);
    }
    ExchangeStage(w, ev);
    var (p, reply) := Respond(w, ev);
    var (c, result) := CM.PerformExchange(w.coord, reply, ev.t);
    ChooseStage(w, ev.t.beforeBuild);
    var f := CM.Request(w.coord, ev.t).value;
    var w1 := Step(w, ev);
    if result.Failed? {
      FailureStage(c, result.failure, ev.t.now, ev.t.later);
      FailureFrame(c, result.failure, ev.t.later);
      assert [] + [Attempt(ev.t.now, ev.t.later)] == [Attempt(ev.t.now, ev.t.later)];
    }
    InSessionIsKept(w1);
    TraceExtends(w.trace, w.down.session, w.coord.mode, Sent(f.kind, w.down.session, false, AnswerOf(reply)),
                 w1.down.session, w1.coord.mode);
  }

  lemma LinkFacts(l: Link)
    requires LinkOk(l)
    ensures !l.resetRequired ==> !l.disconnected
    ensures LinkOk(HEALTHY)
  {}

  lemma InSessionIsKept(w: World)
    requires Duplex(w.down, w.up, w.coord.ep, w.peer.ep)
    ensures Kept(w.down, w.coord.ep.tx, w.peer.ep.rx) && Kept(w.up, w.peer.ep.tx, w.coord.ep.rx)
    ensures Tracked(w.down) && Tracked(w.up)
  {
    hide Kept, Synced, Tracked;
    InSessionIsTracked(w.down, w.coord.ep.tx, w.peer.ep.rx);
    InSessionIsTracked(w.up, w.peer.ep.tx, w.coord.ep.rx);
  }

  /** A reset request over the link: the peer either never saw it or is at session start. */
  lemma ResetOverLink(p: Peer, o: Outcome, gaps: PeerGaps)
    ensures var (p1, reply) := Carry(p, RESET_FRAME, o, gaps);
            && p1 == (if o.Lost? then p else HandleReset(p))
            && (CM.IsResetReply(reply) <==> o.Both?)
            && AnswerOf(reply) == (if o.Both? then Some(Answer(RESET, false)) else None)
  {
    CodecRoundTrip(RESET_FRAME);
  }

  /** What a reset attempt does to the two ends and the flows. */
  lemma ResetStage(w: World, ev: Event)
    requires ev.Loop? && !Exchanging(w.coord) && !CM.Sleeps(w.coord, ev.t)
    requires Kept(w.down, w.coord.ep.tx, w.peer.ep.rx) && Kept(w.up, w.peer.ep.tx, w.coord.ep.rx)
    requires Tracked(w.down) && Tracked(w.up)
    ensures var (p, reply) := Respond(w, ev);
            var (c, ok) := CM.ConnectionReset(w.coord, reply);
            var (down, up) := FlowsAfter(w, ev, reply);
            && ok == ev.outcome.Both?
            && AnswerOf(reply) == (if ok then Some(Answer(RESET, false)) else None)
            && Kept(down, c.ep.tx, p.ep.rx) && Kept(up, p.ep.tx, c.ep.rx)
            && Tracked(down) && Tracked(up)
            && down.session == w.down.session + (if ok then 1 else 0)
            && up.session == w.up.session + (if ok then 1 else 0)
            && (ok ==> Duplex(down, up, c.ep, p.ep))
            && (ok ==> SessionStart(c.ep) && SessionStart(p.ep) && !p.granted && p.budget == 0)
  {
    hide Kept, Synced, Tracked, Carry, OnSessionStart, Encode, Decode, CM.IsResetReply;
    ResetOverLink(w.peer, ev.outcome, ev.gaps);
    ResetKeeps(w.down, w.coord.ep, w.peer.ep);
    ResetKeeps(w.up, w.peer.ep, w.coord.ep);
    SessionCounts(w.down);
    SessionCounts(w.up);
    var (p, reply) := Respond(w, ev);
    var c := CM.BeginReset(w.coord);
    if ev.outcome.Both? {
      SessionStartIsSynced(w.down, c.ep, p.ep);
      SessionStartIsSynced(w.up, p.ep, c.ep);
      InSessionIsTracked(OnSessionStart(w.down), c.ep.tx, p.ep.rx);
      InSessionIsTracked(OnSessionStart(w.up), p.ep.tx, c.ep.rx);
    }
  }

  /** An iteration that attempts a reset, or sleeps until the next attempt is due. */
  lemma ResetKeepsInv(w: World, ev: Event)
    requires Inv(w) && !Connected(w) && ev.Loop? && ev.t.now <= ev.t.later
    ensures Inv(Step(w, ev))
  {
    hide InSession, Kept, Tracked, TraceOk, OutageOk, LinkOk, Respond, FlowsAfter, CM.ConnectionReset, AnswerOf,
         CM.HandleFailure, OnFailure, OnRetryFailed;
    if CM.Sleeps(w.coord, ev.t) {
      assert Step(w, ev) == w by { SleepStage(w, ev); }
    } else {
      ResetStage(w, ev);
      LinkFacts(w.coord.link);
      var (p, reply) := Respond(w, ev);
      var (c, ok) := CM.ConnectionReset(w.coord, reply);
      ConnectionResetFrame(w.coord, reply);
      var w1 := Step(w, ev);
      if !ok && w.coord.link.disconnected {
        LinkStepsKeepOk(c.link, ProtocolFailure, ev.t.later);
        RetryStage(c.link, w.outage, ev.t.now, ev.t.later);
      } else if !ok {
        FailureStage(c, ProtocolFailure, ev.t.now, ev.t.later);
        FailureFrame(c, ProtocolFailure, ev.t.later);
        assert w.outage + [Attempt(ev.t.now, ev.t.later)] == [Attempt(ev.t.now, ev.t.later)];
      }
      TraceExtends(w.trace, w.down.session, w.coord.mode, Sent(RESET, w.down.session, true, AnswerOf(reply)),
                   w1.down.session, w1.coord.mode);
    }
  }

  lemma SleepStage(w: World, ev: Event)
    requires ev.Loop? && CM.Sleeps(w.coord, ev.t)
    ensures Step(w, ev) == w
  {}

  lemma ConnectionResetFrame(c: CM.Coord, reply: CM.Reply)
    ensures var c1 := CM.ConnectionReset(c, reply).0;
            c1 == c.(ep := c1.ep, peerHasPending := false, burst := 0)
  {}

  lemma RetryStage(l: Link, outage: seq<Attempt>, now: nat, later: nat)
    requires OutageOk(l, outage) && l.nextRetryUs <= now <= later
    ensures OutageOk(OnRetryFailed(l, later), outage + [Attempt(now, later)])
    ensures OnRetryFailed(l, later).disconnected == l.disconnected
    ensures OnRetryFailed(l, later).resetRequired == l.resetRequired
  {
    OutageContinues(l, outage, now, later);
  }

  lemma SessionCounts(fl: Flow)
    ensures OnSessionStart(fl).session == fl.session + 1
  {}

  lemma TunnelKeepsInv(w: World, ev: Event)
    requires Inv(w) && !ev.Loop?
    ensures Inv(Step(w, ev))
  {
    hide Kept, InSession, Tracked, TraceOk, OutageOk, TunnelRun, AllQueued, LinkOk;
    match ev
    case CoordTunnel(e) =>
      OfferStaysTracked(w.down, w.coord.ep.tx, w.peer.ep.rx, [e]);
      OfferKeeps(w.down, w.coord.ep.tx, w.peer.ep.rx, [e]);
      DataStays(w.coord.ep.tx, [e]);
      if Connected(w) { OfferStaysSynced(w.down, w.coord.ep.tx, w.peer.ep.rx, [e]); }
    case PeerTunnel(e) =>
      OfferStaysTracked(w.up, w.peer.ep.tx, w.coord.ep.rx, [e]);
      OfferKeeps(w.up, w.peer.ep.tx, w.coord.ep.rx, [e]);
      DataStays(w.peer.ep.tx, [e]);
      if Connected(w) { OfferStaysSynced(w.up, w.peer.ep.tx, w.coord.ep.rx, [e]); }
  }

  lemma StepKeepsInv(w: World, ev: Event)
    requires Inv(w)
    requires ev.Loop? ==> ev.t.now <= ev.t.later
    ensures Inv(Step(w, ev))
  {
    hide Inv, Step;
    if !ev.Loop? {
      TunnelKeepsInv(w, ev);
    } else if Connected(w) {
      ExchangeKeepsInv(w, ev);
    } else {
      ResetKeepsInv(w, ev);
    }
  }

  lemma InitialInv()
    ensures Inv(INITIAL)
  {
    hide Kept, LinkOk, Tracked;
    EmptyFlowIsTracked(NEW_FLOW);
    EmptyFlowIsKept(NEW_FLOW, NEW_ENDPOINT.tx, NEW_ENDPOINT.rx);
    NewLinkIsOk();
  }

  /** Every run, whatever is lost and however the tunnel threads interleave, keeps the invariant. */
  lemma {:induction false} RunKeepsInv(events: seq<Event>)
    requires ClockOk(events)
    ensures Inv(Run(events))
  {
    hide Step, Inv;
    if events == [] {
      InitialInv();
    } else {
      RunKeepsInv(events[..|events| - 1]);
      StepKeepsInv(Run(events[..|events| - 1]), events[|events| - 1]);
    }
  }
}
