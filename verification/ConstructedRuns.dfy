/**
 Runs built event by event, for every packet: they show that the limits the other modules prove on
 delivery across resets are met, so that each limit is exact.
 */
module ConstructedRuns {
  import opened Bytes
  import opened IpFilter
  import opened MacFrames
  import opened Arq
  import opened Flows
  import opened LinkHealth
  import opened PeerModel
  import opened JointSystem
  import opened JointInvariant
  import opened RunHistory
  import opened Delivery
  import opened Drain
  import opened Guarantees
  import opened ResetEffects
  import CM = CoordinatorModel

  // ---- Building blocks: a first session, losses, a reset. ----

  /** A run whose clock never goes back and is at most t at the end. */
  predicate RunsTo(events: seq<Event>, t: nat) {
    Steady(events) && EndsBy(events, t)
  }

  lemma RunsOn(events: seq<Event>, ev: Event, t: nat)
    requires RunsTo(events, t) && (ev.Loop? ==> t <= ev.t.now <= ev.t.later)
    ensures RunsTo(events + [ev], if ev.Loop? then ev.t.later else t)
  {}

  /** One more iteration at time t. */
  lemma IterateAt(events: seq<Event>, o: Outcome, t: nat)
    requires RunsTo(events, t)
    ensures RunsTo(events + [Iteration(t, o)], t)
    ensures Run(events + [Iteration(t, o)]) == Step(Run(events), Iteration(t, o))
  {
    hide RunsTo, Run, Step;
    RunsOn(events, Iteration(t, o), t);
    RunSnoc(events, Iteration(t, o));
  }

  /** Sessions exist: the very first iteration opens one when nothing is lost. */
  lemma FirstHandshake()
    ensures RunsTo([Iteration(0, Both)], 0) && EndsWithHandshake([Iteration(0, Both)])
    ensures var w := Run([Iteration(0, Both)]);
            && w.coord.link == HEALTHY && w.coord.mode == CM.Idle
            && w.coord.ep == w.peer.ep == NEW_ENDPOINT
            && w.down == w.up == OnSessionStart(NEW_FLOW)
  {
    hide Step, Inv, EndsWithHandshake;
    assert Run([]) == INITIAL;
    NoEventsClock();
    HandshakeEnds([], 0);
    InitialInv();
    HandshakeSucceeds(INITIAL, 0);
    RunSnoc([], Iteration(0, Both));
    assert [] + [Iteration(0, Both)] == [Iteration(0, Both)];
  }

  /** The request is lost, and reported to the coordinator as a send failure. */
  const LOST := Lost(false)

  /** The request is delivered, but reported as a send failure, and the answer is lost. */
  const UNHEARD := NoReply(false)

  /** Connected, or just dropped, after n send failures in a row. */
  predicate Failing(w: World, n: nat) {
    && w.coord.link.timeoutStreak == 0 && w.coord.link.sendStreak == n
    && (w.coord.link.disconnected <==> n == 5)
    && (Connected(w) <==> n < 5)
  }

  lemma SendFailureLink(l: Link, t: nat)
    requires LinkOk(l) && !l.disconnected && l.timeoutStreak == 0
    ensures var m := OnFailure(l, SendFailure, t);
            && m.timeoutStreak == 0 && m.sendStreak == l.sendStreak + 1
            && (m.disconnected <==> m.sendStreak == 5)
            && (OverThreshold(Count(l, SendFailure)) <==> m.disconnected)
  {}

  /** An exchange that fails with a send failure moves the streak by one. */
  lemma SendFailureStep(w: World, o: Outcome, n: nat, t: nat)
    requires Inv(w) && Failing(w, n) && n < 5 && !o.Both? && !o.reported
    ensures Inv(Step(w, Iteration(t, o))) && Failing(Step(w, Iteration(t, o)), n + 1)
  {
    hide InSession, Kept, Tracked, CM.PerformExchange, Respond, FlowsAfter, TraceOk, OutageOk, LinkOk, AnswerOf,
         CM.ChooseTx, OnFailure, OverThreshold, Count;
    var ev := Iteration(t, o);
    LinkFacts(w.coord.link);
    ExchangeStage(w, ev);
    SendFailureLink(w.coord.link, t);
    assert Inv(Step(w, ev)) by { StepKeepsInv(w, ev); }
  }

  lemma LostChangesNoFlow(w: World, t: nat)
    requires Inv(w) && Connected(w)
    ensures Step(w, Iteration(t, LOST)).down == w.down && Step(w, Iteration(t, LOST)).up == w.up
  {
    hide Kept, Tracked, Duplex, TraceOk, OutageOk, LinkOk, CM.ChooseTx, CM.Iterate, Offer, AnswerOf, Encode;
    LinkFacts(w.coord.link);
    var c1 := CM.ChooseTx(w.coord, []).0;
    NothingOffered(w.down, w.coord.ep.tx);
    NothingOffered(w.down, c1.ep.tx);
  }

  /** Losses from the n-th to the m-th. */
  lemma {:induction false} LostRun(start: seq<Event>, t: nat, n: nat, m: nat) returns (events: seq<Event>)
    requires RunsTo(start, t) && Inv(Run(start)) && Failing(Run(start), n) && n <= m <= 5
    ensures RunsTo(events, t) && Inv(Run(events)) && Failing(Run(events), m)
    ensures Run(events).down == Run(start).down && Run(events).up == Run(start).up
  {
    hide Step, Inv, Run, RunsTo;
    if m == n {
      events := start;
    } else {
      var front := LostRun(start, t, n, m - 1);
      events := front + [Iteration(t, LOST)];
      SendFailureStep(Run(front), LOST, m - 1, t);
      LostChangesNoFlow(Run(front), t);
      IterateAt(front, LOST, t);
    }
  }

  /** Losses until the link is dropped, then a handshake: both flows start a session where they are. */
  lemma DropAndReconnect(start: seq<Event>, t: nat, n: nat) returns (events: seq<Event>, u: nat)
    requires RunsTo(start, t) && Inv(Run(start)) && Failing(Run(start), n) && n <= 5
    ensures RunsTo(events, u) && EndsWithHandshake(events) && Inv(Run(events))
    ensures var w, v := Run(start), Run(events);
            && v.down == OnSessionStart(w.down) && v.up == OnSessionStart(w.up)
            && Failing(v, 0) && v.coord.mode == CM.Idle
  {
    hide Step, Inv, Run, OnSessionStart, RunsTo, EndsWithHandshake;
    var dropped := LostRun(start, t, n, 5);
    u := Max(t, Run(dropped).coord.link.nextRetryUs);
    var ev := Iteration(u, Both);
    events := dropped + [ev];
    assert ClockOk(dropped) by { RunsToClock(dropped, t); }
    HandshakeEnds(dropped, u);
    HandshakeSucceeds(Run(dropped), u);
    RunsOn(dropped, ev, t);
    RunSnoc(dropped, ev);
  }

  lemma RunsToClock(events: seq<Event>, t: nat)
    requires RunsTo(events, t)
    ensures ClockOk(events)
  {}

  // ---- One packet, queued at the coordinator or at the peer. ----

  /** The flow out of the peer, or out of the coordinator. */
  function FlowOf(w: World, atPeer: bool): Flow {
    if atPeer then w.up else w.down
  }

  /** The only packet is p, all of it uncommitted, in a session that started with it. */
  ghost predicate OnePacket(fl: Flow, p: Packet) {
    fl.offered == [p] && fl.sent == Pos(0, 0) == fl.base && fl.acked == 0
  }

  /** Connected and idle, with p the only packet of `fl`, which is one of the two flows. */
  ghost predicate Start(w: World, fl: Flow, p: Packet) {
    && Inv(w) && Failing(w, 0) && w.coord.mode == CM.Idle
    && OnePacket(fl, p) && fl.accepted == 0 && fl.logBase == |fl.log|
  }

  lemma ReadFlow(fl: Flow, s: Sender, p: Packet)
    requires IsValidIpPacket(p) && |p| <= TUNNEL_READ_SIZE && s.ready && fl.offered == []
    ensures Offer(fl, s, [Read(p)]) == fl.(offered := [p])
  {
    hide IsValidIpPacket;
    var es := [Read(p)];
    assert es[1..] == [];
    assert ReadResult(p) == p;
    assert AllQueued(s, es) == [p];
  }

  /** Connected for the first time, then p is read from the coordinator's tunnel, or from the peer's. */
  lemma ReadOnePacket(p: Packet, atPeer: bool) returns (events: seq<Event>)
    requires IsValidIpPacket(p) && |p| <= TUNNEL_READ_SIZE
    ensures RunsTo(events, 0)
    ensures var w := Run(events);
            var fl := FlowOf(w, atPeer);
            Start(w, fl, p) && fl.log == [] && FlowOf(w, !atPeer).offered == []
  {
    hide IsValidIpPacket, Inv, Offer, Run, EndsWithHandshake, TunnelRun;
    var e0, e1 := Iteration(0, Both), if atPeer then PeerTunnel(Read(p)) else CoordTunnel(Read(p));
    FirstHandshake();
    RunKeepsInv([e0]);
    var w := Run([e0]);
    ReadFlow(w.down, w.coord.ep.tx, p);
    ReadFlow(w.up, w.peer.ep.tx, p);
    events := [e0] + [e1];
    RunSnoc([e0], e1);
    RunsOn([e0], e1, 0);
    StepKeepsInv(w, e1);
  }

  /** In a world with one packet p on a flow, how much of p is queued. */
  lemma QueueOfOne(fl: Flow, s: Sender, r: Receiver, p: Packet)
    requires Kept(fl, s, r) && fl.offered == [p]
    ensures fl.sent == Pos(0, 0) ==> s.queue == [p] && Remaining(s.queue) == Fragments(p)
    ensures 0 < Remaining(s.queue) < Fragments(p) ==> fl.sent.index == 0 && fl.sent.off > 0
  {
    hide IsValidIpPacket, LogOk, Flatten, AllValid, Settled;
    assert p[0..] == p;
    assert [p][1..] == [];
    assert Remaining([]) == 0;
    assert Remaining([p]) == Fragments(p);
  }

  lemma FlowFacts(w: World)
    requires Inv(w)
    ensures Kept(w.down, w.coord.ep.tx, w.peer.ep.rx) && Tracked(w.down)
    ensures Kept(w.up, w.peer.ep.tx, w.coord.ep.rx) && Tracked(w.up)
    ensures w.down.session == w.up.session
  {
    hide Kept, Tracked, Duplex, TraceOk, OutageOk, LinkOk;
  }

  // ---- Exchanges that the other end hears and the coordinator does not. ----

  lemma ServedDown(down: Flow, up: Flow, p: Peer, f: MacFrame)
    ensures FlowsServed(down, up, p, f, NO_GAPS).0 == OnConsume(down, p.ep.rx, f)
    ensures OnConsume(down, p.ep.rx, f).sent == down.sent
  {}

  lemma ServedUp(down: Flow, up: Flow, p: Peer, f: MacFrame)
    ensures var up1 := FlowsServed(down, up, p, f, NO_GAPS).1;
            up1.recv == up.recv && up1.log == up.log
  {
    hide ApplyRequest, AllQueued, RunTunnel, Commits, Erased;
  }

  /** What an unheard exchange does to the flows: the peer accepts the data and commits on the ack. */
  lemma UnheardStage(w: World, t: nat)
    requires Duplex(w.down, w.up, w.coord.ep, w.peer.ep)
    requires Connected(w) && Turns(w.coord, w.peer) && Exchanging(w.coord)
    ensures var ev := Iteration(t, UNHEARD);
            var (down, up) := FlowsAfter(w, ev, Respond(w, ev).1);
            && down.offered == w.down.offered && down.sent == w.down.sent && down.acked == w.down.acked
            && (w.coord.mode == CM.Idle && HasData(w.coord.ep.tx) ==> down.accepted == w.down.acked + 1)
            && up.offered == w.up.offered && up.recv == w.up.recv && up.log == w.up.log
            && up.acked == up.accepted == w.up.accepted
  {
    hide InSession, CM.ChooseTx, Serve, FlowsServed, Carry, OnCommit, OnConsume, Encode, Decode, TunnelRun, AllQueued,
         Carries, WireAck, Offer;
    NothingOffered(w.down, w.coord.ep.tx);
    ChooseStage(w, []);
    var (c1, request) := CM.ChooseTx(w.coord, []);
    var f := request.value;
    ServeStage(w.down, w.up, c1.ep, w.peer, f, NO_GAPS);
    ServedDown(w.down, w.up, w.peer, f);
    ServedUp(w.down, w.up, w.peer, f);
    ServedOffers(w.down, w.up, w.peer, f);
    CarryFacts(w.peer, f, UNHEARD, NO_GAPS);
    NothingOffered(FlowsServed(w.down, w.up, w.peer, f, NO_GAPS).0, c1.ep.tx);
  }

  lemma UnheardStep(w: World, t: nat)
    requires Inv(w) && Failing(w, 0)
    ensures var v := Step(w, Iteration(t, UNHEARD));
            && Inv(v) && Failing(v, 1) && Later(w, v) && v.down.session == w.down.session
            && v.down.offered == w.down.offered && v.down.sent == w.down.sent && v.down.acked == w.down.acked
            && (w.coord.mode == CM.Idle && HasData(w.coord.ep.tx) ==> v.down.accepted == w.down.acked + 1)
            && v.up.offered == w.up.offered && v.up.recv == w.up.recv && v.up.log == w.up.log
            && v.up.acked == v.up.accepted == w.up.accepted
  {
    hide InSession, Kept, Tracked, Respond, FlowsAfter, TraceOk, OutageOk, LinkOk, CM.Iterate, TraceAfter, OutageAfter,
         FlowLater;
    LinkFacts(w.coord.link);
    UnheardStage(w, t);
    StepIsLater(w, Iteration(t, UNHEARD));
    ExchangeKeepsSession(w, Iteration(t, UNHEARD));
    SendFailureStep(w, UNHEARD, 0, t);
  }

  // ---- A reset can cut every packet of more than one fragment. ----

  /** A session of `fl` starts inside its only packet, p, of which nothing has been written. */
  ghost predicate CutInside(fl: Flow, p: Packet) {
    fl.offered == [p] && fl.sent.index == 0 && fl.sent.off > 0 && fl.log == []
  }

  lemma NothingWritten(fl: Flow)
    requires Tracked(fl) && fl.logBase == 0 && fl.recv.index == 0
    ensures fl.log == []
  {
    hide IsValidIpPacket, FragmentAt;
  }

  lemma LevelFlow(fl: Flow)
    requires Tracked(fl) && fl.acked == fl.accepted
    ensures fl.recv == fl.sent
  {
    hide SessionLogOk, FragmentAt;
  }

  /** One exchange commits the first fragment of p at the coordinator. */
  lemma CutDown(w: World, p: Packet, t: nat)
    requires Start(w, w.down, p) && |p| > MAX_PAYLOAD_SIZE && w.down.log == []
    ensures var v := Step(w, Iteration(t, Both));
            Inv(v) && Failing(v, 0) && CutInside(v.down, p)
  {
    hide Step, Inv, Remaining, Kept, Tracked;
    var v := Step(w, Iteration(t, Both));
    QuietExchange(w, Iteration(t, Both));
    StepIsLater(w, Iteration(t, Both));
    FlowFacts(w);
    FlowFacts(v);
    QueueOfOne(w.down, w.coord.ep.tx, w.peer.ep.rx, p);
    QueueOfOne(v.down, v.coord.ep.tx, v.peer.ep.rx, p);
    NotAheadDown(v);
    LevelFlow(v.down);
    NothingWritten(v.down);
  }

  lemma NotAheadDown(w: World)
    requires Inv(w) && Connected(w) && w.coord.ep.tx.inflight.None?
    ensures w.down.accepted == w.down.acked
  {
    hide InSession, Kept, Tracked, TraceOk, OutageOk, LinkOk;
    SessionFacts(w.down, w.coord.ep.tx, w.peer.ep.rx);
  }

  /** p is still the only packet, and its first fragment has been accepted but not committed. */
  ghost predicate FirstAccepted(fl: Flow, g: Flow, p: Packet) {
    && OnePacket(g, p) && g.accepted == 1
    && g.session == fl.session && g.logBase == fl.logBase && fl.log <= g.log
  }

  /** Two exchanges, PENDING and GRANT, bring the first fragment of p from the peer. */
  lemma TwoExchangesUp(w: World, p: Packet, t: nat)
    requires Start(w, w.up, p)
    ensures var v := Step(Step(w, Iteration(t, Both)), Iteration(t, Both));
            Inv(v) && Failing(v, 0) && FirstAccepted(w.up, v.up, p)
  {
    hide Step, Inv, Remaining, Kept, Tracked, Fragments;
    var u := Step(w, Iteration(t, Both));
    var v := Step(u, Iteration(t, Both));
    QuietExchange(w, Iteration(t, Both));
    StepIsLater(w, Iteration(t, Both));
    FlowFacts(w);
    FlowFacts(u);
    QueueOfOne(u.up, u.peer.ep.tx, u.coord.ep.rx, p);
    CountsOf(u.up);
    QuietExchange(u, Iteration(t, Both));
    StepIsLater(u, Iteration(t, Both));
    FlowFacts(v);
    QueueOfOne(v.up, v.peer.ep.tx, v.coord.ep.rx, p);
  }

  lemma CountsOf(fl: Flow)
    requires Tracked(fl)
    ensures Ahead(fl) || fl.accepted == fl.acked
  {
    hide SessionLogOk, FragmentAt;
  }

  /** The accepted fragment ends at byte 27 of p, and nothing has been written. */
  lemma FirstOfSeveral(fl: Flow, p: Packet)
    requires Tracked(fl) && OnePacket(fl, p) && fl.accepted == 1 && |p| > MAX_PAYLOAD_SIZE && fl.logBase == 0
    ensures fl.recv == Pos(0, MAX_PAYLOAD_SIZE) && fl.log == []
  {
    hide FragmentAt, IsValidIpPacket;
  }

  /** A third exchange, unheard, commits it at the peer. */
  lemma CutUp(w: World, p: Packet, t: nat)
    requires Start(w, w.up, p) && |p| > MAX_PAYLOAD_SIZE && w.up.log == []
    ensures var v := Step(Step(Step(w, Iteration(t, Both)), Iteration(t, Both)), Iteration(t, UNHEARD));
            Inv(v) && Failing(v, 1) && CutInside(v.up, p)
  {
    hide Step, Inv, Tracked, Kept;
    var u := Step(Step(w, Iteration(t, Both)), Iteration(t, Both));
    TwoExchangesUp(w, p, t);
    FlowFacts(u);
    FirstOfSeveral(u.up, p);
    UnheardStep(u, t);
    FlowFacts(Step(u, Iteration(t, UNHEARD)));
    LevelFlow(Step(u, Iteration(t, UNHEARD)).up);
  }

  /** Every packet of more than one fragment can be cut by a reset, in either direction, before any of it is written. */
  lemma CutRun(p: Packet, atPeer: bool) returns (opening: seq<Event>)
    requires IsValidIpPacket(p) && MAX_PAYLOAD_SIZE < |p| <= TUNNEL_READ_SIZE
    ensures Steady(opening) && EndsWithHandshake(opening)
    ensures CutInside(FlowOf(Run(opening), atPeer), p)
  {
    hide Step, Inv, Run, OnSessionStart, EndsWithHandshake, IsValidIpPacket;
    var start := ReadOnePacket(p, atPeer);
    var e1 := start + [Iteration(0, Both)];
    IterateAt(start, Both, 0);
    var u: nat;
    if atPeer {
      var e2 := e1 + [Iteration(0, Both)];
      var e3 := e2 + [Iteration(0, UNHEARD)];
      IterateAt(e1, Both, 0);
      IterateAt(e2, UNHEARD, 0);
      CutUp(Run(start), p, 0);
      opening, u := DropAndReconnect(e3, 0, 1);
      SessionStartFacts(Run(e3).up);
    } else {
      CutDown(Run(start), p, 0);
      opening, u := DropAndReconnect(e1, 0, 0);
      SessionStartFacts(Run(e1).down);
    }
  }

  // ---- Which packets can be written twice. ----

  /** Packet p, queued once, is written whole twice. */
  ghost predicate WrittenWholeTwice(fl: Flow, p: Packet) {
    exists k, l :: 0 <= k < l < |fl.log| && fl.log[k].index == fl.log[l].index < |fl.offered|
      && fl.log[k].from == fl.log[l].from == 0 && fl.offered[fl.log[k].index] == p
  }

  /** The session of `fl` has written p, whole, as its first packet. */
  ghost predicate WrittenInSession(fl: Flow, p: Packet) {
    OnePacket(fl, p) && |fl.log| == fl.logBase + 1 && fl.log[fl.logBase] == Delivery(0, 0, fl.session)
  }

  /** Once a packet that fits one fragment has been accepted, the session has written it. */
  lemma AcceptedIsWritten(fl: Flow, s: Sender, r: Receiver, p: Packet)
    requires Kept(fl, s, r) && Tracked(fl) && OnePacket(fl, p) && |p| <= MAX_PAYLOAD_SIZE && fl.accepted == 1
    ensures WrittenInSession(fl, p)
  {
    hide LogOk, Flatten, FragmentAt, Settled;
    assert p[0..] == p;
    assert IsValidIpPacket(fl.offered[0]);
  }

  /** From a start with p on one flow: p is written, and the sender does not learn of it. */
  lemma WriteUnacked(start: seq<Event>, t: nat, p: Packet, atPeer: bool) returns (events: seq<Event>, n: nat)
    requires RunsTo(start, t) && |p| <= MAX_PAYLOAD_SIZE
    requires Start(Run(start), FlowOf(Run(start), atPeer), p)
    ensures RunsTo(events, t) && Inv(Run(events)) && Failing(Run(events), n) && n <= 1
    ensures WrittenInSession(FlowOf(Run(events), atPeer), p)
    ensures FirstAccepted(FlowOf(Run(start), atPeer), FlowOf(Run(events), atPeer), p)
  {
    hide Step, Inv, Run, RunsTo, Kept, Tracked, Remaining, Fragments;
    var w := Run(start);
    FlowFacts(w);
    if atPeer {
      var front := start + [Iteration(t, Both)];
      events, n := front + [Iteration(t, Both)], 0;
      IterateAt(start, Both, t);
      IterateAt(front, Both, t);
      TwoExchangesUp(w, p, t);
      var v := Run(events);
      FlowFacts(v);
      AcceptedIsWritten(v.up, v.peer.ep.tx, v.coord.ep.rx, p);
    } else {
      events, n := start + [Iteration(t, UNHEARD)], 1;
      IterateAt(start, UNHEARD, t);
      QueueOfOne(w.down, w.coord.ep.tx, w.peer.ep.rx, p);
      UnheardStep(w, t);
      var v := Run(events);
      FlowFacts(v);
      AcceptedIsWritten(v.down, v.coord.ep.tx, v.peer.ep.rx, p);
    }
  }

  /** Written in one session, then in the next, which started where the first one did. */
  lemma TwoSessions(fl: Flow, g: Flow, p: Packet)
    requires WrittenInSession(fl, p) && WrittenInSession(g, p) && fl.log <= g.log && g.logBase == |fl.log|
    ensures WrittenWholeTwice(g, p)
  {
    assert g.log[fl.logBase] == fl.log[fl.logBase];
  }

  lemma StartAgain(fl: Flow, p: Packet)
    requires OnePacket(fl, p)
    ensures var g := OnSessionStart(fl);
            OnePacket(g, p) && g.accepted == 0 && g.logBase == |g.log| && g.log == fl.log
  {}

  /** A packet of one fragment can be written twice, in either direction: once in each of two sessions. */
  lemma SmallPacketTwice(p: Packet, atPeer: bool) returns (events: seq<Event>)
    requires IsValidIpPacket(p) && |p| <= MAX_PAYLOAD_SIZE
    ensures Steady(events) && WrittenWholeTwice(FlowOf(Run(events), atPeer), p)
  {
    hide Step, Inv, Run, OnSessionStart, IsValidIpPacket, EndsWithHandshake, WrittenInSession,
         WrittenWholeTwice, OnePacket;
    var start := ReadOnePacket(p, atPeer);
    var first, n := WriteUnacked(start, 0, p, atPeer);
    var again, t := DropAndReconnect(first, 0, n);
    StartAgain(FlowOf(Run(first), atPeer), p);
    events, n := WriteUnacked(again, t, p, atPeer);
    TwoSessions(FlowOf(Run(first), atPeer), FlowOf(Run(events), atPeer), p);
  }

  /**
   At-most-once delivery across resets fails, in each direction, for exactly the packets that fit in one
   fragment: those, and no others, are written whole twice in some run. The run shown has a steady clock;
   the others are excluded under any clock (AtMostOnce).
   */
  lemma WrittenTwiceExactly(p: Packet, atPeer: bool)
    requires IsValidIpPacket(p) && |p| <= TUNNEL_READ_SIZE
    ensures (exists events :: Steady(events) && WrittenWholeTwice(FlowOf(Run(events), atPeer), p)) <==>
            |p| <= MAX_PAYLOAD_SIZE
  {
    hide IsValidIpPacket, Run;
    if |p| <= MAX_PAYLOAD_SIZE {
      var events := SmallPacketTwice(p, atPeer);
    }
    forall events | ClockOk(events) && WrittenWholeTwice(FlowOf(Run(events), atPeer), p)
      ensures |p| <= MAX_PAYLOAD_SIZE
    {
      AtMostOnce(events);
    }
  }

  // ---- Which packets can be lost. ----

  /** Once everything has left the queue. */
  lemma EmptyQueue(fl: Flow, s: Sender, r: Receiver)
    requires Kept(fl, s, r) && s.queue == []
    ensures fl.sent.index == |fl.offered|
  {
    hide LogOk, Flatten, AllValid, Settled;
  }

  /** Every run has a continuation, later than all of it, that empties both queues. */
  lemma ClearingRun(events: seq<Event>) returns (rest: seq<Event>)
    requires ClockOk(events)
    ensures Follows(events, rest) && ClockOk(events + rest) && Later(Run(events), Run(events + rest))
    ensures var v := Run(events + rest);
            v.down.sent.index == |v.down.offered| && v.up.sent.index == |v.up.offered|
  {
    hide Step, Inv, Run, RunFrom, Kept, Tracked, FlowLater, EndsWithHandshake, DrainTime, ClockOk, Follows;
    var w := Run(events);
    RunKeepsInv(events);
    var t := Max(LastTime(events), w.coord.link.nextRetryUs);
    rest := if Connected(w) then [] else [Iteration(t, Both)];
    ConnectedAfter(events, t);
    var u := Run(events + rest);
    assert DrainTime(u) >= 0 by { DrainBounds(u); }
    var quiet := QuietEvents(DrainTime(u), t);
    QuietEventsAreQuiet(DrainTime(u), t);
    QuietEnd(u, quiet);
    RunSplits(events + rest, quiet);
    assert events + rest + quiet == events + (rest + quiet);
    rest := rest + quiet;
    LaterAtOnce(events, rest, t);
    ClocksAppend(events, rest);
    RunKeepsInv(events + rest);
    RunSplits(events, rest);
    RunFromFacts(w, rest);
    var v := Run(events + rest);
    FlowFacts(v);
    EmptyQueue(v.down, v.coord.ep.tx, v.peer.ep.rx);
    EmptyQueue(v.up, v.peer.ep.tx, v.coord.ep.rx);
  }

  /** One loss-free iteration after the retry time connects a run that is not connected. */
  lemma ConnectedAfter(events: seq<Event>, t: nat)
    requires ClockOk(events) && Run(events).coord.link.nextRetryUs <= t
    ensures var u := Run(events + if Connected(Run(events)) then [] else [Iteration(t, Both)]);
            Inv(u) && Connected(u)
  {
    hide Step, Inv, Run, ClockOk, EndsWithHandshake;
    RunKeepsInv(events);
    if Connected(Run(events)) {
      assert events + [] == events;
    } else {
      HandshakeEnds(events, t);
      OpeningFacts(events + [Iteration(t, Both)]);
    }
  }

  lemma LaterAtOnce(events: seq<Event>, rest: seq<Event>, t: nat)
    requires LastTime(events) <= t
    requires forall i :: 0 <= i < |rest| && rest[i].Loop? ==> rest[i].t.now == rest[i].t.later == t
    ensures Follows(events, rest) && ClockOk(rest)
  {
    AtOneTime(events, rest, t);
  }

  lemma QuietEventsAreQuiet(n: nat, t: nat)
    ensures forall ev <- QuietEvents(n, t) :: Quiet(ev)
  {}

  /** Packet i of the flow is p, it has not been written whole, and no continuation in time ever writes it whole. */
  ghost predicate Stranded(events: seq<Event>, i: nat, p: Packet, atPeer: bool) {
    && (var fl := FlowOf(Run(events), atPeer); i < |fl.offered| && fl.offered[i] == p)
    && forall rest :: Follows(events, rest) ==> !WrittenWhole(FlowOf(Run(events + rest), atPeer), i)
  }

  lemma CutIsStranded(opening: seq<Event>, p: Packet, atPeer: bool)
    requires ClockOk(opening) && EndsWithHandshake(opening) && CutInside(FlowOf(Run(opening), atPeer), p)
    ensures Stranded(opening, 0, p, atPeer)
  {
    hide Run, EndsWithHandshake;
    forall rest | Follows(opening, rest)
      ensures !WrittenWhole(FlowOf(Run(opening + rest), atPeer), 0)
    {
      CutPacketNotWrittenAgain(opening, rest);
    }
  }

  lemma SmallIsNotStranded(events: seq<Event>, i: nat, p: Packet, atPeer: bool)
    requires ClockOk(events) && |p| <= MAX_PAYLOAD_SIZE
    ensures !Stranded(events, i, p, atPeer)
  {
    hide Run, Follows, ClockOk;
    var fl := FlowOf(Run(events), atPeer);
    if i < |fl.offered| && fl.offered[i] == p {
      var rest := ClearingRun(events);
      SmallIsWritten(events + rest, i);
      assert WrittenWhole(FlowOf(Run(events + rest), atPeer), i);
    }
  }

  /**
   Delivery at all fails, in each direction, for exactly the packets that need more than one fragment: for
   those, and no others, some run with a steady clock reaches a point at which the packet has never been
   written whole and from which no continuation in time writes it whole.
   */
  lemma LostExactly(p: Packet, atPeer: bool)
    requires IsValidIpPacket(p) && |p| <= TUNNEL_READ_SIZE
    ensures (exists events, i :: Steady(events) && Stranded(events, i, p, atPeer)) <==> |p| > MAX_PAYLOAD_SIZE
  {
    hide IsValidIpPacket, Stranded, EndsWithHandshake, CutInside;
    if |p| > MAX_PAYLOAD_SIZE {
      var opening := CutRun(p, atPeer);
      CutIsStranded(opening, p, atPeer);
    } else {
      forall events, i: nat | Steady(events)
        ensures !Stranded(events, i, p, atPeer)
      {
        SmallIsNotStranded(events, i, p, atPeer);
      }
    }
  }

  // ---- A busy peer keeps the coordinator from sending for as long as it likes. ----

  lemma {:induction false} RemainingOfMore(queue: seq<Packet>, q: Packet)
    ensures Remaining(queue + [q]) == Remaining(queue) + Fragments(q)
  {
    if queue == [] {
      assert [q][1..] == [];
      assert [] + [q] == [q];
      assert Remaining([]) == 0;
    } else {
      RemainingOfMore(queue[1..], q);
      assert (queue + [q])[1..] == queue[1..] + [q];
    }
  }

  lemma {:induction false} RemainingAtLeast(queue: seq<Packet>)
    requires forall i :: 0 <= i < |queue| ==> queue[i] != []
    ensures Remaining(queue) >= |queue|
  {
    if queue != [] {
      RemainingAtLeast(queue[1..]);
      assert Fragments(queue[0]) >= 1;
    }
  }

  lemma RefilledPeer(s: Sender, q: Packet)
    requires IsValidIpPacket(q) && |q| <= TUNNEL_READ_SIZE
    requires Bounded(s) && Remaining(s.queue) >= 1 && forall i :: 0 <= i < |s.queue| ==> s.queue[i] != []
    ensures Remaining(TunnelRun(TunnelRun(s, [Poll]), [Read(q)]).queue) >= 2
  {
    hide IsValidIpPacket, TunnelRun, Remaining;
    PollThenRead(s, q);
    RemainingOfMore(s.queue, q);
    RemainingAtLeast(s.queue);
    assert Fragments(q) >= 1 by { ValidIsNonempty(q); }
  }

  /** The coordinator has p queued, all of it, and goes on granting. */
  ghost predicate Starving(w: World, p: Packet) {
    && Inv(w) && Granting(w.coord.mode)
    && w.coord.ep.tx.queue == [p]
    && Remaining(w.peer.ep.tx.queue) >= 1
  }

  /** The peer's tunnel delivers q, then one exchange. */
  function Refill(q: Packet, t: nat): seq<Event> {
    [PeerTunnel(Poll), PeerTunnel(Read(q)), Iteration(t, Both)]
  }

  lemma PeerTunnelStep(w: World, e: TunnelEvent)
    requires Inv(w)
    ensures var v := Step(w, PeerTunnel(e));
            && Inv(v) && v.coord == w.coord && v.trace == w.trace && v.down == w.down
            && v.peer.ep.tx == TunnelRun(w.peer.ep.tx, [e])
  {
    hide Inv, TunnelRun, Offer;
    StepKeepsInv(w, PeerTunnel(e));
  }

  lemma QueuesNonempty(w: World)
    requires Inv(w)
    ensures Bounded(w.peer.ep.tx)
    ensures forall i :: 0 <= i < |w.peer.ep.tx.queue| ==> w.peer.ep.tx.queue[i] != []
  {
    hide Tracked, Duplex, LogOk, TraceOk, OutageOk, LinkOk, Flatten, AllValid, Settled;
  }

  /** After one refill and one answered GRANT, all is as before. */
  lemma StarvingStep(w: World, p: Packet, q: Packet, t: nat)
    requires Starving(w, p) && IsValidIpPacket(q) && |q| <= TUNNEL_READ_SIZE
    ensures var v := Step(Step(Step(w, PeerTunnel(Poll)), PeerTunnel(Read(q))), Iteration(t, Both));
            && Starving(v, p) && v.down.session == w.down.session
            && |v.trace| == |w.trace| + 1 && w.trace <= v.trace
            && v.trace[|w.trace|].kind == GRANT && v.trace[|w.trace|].answer.Some?
  {
    hide Step, Inv, Remaining, TunnelRun, IsValidIpPacket, QueueAtCheck;
    var w1 := Step(w, PeerTunnel(Poll));
    var w2 := Step(w1, PeerTunnel(Read(q)));
    PeerTunnelStep(w, Poll);
    PeerTunnelStep(w1, Read(q));
    QueuesNonempty(w);
    RefilledPeer(w.peer.ep.tx, q);
    QuietExchange(w2, Iteration(t, Both));
    AnsweredStep(w2, Iteration(t, Both));
    var v := Step(w2, Iteration(t, Both));
    DrainBounds(v);
  }

  /** The last n frames of v are answered GRANTs of the session that w is in. */
  ghost predicate OnlyGrants(w: World, v: World, n: nat) {
    && v.down.session == w.down.session
    && |v.trace| == |w.trace| + n && w.trace <= v.trace
    && forall k :: |w.trace| <= k < |v.trace| ==> v.trace[k].kind == GRANT && v.trace[k].answer.Some?
  }

  lemma {:induction false} StarvingRun(start: seq<Event>, p: Packet, q: Packet, n: nat) returns (rest: seq<Event>)
    requires RunsTo(start, 0) && Starving(Run(start), p) && IsValidIpPacket(q) && |q| <= TUNNEL_READ_SIZE
    ensures RunsTo(start + rest, 0) && Starving(Run(start + rest), p)
    ensures OnlyGrants(Run(start), Run(start + rest), n)
  {
    hide Step, Run, RunsTo, Starving, IsValidIpPacket;
    if n == 0 {
      rest := [];
      assert start + rest == start;
    } else {
      var front := StarvingRun(start, p, q, n - 1);
      rest := front + Refill(q, 0);
      var e0 := start + front;
      var e1 := e0 + [PeerTunnel(Poll)];
      var e2 := e1 + [PeerTunnel(Read(q))];
      assert start + rest == e2 + [Iteration(0, Both)];
      RunSnoc(e0, PeerTunnel(Poll));
      RunsOn(e0, PeerTunnel(Poll), 0);
      RunSnoc(e1, PeerTunnel(Read(q)));
      RunsOn(e1, PeerTunnel(Read(q)), 0);
      IterateAt(e2, Both, 0);
      StarvingStep(Run(e0), p, q, 0);
    }
  }

  /** The coordinator's tunnel delivers p into an empty queue. */
  lemma CoordReads(w: World, p: Packet)
    requires Inv(w) && w.coord.ep.tx.queue == [] && IsValidIpPacket(p) && |p| <= TUNNEL_READ_SIZE
    ensures var v := Step(Step(w, CoordTunnel(Poll)), CoordTunnel(Read(p)));
            && Inv(v) && v.coord.ep.tx.queue == [p] && v.coord.mode == w.coord.mode
            && v.peer == w.peer
  {
    hide Inv, TunnelRun, Offer, IsValidIpPacket;
    var w1 := Step(w, CoordTunnel(Poll));
    StepKeepsInv(w, CoordTunnel(Poll));
    StepKeepsInv(w1, CoordTunnel(Read(p)));
    PollThenRead(w.coord.ep.tx, p);
  }

  lemma NothingQueued(fl: Flow, s: Sender, r: Receiver)
    requires Kept(fl, s, r) && fl.offered == []
    ensures s.queue == []
  {
    hide LogOk, Flatten, AllValid, Settled;
  }

  /** The peer has q and is known to have it; then p arrives at the coordinator. */
  lemma BusyPeer(p: Packet, q: Packet) returns (start: seq<Event>)
    requires IsValidIpPacket(p) && |p| <= TUNNEL_READ_SIZE && IsValidIpPacket(q) && |q| <= TUNNEL_READ_SIZE
    ensures RunsTo(start, 0) && Starving(Run(start), p)
  {
    hide Step, Run, Inv, RunsTo, IsValidIpPacket, Kept, Tracked, Remaining, Fragments;
    var e0 := ReadOnePacket(q, true);
    var e1 := e0 + [Iteration(0, Both)];
    var w, v := Run(e0), Run(e1);
    IterateAt(e0, Both, 0);
    QuietExchange(w, Iteration(0, Both));
    FlowFacts(w);
    FlowFacts(v);
    QueueOfOne(w.up, w.peer.ep.tx, w.coord.ep.rx, q);
    NothingQueued(v.down, v.coord.ep.tx, v.peer.ep.rx);
    DrainBounds(w);
    DrainBounds(v);
    var e2 := e1 + [CoordTunnel(Poll)];
    start := e2 + [CoordTunnel(Read(p))];
    RunSnoc(e1, CoordTunnel(Poll));
    RunsOn(e1, CoordTunnel(Poll), 0);
    RunSnoc(e2, CoordTunnel(Read(p)));
    RunsOn(e2, CoordTunnel(Read(p)), 0);
    CoordReads(v, p);
  }

  /**
   For every n and every two packets: a run with a steady clock in which the coordinator has a packet queued
   and sends n frames in a row, all answered and all GRANTs, because the peer's tunnel keeps delivering.
   Nothing bounds the wait, and the limit on bursts does not help.
   */
  lemma PeerStarvesCoordinator(p: Packet, q: Packet, n: nat) returns (start: seq<Event>, rest: seq<Event>)
    requires IsValidIpPacket(p) && |p| <= TUNNEL_READ_SIZE && IsValidIpPacket(q) && |q| <= TUNNEL_READ_SIZE
    ensures Steady(start + rest) && OnlyGrants(Run(start), Run(start + rest), n)
    ensures Run(start).coord.ep.tx.queue == Run(start + rest).coord.ep.tx.queue == [p]
  {
    hide Run, IsValidIpPacket, Inv, Remaining;
    start := BusyPeer(p, q);
    rest := StarvingRun(start, p, q, n);
  }
}
