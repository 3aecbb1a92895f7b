/**
 Coordinator, peer, the radio link between them and both tunnel threads, as one
 transition system. A run is a list of events; everything the environment decides is
 in the events: what the tunnels deliver and when, which frames are lost, what Send
 reports, and the clock.
 */
module JointSystem {
  import opened Bytes
  import opened MacFrames
  import opened Arq
  import opened Flows
  import opened LinkHealth
  import opened PeerModel
  import CM = CoordinatorModel

  /**
   What the link does to one exchange. `reported` is what Send reports to the
   coordinator: a reported failure may still have been delivered.
   */
  datatype Outcome = Lost(reported: bool) | NoReply(reported: bool) | Both

  datatype Event =
    | CoordTunnel(e: TunnelEvent)
    | PeerTunnel(e: TunnelEvent)
    | Loop(t: CM.Tick, outcome: Outcome, gaps: PeerGaps)

  datatype Answer = Answer(kind: byte, pending: bool)

  /** One frame the coordinator put on the air, and the answer it received. */
  datatype Sent = Sent(kind: byte, session: nat, linkDown: bool, answer: Option<Answer>)

  /** The two ends, and the history of the run: flows, transmissions and the current outage. */
  datatype World = World(
    coord: CM.Coord,
    peer: Peer,
    down: Flow,             // coordinator to peer
    up: Flow,               // peer to coordinator
    trace: seq<Sent>,
    outage: seq<Attempt>)

  const INITIAL := World(CM.NEW_COORD, NEW_PEER, NEW_FLOW, NEW_FLOW, [], [])

  /** One request over the link, and what the coordinator gets back. */
  function Carry(p: Peer, request: MacFrame, o: Outcome, gaps: PeerGaps): (Peer, CM.Reply) {
    var miss := if o.Both? || o.reported then CM.TimedOut else CM.SendFailed;
    match Encode(request)
    case None => (p, miss)
    case Some(wire) =>
      if o.Lost? then
        (p, miss)
      else
        var (p1, answer) := PeerTurn(p, wire, gaps);
        (p1, if o.Both? && answer.Some? then CM.Got(answer.value) else miss)
  }

  function Respond(w: World, ev: Event): (Peer, CM.Reply)
    requires ev.Loop?
  {
    match CM.Request(w.coord, ev.t)
    case None => (w.peer, CM.TimedOut)
    case Some(request) => Carry(w.peer, request, ev.outcome, ev.gaps)
  }

  function Step(w: World, ev: Event): World {
    match ev
    case CoordTunnel(e) =>
      w.(coord := CM.RunTunnel(w.coord, [e]), down := Offer(w.down, w.coord.ep.tx, [e]))
    case PeerTunnel(e) =>
      w.(peer := RunTunnel(w.peer, [e]), up := Offer(w.up, w.peer.ep.tx, [e]))
    case Loop(t, outcome, gaps) =>
      var (p, reply) := Respond(w, ev);
      var c := CM.Iterate(w.coord, t, reply);
      var (down, up) := FlowsAfter(w, ev, reply);
      World(c, p, down, up, TraceAfter(w, ev, reply), OutageAfter(w, ev, c))
  }

  function Run(events: seq<Event>): World {
    if events == [] then INITIAL else Step(Run(events[..|events| - 1]), events[|events| - 1])
  }

  // ---- History. ----

  predicate Exchanging(c: CM.Coord) {
    !c.link.disconnected && !c.link.resetRequired
  }

  function FlowsAfter(w: World, ev: Event, reply: CM.Reply): (Flow, Flow)
    requires ev.Loop?
  {
    if CM.Sleeps(w.coord, ev.t) then
      (w.down, w.up)
    else if !Exchanging(w.coord) then
      if CM.IsResetReply(reply) then (OnSessionStart(w.down), OnSessionStart(w.up)) else (w.down, w.up)
    else
      var (c1, request) := CM.ChooseTx(w.coord, ev.t.beforeBuild);
      var down1 := Offer(w.down, w.coord.ep.tx, ev.t.beforeBuild);
      var (down2, up2) :=
        if ev.outcome.Lost? || request.None? then (down1, w.up)
        else FlowsServed(down1, w.up, w.peer, request.value, ev.gaps);
      var c2 := CM.RunTunnel(c1, ev.t.whileWaiting);
      var down3 := Offer(down2, c1.ep.tx, ev.t.whileWaiting);
      if reply.Got? && Decode(reply.wire).Some? then
        var rx := Decode(reply.wire).value;
        (OnCommit(down3, c2.ep.tx, rx.ack), OnConsume(up2, c2.ep.rx, rx))
      else
        (down3, up2)
  }

  function FlowsServed(down: Flow, up: Flow, p: Peer, f: MacFrame, gaps: PeerGaps): (Flow, Flow) {
    var p1 := ApplyRequest(p, f).0;
    var p2 := RunTunnel(p1, gaps.beforeCheck);
    var up1 := Offer(OnCommit(up, p.ep.tx, f.ack), p1.ep.tx, gaps.beforeCheck);
    (OnConsume(down, p.ep.rx, f), Offer(up1, p2.ep.tx, gaps.beforeBuild))
  }

  function AnswerOf(reply: CM.Reply): Option<Answer> {
    if reply.Got? && Decode(reply.wire).Some? then
      var rx := Decode(reply.wire).value;
      Some(Answer(rx.kind, rx.pending != 0))
    else
      None
  }

  function TraceAfter(w: World, ev: Event, reply: CM.Reply): seq<Sent>
    requires ev.Loop?
  {
    match CM.Request(w.coord, ev.t)
    case None => w.trace
    case Some(f) => w.trace + [Sent(f.kind, w.down.session, !Exchanging(w.coord), AnswerOf(reply))]
  }

  /** The outage grows with every failed attempt and is empty while the link is up. */
  function OutageAfter(w: World, ev: Event, c: CM.Coord): seq<Attempt>
    requires ev.Loop?
  {
    if !c.link.disconnected then []
    else if CM.Sleeps(w.coord, ev.t) then w.outage
    else w.outage + [Attempt(ev.t.now, ev.t.later)]
  }

  /** The clock never runs backwards within an iteration. */
  predicate ClockOk(events: seq<Event>) {
    forall i :: 0 <= i < |events| && events[i].Loop? ==> events[i].t.now <= events[i].t.later
  }

  /** The clock never runs backwards in the whole run. No for-all result needs it; every constructed run has it. */
  predicate Steady(events: seq<Event>) {
    && ClockOk(events)
    && (forall i, j :: 0 <= i < j < |events| && events[i].Loop? && events[j].Loop? ==>
          events[i].t.later <= events[j].t.now)
  }

  /** Every iteration is over at time t. */
  predicate EndsBy(events: seq<Event>, t: nat) {
    forall i :: 0 <= i < |events| && events[i].Loop? ==> events[i].t.later <= t
  }

  /** A steady continuation that begins when `before` is over. */
  predicate Follows(before: seq<Event>, rest: seq<Event>) {
    && Steady(rest)
    && (forall i, j :: 0 <= i < |before| && 0 <= j < |rest| && before[i].Loop? && rest[j].Loop? ==>
          before[i].t.later <= rest[j].t.now)
  }

  // ---- The invariant. ----

  predicate Connected(w: World) {
    w.coord.mode != CM.ResetSync
  }

  /**
   Whose turn it is to send data. Idle: the peer has nothing in flight. Granting: the
   coordinator has nothing in flight and believes the peer has data.
   */
  ghost predicate Turns(c: CM.Coord, p: Peer) {
    if c.mode == CM.Idle
    then !c.peerHasPending && p.ep.tx.inflight.None?
    else c.peerHasPending && c.ep.tx.inflight.None?
  }

  predicate Granting(m: CM.Mode) {
    m == CM.IssueGrant || m == CM.ActiveRx
  }

  /** After this transmission, the coordinator's next frame of the same session is a GRANT. */
  predicate CallsForGrant(s: Sent) {
    if s.answer.Some? then s.answer.value.pending else s.kind == GRANT
  }

  ghost predicate TraceOk(trace: seq<Sent>, session: nat, mode: CM.Mode) {
    && (forall k :: 0 <= k < |trace| ==> trace[k].session <= session && (trace[k].linkDown <==> trace[k].kind == RESET))
    && (forall k :: 0 <= k < |trace| - 1 ==>
          && trace[k].session <= trace[k + 1].session
          && (trace[k + 1].kind != RESET ==>
                (trace[k + 1].kind == GRANT <==> trace[k].session == trace[k + 1].session && CallsForGrant(trace[k]))))
    && (mode != CM.ResetSync ==>
          (Granting(mode) <==>
             trace != [] && trace[|trace| - 1].session == session && CallsForGrant(trace[|trace| - 1])))
  }

  ghost predicate Inv(w: World) {
    && Kept(w.down, w.coord.ep.tx, w.peer.ep.rx)
    && Kept(w.up, w.peer.ep.tx, w.coord.ep.rx)
    && Tracked(w.down) && Tracked(w.up)
    && w.down.session == w.up.session
    && LinkOk(w.coord.link)
    && (w.coord.link.resetRequired <==> w.coord.mode == CM.ResetSync)
    && (Connected(w) ==> Duplex(w.down, w.up, w.coord.ep, w.peer.ep) && Turns(w.coord, w.peer))
    && TraceOk(w.trace, w.down.session, w.coord.mode)
    && (w.coord.link.disconnected ==> OutageOk(w.coord.link, w.outage))
    && (!w.coord.link.disconnected ==> w.outage == [])
  }
}
