/** Further results over every run: safety of the log, scheduling, memory, retries. */
module Guarantees {
  import opened Bytes
  import opened IpFilter
  import opened MacFrames
  import opened Arq
  import opened Flows
  import opened LinkHealth
  import opened PeerModel
  import opened JointSystem
  import opened JointInvariant
  import opened RunHistory
  import opened Delivery
  import opened Drain
  import CM = CoordinatorModel

  // ---- Nothing is lost between queue and acknowledgement. ----

  /**
   Committed bytes followed by queued bytes are the bytes ever queued. The bytes committed since the
   session started end the committed bytes, and the other end accepted exactly those in the same session,
   plus at most the one fragment it is ahead.
   */
  ghost predicate Conserved(fl: Flow, s: Sender) {
    && fl.committed + Flatten(s.queue) == Flatten(fl.offered)
    && IsTail(fl.sessionCommitted, fl.committed)
    && fl.sessionCommitted <= fl.sessionAccepted
    && |fl.sessionAccepted| <= |fl.sessionCommitted| + MAX_PAYLOAD_SIZE
    && (fl.accepted == fl.acked ==> fl.sessionAccepted == fl.sessionCommitted)
  }

  /** In every run, through resets and outages. */
  lemma Conservation(events: seq<Event>)
    requires ClockOk(events)
    ensures var w := Run(events);
            Conserved(w.down, w.coord.ep.tx) && Conserved(w.up, w.peer.ep.tx)
  {
    hide Run, Duplex, LogOk, SessionLogOk, TraceOk, OutageOk, LinkOk, AllValid, Flatten;
    RunKeepsInv(events);
  }

  // ---- Wrap-around: the wire numbers always mean what the counters say. ----

  /** Unbounded counters against 1..31 wire numbers. */
  ghost predicate WireNumbersAgree(fl: Flow, s: Sender, r: Receiver) {
    && fl.acked <= fl.accepted <= fl.acked + 1
    && s.nextSeq == WireSeq(fl.acked)
    && (s.inflight.Some? ==> s.inflight.value.seqNo == WireSeq(fl.acked))
    && r.last == (if fl.accepted == 0 then None else Some(WireSeq(fl.accepted - 1)))
  }

  lemma SessionNumbersAgree(fl: Flow, s: Sender, r: Receiver)
    requires InSession(fl, s, r)
    ensures WireNumbersAgree(fl, s, r)
  {
    hide LogOk, SessionLogOk, QueueAt, Flatten, WireSeq;
  }

  /** In a session no frame is ever refused: the only failures are the link's own. */
  ghost predicate Understood(w: World, ev: Event)
    requires ev.Loop?
  {
    var (p, reply) := Respond(w, ev);
    && (reply.Got? <==> ev.outcome.Both?)
    && CM.PerformExchange(w.coord, reply, ev.t).1 ==
       (if ev.outcome.Both? then CM.Success
        else CM.Failed(if ev.outcome.reported then TimeoutFailure else SendFailure))
  }

  lemma ExchangesAreUnderstood(events: seq<Event>, ev: Event)
    requires ClockOk(events) && ev.Loop? && Connected(Run(events))
    ensures var w := Run(events);
            && WireNumbersAgree(w.down, w.coord.ep.tx, w.peer.ep.rx)
            && WireNumbersAgree(w.up, w.peer.ep.tx, w.coord.ep.rx)
            && Understood(w, ev)
  {
    hide Run, InSession, Kept, Tracked, TraceOk, OutageOk, LinkOk, WireNumbersAgree, Respond, CM.PerformExchange,
         FlowsAfter;
    var w := Run(events);
    RunKeepsInv(events);
    LinkFacts(w.coord.link);
    ExchangeStage(w, ev);
    SessionNumbersAgree(w.down, w.coord.ep.tx, w.peer.ep.rx);
    SessionNumbersAgree(w.up, w.peer.ep.tx, w.coord.ep.rx);
  }

  // ---- At most once. ----

  /**
   Every write is a packet from some byte on, and a packet written again as a whole fits in
   one fragment and was written in an earlier session.
   */
  ghost predicate WholeAtMostOnce(fl: Flow, r: Receiver) {
    && |r.written| == |fl.log|
    && (forall k :: 0 <= k < |fl.log| ==>
          && fl.log[k].index < |fl.offered| && fl.log[k].from <= |fl.offered[fl.log[k].index]|
          && r.written[k] == fl.offered[fl.log[k].index][fl.log[k].from..])
    && (forall k, l :: 0 <= k < l < |fl.log| ==> fl.log[k].index <= fl.log[l].index)
    && (forall k, l :: 0 <= k < l < |fl.log| && fl.log[k].index == fl.log[l].index ==>
          && fl.log[k].session < fl.log[l].session
          && (fl.log[l].from == 0 ==> |fl.offered[fl.log[l].index]| <= MAX_PAYLOAD_SIZE))
  }

  lemma AtMostOnce(events: seq<Event>)
    requires ClockOk(events)
    ensures var w := Run(events);
            WholeAtMostOnce(w.down, w.peer.ep.rx) && WholeAtMostOnce(w.up, w.coord.ep.rx)
  {
    hide Run, Duplex, Tracked, TraceOk, OutageOk, LinkOk, AllValid, QueueOk, Settled;
    RunKeepsInv(events);
  }

  // ---- Retransmission. ----

  /** With no commit in between, the fragment in flight and hence every retransmission is the same. */
  predicate SameInFlight(s: Sender, acked: nat, t: Sender, ackedThen: nat) {
    s.inflight.Some? && t.inflight.Some? && acked == ackedThen ==>
      t.inflight == s.inflight && t.queue != [] && t.inflight.value.payload <= t.queue[0]
  }

  lemma StableRetransmission(w: World, events: seq<Event>)
    requires Inv(w) && ClockOk(events) && Connected(w) && Connected(RunFrom(w, events))
    requires RunFrom(w, events).down.session == w.down.session
    ensures SameInFlight(w.coord.ep.tx, w.down.acked, RunFrom(w, events).coord.ep.tx, RunFrom(w, events).down.acked)
    ensures SameInFlight(w.peer.ep.tx, w.up.acked, RunFrom(w, events).peer.ep.tx, RunFrom(w, events).up.acked)
  {
    hide RunFrom, InSession, Kept, Tracked, FlowLater, TraceOk, OutageOk, LinkOk;
    RunFromFacts(w, events);
    var v := RunFrom(w, events);
    SameFragment(w.down, w.coord.ep.tx, w.peer.ep.rx, v.down, v.coord.ep.tx, v.peer.ep.rx);
    SameFragment(w.up, w.peer.ep.tx, w.coord.ep.rx, v.up, v.peer.ep.tx, v.coord.ep.rx);
  }

  lemma SameFragment(fl: Flow, s: Sender, r: Receiver, g: Flow, t: Sender, q: Receiver)
    requires InSession(fl, s, r) && InSession(g, t, q) && FlowLater(fl, g) && fl.session == g.session
    ensures t.inflight.Some? ==> t.queue != [] && t.inflight.value.payload <= t.queue[0]
    ensures s.inflight.Some? && t.inflight.Some? && fl.acked == g.acked ==> s.inflight == t.inflight
  {
    hide LogOk, SessionLogOk, Flatten, WireSeq, ReceiverSynced, AllValid;
    if s.inflight.Some? && t.inflight.Some? && fl.acked == g.acked {
      assert fl.offered[fl.sent.index] == g.offered[g.sent.index];
    }
  }

  // ---- What the fragment in flight is, byte by byte. ----

  lemma StepKeepsFlight(w: World, ev: Event)
    requires FlightOk(w.coord.ep.tx) && FlightOk(w.peer.ep.tx)
    ensures var v := Step(w, ev);
            FlightOk(v.coord.ep.tx) && FlightOk(v.peer.ep.tx)
  {
    hide FlightOk, PeerTurn, CM.Iterate, FlowsAfter, TraceAfter, OutageAfter, TunnelRun, CM.Request, Encode, Offer;
    match ev
    case CoordTunnel(e) => TunnelKeepsFlight(w.coord.ep.tx, [e]);
    case PeerTunnel(e) => TunnelKeepsFlight(w.peer.ep.tx, [e]);
    case Loop(t, outcome, gaps) =>
      var (p, reply) := Respond(w, ev);
      CM.IterateKeepsFlight(w.coord, t, reply);
      var request := CM.Request(w.coord, t);
      if request.Some? && Encode(request.value).Some? {
        PeerTurnKeepsFlight(w.peer, Encode(request.value).value, gaps);
      }
  }

  /**
   In every run, at each end: the fragment in flight has the next number, the first 27 bytes left of the queue
   front, and as bytes-left the number of bytes left of it, or 255 if there are more.
   */
  lemma {:induction false} RunKeepsFlight(events: seq<Event>)
    ensures FlightOk(Run(events).coord.ep.tx) && FlightOk(Run(events).peer.ep.tx)
  {
    hide Step;
    if events != [] {
      RunKeepsFlight(events[..|events| - 1]);
      StepKeepsFlight(Run(events[..|events| - 1]), events[|events| - 1]);
    }
  }

  /** The fragment that starts at the first uncommitted byte of the packets ever queued, numbered within the session. */
  ghost predicate CutAtSent(fl: Flow, s: Sender) {
    s.inflight.Some? ==>
      && fl.sent.index < |fl.offered| && fl.sent.off < |fl.offered[fl.sent.index]|
      && var left := fl.offered[fl.sent.index][fl.sent.off..];
         s.inflight.value == Fragment(fl.acked % 31 + 1, BytesLeft(|left|), if |left| <= 27 then left else left[..27])
  }

  lemma InSessionIsCutAtSent(fl: Flow, s: Sender, r: Receiver)
    requires InSession(fl, s, r) && FlightOk(s)
    ensures CutAtSent(fl, s)
  {
    hide LogOk, SessionLogOk, Flatten, Settled, AllValid, ReceiverSynced;
  }

  /** In session, at each end, in terms of what was queued and how many fragments have been committed. */
  lemma FragmentInFlight(events: seq<Event>)
    requires ClockOk(events) && Connected(Run(events))
    ensures var w := Run(events);
            CutAtSent(w.down, w.coord.ep.tx) && CutAtSent(w.up, w.peer.ep.tx)
  {
    hide Run, InSession, Kept, Tracked, TraceOk, OutageOk, LinkOk, FlightOk, CutAtSent;
    var w := Run(events);
    RunKeepsInv(events);
    RunKeepsFlight(events);
    InSessionIsCutAtSent(w.down, w.coord.ep.tx, w.peer.ep.rx);
    InSessionIsCutAtSent(w.up, w.peer.ep.tx, w.coord.ep.rx);
  }

  // ---- Memory. ----

  lemma BoundedMemory(events: seq<Event>)
    requires ClockOk(events)
    ensures var w := Run(events);
            && |w.coord.ep.tx.queue| <= 1025 && |w.peer.ep.tx.queue| <= 1025
            && (forall i :: 0 <= i < |w.coord.ep.tx.queue| ==> w.coord.ep.tx.queue[i] != [])
            && (forall i :: 0 <= i < |w.peer.ep.tx.queue| ==> w.peer.ep.tx.queue[i] != [])
            && |w.coord.ep.rx.assembly| <= 3200 && |w.peer.ep.rx.assembly| <= 3200
  {
    hide Run, Tracked, Duplex, LogOk, TraceOk, OutageOk, LinkOk, Flatten, AllValid, Settled;
    RunKeepsInv(events);
  }

  // ---- Scheduling. ----

  /**
   Within a session, the frame after a transmission is a GRANT exactly when that transmission was
   answered with pending set, or was a GRANT that got no answer. Only RESET goes out while the link
   is down. So two DATA frames never follow each other when the first was answered with pending set.
   */
  lemma FairSchedule(events: seq<Event>, k: nat)
    requires ClockOk(events)
    requires k + 1 < |Run(events).trace|
    ensures var s, t := Run(events).trace[k], Run(events).trace[k + 1];
            && (s.linkDown <==> s.kind == RESET) && (t.linkDown <==> t.kind == RESET)
            && s.session <= t.session
            && (t.kind != RESET ==> (t.kind == GRANT <==> s.session == t.session && CallsForGrant(s)))
            && (s.kind == DATA && t.kind == DATA && s.session == t.session && s.answer.Some? ==>
                  !s.answer.value.pending)
  {
    hide Run, Kept, Tracked, Duplex, OutageOk, LinkOk;
    RunKeepsInv(events);
  }

  /**
   In Idle the coordinator knows of no pending data and the peer has nothing in flight; while granting
   it is the coordinator that has nothing in flight. The streaks and the backoff stay within bounds.
   */
  lemma OneSideSends(events: seq<Event>)
    requires ClockOk(events)
    ensures var w := Run(events);
            && (w.coord.link.resetRequired <==> w.coord.mode == CM.ResetSync)
            && (w.coord.link.disconnected ==> w.coord.mode == CM.ResetSync)
            && (w.coord.mode == CM.Idle ==> !w.coord.peerHasPending && w.peer.ep.tx.inflight.None?)
            && (Granting(w.coord.mode) ==> w.coord.peerHasPending && w.coord.ep.tx.inflight.None?)
            && w.coord.link.pollFailCount <= 9
            && (!w.coord.link.disconnected ==> w.coord.link.backoffUs == 100000 && w.coord.link.nextRetryUs == 0)
  {
    hide Run, Kept, Tracked, Duplex, OutageOk, TraceOk;
    RunKeepsInv(events);
  }

  /** Failed attempt n of an outage begins no earlier than the schedule allows, under any clock. */
  lemma RetrySchedule(events: seq<Event>, m: nat, n: nat)
    requires ClockOk(events)
    requires m <= n < |Run(events).outage|
    ensures var w := Run(events);
            && w.coord.link.disconnected
            && w.coord.link.backoffUs == StoredBackoff(|w.outage| - 1)
            && (n > 0 ==> w.outage[n].begin >= w.outage[n - 1].end + WaitBefore(n - 1))
            && (m < n ==> w.outage[n].begin >= w.outage[m].end + Elapsed(n) - Elapsed(m))
            && (n >= 6 ==> w.outage[n].begin >= w.outage[0].end + 1600000 + 1000000 * (n - 5))
  {
    hide Run, Kept, Tracked, Duplex, LinkOk, TraceOk, StoredBackoff, WaitBefore, Elapsed;
    RunKeepsInv(events);
    AttemptsAreBounded(Run(events).coord.link, Run(events).outage, n);
    if m < n {
      AttemptsAreSpaced(Run(events).coord.link, Run(events).outage, m, n);
    }
  }

  /** Whatever is transmitted during an outage is a RESET, and not before its time has come. */
  lemma AttemptsWait(events: seq<Event>, t: CM.Tick)
    requires ClockOk(events) && Run(events).coord.link.disconnected
    requires CM.Request(Run(events).coord, t).Some?
    ensures CM.Request(Run(events).coord, t).value.kind == RESET
    ensures var outage := Run(events).outage;
            outage != [] && t.now >= outage[|outage| - 1].end + WaitBefore(|outage| - 1)
  {
    hide Run, Kept, Tracked, Duplex, LinkOk, TraceOk, WaitBefore, CM.ChooseTx;
    RunKeepsInv(events);
  }

  // ---- The fairness counter. ----

  /**
   Read off the transmissions alone: how many DATA frames in a row were answered by something other than DATA,
   since the last exchange that was answered differently and the last RESET. Lost exchanges do not count.
   */
  function DataStreak(trace: seq<Sent>): nat {
    if trace == [] then
      0
    else
      var last := trace[|trace| - 1];
      if last.kind == 5 then 0
      else if last.answer.None? then DataStreak(trace[..|trace| - 1])
      else if last.kind == 3 && last.answer.value.kind != 3 then DataStreak(trace[..|trace| - 1]) + 1
      else 0
  }

  /** The counter as a stored byte. */
  predicate BurstOk(w: World) {
    w.coord.burst == if DataStreak(w.trace) < 255 then DataStreak(w.trace) else 255
  }

  lemma BurstStep(w: World, ev: Event)
    requires Inv(w) && FlightOk(w.coord.ep.tx) && BurstOk(w)
    ensures BurstOk(Step(w, ev))
  {
    hide Step, Kept, Tracked, Duplex, TraceOk, OutageOk, LinkOk, DataStreak, FlightOk;
    if !ev.Loop? {
      TunnelBurst(w, ev);
    } else if Connected(w) {
      ExchangeBurst(w, ev);
    } else {
      ResetBurst(w, ev);
    }
  }

  lemma TunnelBurst(w: World, ev: Event)
    requires !ev.Loop?
    ensures Step(w, ev).coord.burst == w.coord.burst && Step(w, ev).trace == w.trace
  {}

  lemma StreakGrows(trace: seq<Sent>, s: Sent)
    ensures DataStreak(trace + [s]) ==
            if s.kind == 5 then 0
            else if s.answer.None? then DataStreak(trace)
            else if s.kind == 3 && s.answer.value.kind != 3 then DataStreak(trace) + 1
            else 0
  {
    assert (trace + [s])[..|trace|] == trace;
  }

  lemma ExchangeBurst(w: World, ev: Event)
    requires Inv(w) && Connected(w) && ev.Loop? && FlightOk(w.coord.ep.tx) && BurstOk(w)
    ensures BurstOk(Step(w, ev))
  {
    hide InSession, Kept, Tracked, CM.PerformExchange, Respond, FlowsAfter, TraceOk, OutageOk, LinkOk, CM.ChooseTx,
         Offer, Current, OnFailure, DataStreak, FlightOk, Decode, OutageAfter;
    LinkFacts(w.coord.link);
    ChooseStage(w, ev.t.beforeBuild);
    ExchangeStage(w, ev);
    var (p, reply) := Respond(w, ev);
    CM.ReplyEffects(w.coord, reply, ev.t);
    if reply.Got? {
      ReadLayout(reply.wire);
    }
    StreakGrows(w.trace, Sent(CM.Request(w.coord, ev.t).value.kind, w.down.session, false, AnswerOf(reply)));
  }

  lemma ResetBurst(w: World, ev: Event)
    requires Inv(w) && !Connected(w) && ev.Loop? && BurstOk(w)
    ensures BurstOk(Step(w, ev))
  {
    hide Kept, Tracked, Duplex, TraceOk, OutageOk, LinkOk, CM.ChooseTx, CM.IsResetReply, OnFailure, FlowsAfter, Carry,
         DataStreak, AnswerOf, OutageAfter;
    StreakGrows(w.trace, Sent(RESET, w.down.session, true, AnswerOf(Respond(w, ev).1)));
  }

  /** In every run the fairness counter holds exactly that streak, up to 255. */
  lemma {:induction false} BurstCounts(events: seq<Event>)
    requires ClockOk(events)
    ensures BurstOk(Run(events))
  {
    hide Step, Inv;
    if events != [] {
      BurstCounts(events[..|events| - 1]);
      RunKeepsInv(events[..|events| - 1]);
      RunKeepsFlight(events[..|events| - 1]);
      BurstStep(Run(events[..|events| - 1]), events[|events| - 1]);
    }
  }

  // ---- Safety and progress together. ----

  /**
   A session followed by silent exchanges of which DrainTime are answered, whatever is lost between them,
   has delivered every unit, in both directions.
   */
  lemma EverythingArrives(opening: seq<Event>, session: seq<Event>, rest: seq<Event>)
    requires ClockOk(opening) && ClockOk(session) && EndsWithHandshake(opening)
    requires Connected(Run(opening + session)) && Connected(Run(opening + session + rest))
    requires Run(opening + session).down.session == Run(opening).down.session
    requires Run(opening + session + rest).down.session == Run(opening).down.session
    requires forall ev <- rest :: Silent(ev)
    requires Answered(rest) >= DrainTime(Run(opening + session))
    ensures Drained(Run(opening + session + rest))
    ensures AllArrived(Run(opening), Run(opening + session + rest))
  {
    hide Step, Run, RunFrom, Inv, SessionDelivered, AllArrived, DrainTime, EndsWithHandshake, ClockOk, Silent,
         Connected, Drained, Answered;
    var u, v := Run(opening + session), Run(opening + session + rest);
    ClocksAppend(opening, session);
    RunKeepsInv(opening + session);
    RunSplits(opening + session, rest);
    DrainsExactlyUnderLoss(u, rest);
    SilentClock(rest);
    ClocksAppend(session, rest);
    assert opening + session + rest == opening + (session + rest);
    SessionDelivery(opening, session + rest);
    DrainedDelivers(Run(opening), v);
  }

  lemma {:induction false} QuietIsAnswered(quiet: seq<Event>)
    requires forall ev <- quiet :: Quiet(ev)
    ensures Answered(quiet) == |quiet|
  {
    if quiet != [] {
      assert quiet[|quiet| - 1] in quiet;
      QuietIsAnswered(quiet[..|quiet| - 1]);
    }
  }

  lemma QuietEnd(w: World, quiet: seq<Event>)
    requires Inv(w) && Connected(w)
    requires forall ev <- quiet :: Quiet(ev)
    requires |quiet| >= DrainTime(w)
    ensures ClockOk(quiet)
    ensures var v := RunFrom(w, quiet);
            Connected(v) && Drained(v) && v.down.session == w.down.session
  {
    hide Inv, RunFrom, DrainTime;
    SilentClock(quiet);
    DrainsExactly(w, quiet);
    QuietKeepsSession(w, quiet);
  }

  lemma ClocksAppend(a: seq<Event>, b: seq<Event>)
    requires ClockOk(a) && ClockOk(b)
    ensures ClockOk(a + b)
  {}

  ghost predicate AllDelivered(fl0: Flow, s0: Sender, r0: Receiver, fl: Flow, r: Receiver) {
    && fl0.offered <= fl.offered
    && var units := s0.queue + fl.offered[|fl0.offered|..];
       r.written == r0.written + Passed(units, |units|)
  }

  ghost predicate AllArrived(w: World, v: World) {
    && AllDelivered(w.down, w.coord.ep.tx, w.peer.ep.rx, v.down, v.peer.ep.rx)
    && AllDelivered(w.up, w.peer.ep.tx, w.coord.ep.rx, v.up, v.coord.ep.rx)
  }

  lemma DrainedDelivers(w: World, v: World)
    requires SessionDelivered(w, v) && Drained(v)
    ensures AllArrived(w, v)
  {
    hide IsValidIpPacket, Passed;
  }

  lemma {:induction false} QuietKeepsSession(w: World, quiet: seq<Event>)
    requires Inv(w) && Connected(w)
    requires forall ev <- quiet :: Quiet(ev)
    ensures RunFrom(w, quiet).down.session == w.down.session
  {
    hide Step, Inv;
    if quiet != [] {
      var front := quiet[..|quiet| - 1];
      QuietKeepsSession(w, front);
      DrainsExactly(w, front);
      assert quiet[|quiet| - 1] in quiet;
      ExchangeKeepsSession(RunFrom(w, front), quiet[|quiet| - 1]);
    }
  }

  lemma ExchangeKeepsSession(w: World, ev: Event)
    requires Inv(w) && Connected(w) && ev.Loop?
    ensures Step(w, ev).down.session == w.down.session && Step(w, ev).up.session == w.up.session
  {
    hide InSession, Kept, Tracked, CM.PerformExchange, Respond, FlowsAfter, TraceOk, OutageOk, LinkOk, AnswerOf,
         CM.HandleFailure, CM.ChooseTx, CM.Iterate;
    LinkFacts(w.coord.link);
    ExchangeStage(w, ev);
  }
}
