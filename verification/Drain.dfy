/** Progress: how long a loss-free link needs to empty both queues, exactly. */
module Drain {
  import opened Bytes
  import opened MacFrames
  import opened Arq
  import opened Flows
  import opened LinkHealth
  import opened PeerModel
  import opened JointSystem
  import opened JointInvariant
  import opened RunHistory
  import opened Delivery
  import CM = CoordinatorModel

  /** Fragments a packet needs: its length over 27, rounded up. */
  function Fragments(p: Packet): nat {
    (|p| + MAX_PAYLOAD_SIZE - 1) / MAX_PAYLOAD_SIZE
  }

  /** Fragments a queue still needs. */
  function Remaining(queue: seq<Packet>): nat {
    if queue == [] then 0 else Fragments(queue[0]) + Remaining(queue[1..])
  }

  /** An iteration in which the tunnels are silent. */
  predicate Silent(ev: Event) {
    && ev.Loop?
    && ev.t.now <= ev.t.later
    && ev.t.beforeBuild == [] && ev.t.whileWaiting == []
    && ev.gaps == PeerGaps([], [])
  }

  /** An iteration in which nothing is lost and the tunnels are silent. */
  predicate Quiet(ev: Event) {
    Silent(ev) && ev.outcome.Both?
  }

  predicate Drained(w: World) {
    && w.coord.mode == CM.Idle
    && w.coord.ep.tx.queue == [] && w.coord.ep.tx.inflight.None?
    && w.peer.ep.tx.queue == [] && w.peer.ep.tx.inflight.None?
  }

  /** The exact number of quiet exchanges to a drained world. */
  function DrainTime(w: World): int {
    var a, b := Remaining(w.coord.ep.tx.queue), Remaining(w.peer.ep.tx.queue);
    if w.coord.mode == CM.Idle then
      if b == 0 then a else if a == 0 then b + 2 else a + b + 1
    else
      a + b + 1 - (if Ahead(w.up) then 1 else 0)
  }

  // ---- One commit takes exactly one fragment off the queue. ----

  lemma RemainingIsZero(fl: Flow, s: Sender)
    requires QueueOk(fl, s)
    ensures Remaining(s.queue) == 0 <==> s.queue == []
  {
    if s.queue != [] {
      assert s.queue[0] != [];
      assert Fragments(s.queue[0]) > 0;
    }
  }

  lemma CommitTakesOne(fl: Flow, s: Sender, r: Receiver, k: nat)
    requires InSession(fl, s, r)
    requires fl.acked <= k <= fl.accepted
    ensures Remaining(CommitAck(s, WireAck(k)).queue) == Remaining(s.queue) - (k - fl.acked)
    ensures HasData(s) <==> s.queue != []
    ensures Remaining(s.queue) == 0 <==> s.queue == []
  {
    SessionFacts(fl, s, r);
    CommitStaysSynced(fl, s, r, k);
    RemainingIsZero(fl, s);
    hide LogOk, SessionLogOk, AllValid, WireSeq, WireAck, Flatten, AdvanceTxSeq;
    if k > fl.acked {
      var front := s.queue[0];
      var rest := front[|Erased(s)|..];
      assert |Erased(s)| == Min(|front|, MAX_PAYLOAD_SIZE);
      if rest == [] {
        assert Fragments(front) == 1;
      } else {
        assert Fragments(front) == 1 + Fragments(rest);
        assert ([rest] + s.queue[1..])[1..] == s.queue[1..];
      }
    }
  }

  // ---- One quiet exchange. ----

  lemma NoTunnel(s: Sender)
    ensures TunnelRun(s, []) == s
  {}

  lemma ChosenQueue(c: CM.Coord)
    ensures CM.ChooseTx(c, []).0.ep.tx.queue == c.ep.tx.queue
  {}

  lemma ServedQueue(p: Peer, f: MacFrame)
    requires Serve(p, f, PeerGaps([], [])).1.Some?
    ensures Serve(p, f, PeerGaps([], [])).0.ep.tx.queue == CommitAck(p.ep.tx, f.ack).queue
  {}

  lemma AppliedQueue(c: CM.Coord, rx: MacFrame)
    ensures CM.ApplyResponse(c, rx).0.ep.tx == CommitAck(c.ep.tx, rx.ack)
    ensures c.ep.tx.inflight.None? ==> CommitAck(c.ep.tx, rx.ack) == c.ep.tx
  {}

  /** Without tunnel activity a flow is offered nothing. */
  lemma NothingOffered(fl: Flow, s: Sender)
    ensures Offer(fl, s, []) == fl
  {
    assert fl.offered + [] == fl.offered;
  }

  lemma OffersStay(fl: Flow, s: Sender, r: Receiver, ack: byte, f: MacFrame)
    ensures OnCommit(fl, s, ack).offered == OnConsume(fl, r, f).offered == fl.offered
  {}

  lemma ServedOffers(down: Flow, up: Flow, p: Peer, f: MacFrame)
    ensures var (down1, up1) := FlowsServed(down, up, p, f, PeerGaps([], []));
            down1.offered == down.offered && up1.offered == up.offered
  {
    hide Offer, OnCommit, OnConsume, ApplyRequest;
    var p1 := ApplyRequest(p, f).0;
    OffersStay(down, p.ep.tx, p.ep.rx, f.ack, f);
    OffersStay(up, p.ep.tx, p.ep.rx, f.ack, f);
    NothingOffered(OnCommit(up, p.ep.tx, f.ack), p1.ep.tx);
    NothingOffered(OnCommit(up, p.ep.tx, f.ack), RunTunnel(p1, []).ep.tx);
  }

  /** After the peer has applied a current ack, it has data exactly when its queue is not empty. */
  lemma DataIsQueued(fl: Flow, s: Sender, r: Receiver)
    requires InSession(fl, s, r)
    ensures var s1 := CommitAck(s, WireAck(fl.accepted));
            HasData(s1) <==> s1.queue != []
  {
    hide InSession, OnCommit, CommitAck, WireAck, Remaining;
    SessionFacts(fl, s, r);
    CommitStaysSynced(fl, s, r, fl.accepted);
    var fl1, s1 := OnCommit(fl, s, WireAck(fl.accepted)), CommitAck(s, WireAck(fl.accepted));
    SessionFacts(fl1, s1, r);
    CommitTakesOne(fl1, s1, r, fl1.acked);
  }

  /** What a quiet exchange does to the two queues, the mode and the upward flow. */
  lemma QuietStage(w: World, ev: Event)
    requires Duplex(w.down, w.up, w.coord.ep, w.peer.ep)
    requires Connected(w) && Turns(w.coord, w.peer) && Exchanging(w.coord) && Quiet(ev)
    ensures var (p, reply) := Respond(w, ev);
            var c := CM.PerformExchange(w.coord, reply, ev.t).0;
            var (down, up) := FlowsAfter(w, ev, reply);
            && down.offered == w.down.offered && up.offered == w.up.offered
            && up.acked == w.up.accepted
            && Remaining(c.ep.tx.queue) ==
               Remaining(w.coord.ep.tx.queue) - (if w.coord.mode == CM.Idle && w.coord.ep.tx.queue != [] then 1 else 0)
            && Remaining(p.ep.tx.queue) == Remaining(w.peer.ep.tx.queue) - (if Ahead(w.up) then 1 else 0)
            && c.ep.tx.inflight.None?
            && (Granting(w.coord.mode) ==> c.ep.tx.queue == w.coord.ep.tx.queue)
            && (if p.ep.tx.queue == [] then c.mode == CM.Idle && p.ep.tx.inflight.None?
                else Granting(c.mode) && (Ahead(up) <==> Granting(w.coord.mode)))
  {
    hide InSession, CM.ChooseTx, Serve, FlowsServed, Carry, OnCommit, OnConsume, CM.ApplyResponse, Encode, Decode,
         TunnelRun, AllQueued, Carries, WireAck, Remaining, CommitAck, Offer;
    var c, p := w.coord, w.peer;
    var (c1, request) := CM.ChooseTx(c, []);
    ChooseStage(w, []);
    ChosenQueue(c);
    var f := request.value;
    var down1 := Offer(w.down, c.ep.tx, []);
    SessionFacts(w.down, c.ep.tx, p.ep.rx);
    SessionFacts(w.up, p.ep.tx, c.ep.rx);
    ServeStage(down1, w.up, c1.ep, p, f, ev.gaps);
    ServedQueue(p, f);
    ServedOffers(down1, w.up, p, f);
    NothingOffered(w.down, c.ep.tx);
    NoTunnel(CommitAck(p.ep.tx, f.ack));
    DataIsQueued(w.up, p.ep.tx, c.ep.rx);
    CarryFacts(p, f, ev.outcome, ev.gaps);
    var p1 := Serve(p, f, ev.gaps).0;
    var (down2, up2) := FlowsServed(down1, w.up, p, f, ev.gaps);
    NoTunnel(c1.ep.tx);
    OfferStaysSynced(down2, c1.ep.tx, p1.ep.rx, []);
    var down3 := Offer(down2, c1.ep.tx, []);
    var rx := Serve(p, f, ev.gaps).1.value;
    NothingOffered(down2, c1.ep.tx);
    ApplyStage(down3, up2, c1, p1, rx);
    AppliedQueue(c1, rx);
    OffersStay(down3, c1.ep.tx, c1.ep.rx, rx.ack, rx);
    OffersStay(up2, c1.ep.tx, c1.ep.rx, rx.ack, rx);
    CommitTakesOne(w.down, c.ep.tx, p.ep.rx, w.down.acked);
    CommitTakesOne(w.up, p.ep.tx, c.ep.rx, w.up.accepted);
    CommitTakesOne(down3, c1.ep.tx, p1.ep.rx, down3.accepted);
    CommitTakesOne(up2, p1.ep.tx, c1.ep.rx, up2.acked);
  }

  lemma QuietExchange(w: World, ev: Event)
    requires Inv(w) && Connected(w) && Quiet(ev)
    ensures var v := Step(w, ev);
            && Inv(v) && Connected(v)
            && v.coord.link == HEALTHY
            && v.down.session == w.down.session
            && v.down.offered == w.down.offered && v.up.offered == w.up.offered
            && v.up.acked == w.up.accepted
            && Remaining(v.coord.ep.tx.queue) ==
               Remaining(w.coord.ep.tx.queue) - (if w.coord.mode == CM.Idle && w.coord.ep.tx.queue != [] then 1 else 0)
            && Remaining(v.peer.ep.tx.queue) == Remaining(w.peer.ep.tx.queue) - (if Ahead(w.up) then 1 else 0)
            && v.coord.ep.tx.inflight.None?
            && (Granting(w.coord.mode) ==> v.coord.ep.tx.queue == w.coord.ep.tx.queue)
            && (if v.peer.ep.tx.queue == [] then v.coord.mode == CM.Idle && v.peer.ep.tx.inflight.None?
                else Granting(v.coord.mode) && (Ahead(v.up) <==> Granting(w.coord.mode)))
  {
    hide InSession, Kept, Tracked, CM.PerformExchange, Respond, FlowsAfter, TraceOk, OutageOk, LinkOk, AnswerOf,
         Remaining, CM.ChooseTx, CM.HandleFailure;
    LinkFacts(w.coord.link);
    ExchangeStage(w, ev);
    QuietStage(w, ev);
    assert Inv(Step(w, ev)) by { StepKeepsInv(w, ev); }
  }

  /** A quiet exchange brings a connected world exactly one exchange closer to drained. */
  lemma QuietExchangeProgress(w: World, ev: Event)
    requires Inv(w) && Connected(w) && Quiet(ev)
    ensures var v := Step(w, ev);
            && Inv(v) && Connected(v)
            && 0 <= DrainTime(v) == (if DrainTime(w) == 0 then 0 else DrainTime(w) - 1)
  {
    hide Step, Remaining, Inv;
    QuietExchange(w, ev);
    DrainBounds(w);
    DrainBounds(Step(w, ev));
  }

  lemma DrainBounds(w: World)
    requires Inv(w) && Connected(w)
    ensures 0 <= DrainTime(w) <= Remaining(w.coord.ep.tx.queue) + Remaining(w.peer.ep.tx.queue) + 2
    ensures DrainTime(w) == 0 <==> Drained(w)
    ensures w.coord.ep.tx.queue == [] <==> Remaining(w.coord.ep.tx.queue) == 0
    ensures w.peer.ep.tx.queue == [] <==> Remaining(w.peer.ep.tx.queue) == 0
    ensures Ahead(w.up) ==> Remaining(w.peer.ep.tx.queue) > 0 && Granting(w.coord.mode)
  {
    hide Remaining, InSession, TraceOk, OutageOk, LinkOk, Kept, Tracked;
    SessionFacts(w.down, w.coord.ep.tx, w.peer.ep.rx);
    SessionFacts(w.up, w.peer.ep.tx, w.coord.ep.rx);
    CommitTakesOne(w.down, w.coord.ep.tx, w.peer.ep.rx, w.down.acked);
    CommitTakesOne(w.up, w.peer.ep.tx, w.coord.ep.rx, w.up.acked);
  }

  /**
   From every connected world of every run: DrainTime quiet exchanges, and no fewer, leave both
   queues empty with nothing in flight; that is at most two more than the fragments left.
   */
  lemma {:induction false} DrainsExactly(w: World, events: seq<Event>)
    requires Inv(w) && Connected(w)
    requires forall ev <- events :: Quiet(ev)
    ensures var v := RunFrom(w, events);
            && Inv(v) && Connected(v)
            && (Drained(v) <==> |events| >= DrainTime(w))
    ensures 0 <= DrainTime(w) <= Remaining(w.coord.ep.tx.queue) + Remaining(w.peer.ep.tx.queue) + 2
  {
    hide Step, Remaining, Inv;
    DrainCountsDown(w, events);
    DrainBounds(w);
    DrainBounds(RunFrom(w, events));
  }

  lemma {:induction false} DrainCountsDown(w: World, events: seq<Event>)
    requires Inv(w) && Connected(w)
    requires forall ev <- events :: Quiet(ev)
    ensures var v := RunFrom(w, events);
            && Inv(v) && Connected(v)
            && DrainTime(v) == (if |events| >= DrainTime(w) then 0 else DrainTime(w) - |events|)
  {
    hide Step, Remaining, Inv, DrainTime;
    if events == [] {
      assert DrainTime(w) >= 0 by { DrainBounds(w); }
    } else {
      var front := events[..|events| - 1];
      DrainCountsDown(w, front);
      QuietExchangeProgress(RunFrom(w, front), events[|events| - 1]);
    }
  }

  // ---- Losses cost exchanges, but no ground. ----

  /** What an exchange without an answer does to the two queues: the peer may commit what it knows to be accepted. */
  lemma LossStage(w: World, ev: Event)
    requires Duplex(w.down, w.up, w.coord.ep, w.peer.ep)
    requires Connected(w) && Turns(w.coord, w.peer) && Exchanging(w.coord) && Silent(ev) && !ev.outcome.Both?
    ensures var (p, reply) := Respond(w, ev);
            var c := CM.PerformExchange(w.coord, reply, ev.t).0;
            var up := FlowsAfter(w, ev, reply).1;
            && c.ep.tx.queue == w.coord.ep.tx.queue
            && (if ev.outcome.Lost? then
                  p == w.peer && up == w.up
                else
                  && !Ahead(up)
                  && Remaining(p.ep.tx.queue) == Remaining(w.peer.ep.tx.queue) - (if Ahead(w.up) then 1 else 0))
  {
    hide InSession, CM.ChooseTx, Serve, FlowsServed, Carry, OnCommit, OnConsume, Encode, Decode, TunnelRun, AllQueued,
         Carries, WireAck, Remaining, CommitAck, Offer;
    var c, p := w.coord, w.peer;
    var (c1, request) := CM.ChooseTx(c, []);
    ChooseStage(w, []);
    ChosenQueue(c);
    var f := request.value;
    var down1 := Offer(w.down, c.ep.tx, []);
    SessionFacts(w.up, p.ep.tx, c.ep.rx);
    ServeStage(down1, w.up, c1.ep, p, f, ev.gaps);
    ServedQueue(p, f);
    CarryFacts(p, f, ev.outcome, ev.gaps);
    NoTunnel(c1.ep.tx);
    CommitTakesOne(w.up, p.ep.tx, c.ep.rx, w.up.accepted);
  }

  lemma LossExchange(w: World, ev: Event)
    requires Inv(w) && Connected(w) && Silent(ev) && !ev.outcome.Both? && Connected(Step(w, ev))
    ensures var v := Step(w, ev);
            && Inv(v)
            && v.coord.mode == w.coord.mode && v.coord.ep.tx.queue == w.coord.ep.tx.queue
            && (if ev.outcome.Lost? then
                  v.peer == w.peer && v.up == w.up
                else
                  && !Ahead(v.up)
                  && Remaining(v.peer.ep.tx.queue) == Remaining(w.peer.ep.tx.queue) - (if Ahead(w.up) then 1 else 0))
  {
    hide InSession, Kept, Tracked, CM.PerformExchange, Respond, FlowsAfter, TraceOk, OutageOk, LinkOk, AnswerOf,
         Remaining, CM.ChooseTx, OnFailure, OverThreshold, Count;
    LinkFacts(w.coord.link);
    ExchangeStage(w, ev);
    LossStage(w, ev);
    assert Inv(Step(w, ev)) by { StepKeepsInv(w, ev); }
  }

  /** An exchange without an answer leaves the drain time as it was, whichever of the two frames was lost. */
  lemma LossKeepsDrainTime(w: World, ev: Event)
    requires Inv(w) && Connected(w) && Silent(ev) && !ev.outcome.Both? && Connected(Step(w, ev))
    ensures Inv(Step(w, ev)) && DrainTime(Step(w, ev)) == DrainTime(w)
  {
    hide Step, Remaining, Inv;
    LossExchange(w, ev);
    DrainBounds(w);
  }

  function Answered(events: seq<Event>): nat {
    if events == [] then
      0
    else
      var last := events[|events| - 1];
      Answered(events[..|events| - 1]) + if last.Loop? && last.outcome.Both? then 1 else 0
  }

  /**
   From every connected world of every run, with silent tunnels and any losses the link survives: both
   queues are empty with nothing in flight exactly when DrainTime exchanges have been answered. Losses
   neither help nor hurt.
   */
  lemma {:induction false} DrainsExactlyUnderLoss(w: World, events: seq<Event>)
    requires Inv(w) && Connected(w)
    requires forall ev <- events :: Silent(ev)
    requires Connected(RunFrom(w, events)) && RunFrom(w, events).down.session == w.down.session
    ensures var v := RunFrom(w, events);
            Inv(v) && (Drained(v) <==> Answered(events) >= DrainTime(w))
    ensures 0 <= DrainTime(w) <= Remaining(w.coord.ep.tx.queue) + Remaining(w.peer.ep.tx.queue) + 2
  {
    hide Step, Remaining, Inv, DrainTime, RunFrom;
    AnswersCountDown(w, events);
    DrainBounds(w);
    DrainBounds(RunFrom(w, events));
  }

  lemma {:induction false} AnswersCountDown(w: World, events: seq<Event>)
    requires Inv(w) && Connected(w)
    requires forall ev <- events :: Silent(ev)
    requires Connected(RunFrom(w, events)) && RunFrom(w, events).down.session == w.down.session
    ensures var v := RunFrom(w, events);
            && Inv(v)
            && DrainTime(v) == (if Answered(events) >= DrainTime(w) then 0 else DrainTime(w) - Answered(events))
  {
    hide Step, Remaining, Inv, DrainTime;
    if events == [] {
      assert DrainTime(w) >= 0 by { DrainBounds(w); }
    } else {
      var front, last := events[..|events| - 1], events[|events| - 1];
      assert last in events;
      SilentClock(front);
      StillConnected(w, front, last);
      AnswersCountDown(w, front);
      if last.outcome.Both? {
        QuietExchangeProgress(RunFrom(w, front), last);
      } else {
        LossKeepsDrainTime(RunFrom(w, front), last);
      }
    }
  }

  lemma SilentClock(events: seq<Event>)
    requires forall ev <- events :: Silent(ev)
    ensures ClockOk(events)
  {
    assert forall i :: 0 <= i < |events| ==> events[i] in events;
  }

  // ---- Whose data goes first. ----

  /**
   While the peer has data the coordinator only grants: with b fragments at the peer that it has not
   accepted yet, it stays granting for exactly b quiet exchanges and none of its own fragments leaves
   in that time, however much it has queued itself. The next frame it sends is a GRANT up to then, and
   DATA right after if it has any, whatever its tunnel thread does in between.
   */
  lemma {:induction false} CoordinatorWaitsForPeer(w: World, events: seq<Event>, gap: seq<TunnelEvent>)
    requires Inv(w) && Granting(w.coord.mode)
    requires forall ev <- events :: Quiet(ev)
    requires |events| <= Remaining(w.peer.ep.tx.queue) - (if Ahead(w.up) then 1 else 0) + 1
    ensures var v := RunFrom(w, events);
            var b := Remaining(w.peer.ep.tx.queue) - (if Ahead(w.up) then 1 else 0);
            && Inv(v) && Connected(v)
            && v.coord.ep.tx.queue == w.coord.ep.tx.queue
            && (Granting(v.coord.mode) <==> |events| <= b)
            && (0 < |events| <= b ==> Ahead(v.up))
            && (events != [] ==> Remaining(v.peer.ep.tx.queue) == b - |events| + 1)
            && NextKind(v.coord, gap) ==
               (if |events| <= b then GRANT else if w.coord.ep.tx.queue != [] then DATA else PENDING)
  {
    hide Step, Remaining, Inv, NextKind;
    DrainBounds(w);
    if events == [] {
      ChosenKind(w, gap);
    } else {
      var front, last := events[..|events| - 1], events[|events| - 1];
      assert last in events;
      CoordinatorWaitsForPeer(w, front, gap);
      QuietExchange(RunFrom(w, front), last);
      DrainBounds(RunFrom(w, events));
      ChosenKind(RunFrom(w, events), gap);
    }
  }

  /** The type of the frame the coordinator chooses next. */
  function NextKind(c: CM.Coord, gap: seq<TunnelEvent>): byte {
    var f := CM.ChooseTx(c, gap).1;
    if f.Some? then f.value.kind else INVALID
  }

  lemma ChosenKind(w: World, gap: seq<TunnelEvent>)
    requires Inv(w) && Connected(w)
    ensures NextKind(w.coord, gap) ==
            (if Granting(w.coord.mode) then GRANT else if w.coord.ep.tx.queue != [] then DATA else PENDING)
  {
    hide InSession, Kept, Tracked, TraceOk, OutageOk, LinkOk, CM.ChooseTx, Remaining, Offer, Current;
    ChooseStage(w, gap);
    SessionFacts(w.down, w.coord.ep.tx, w.peer.ep.rx);
    CommitTakesOne(w.down, w.coord.ep.tx, w.peer.ep.rx, w.down.acked);
  }

  /** The peer's queue when it decides on its answer: after the request's ack, before the answer is built. */
  function QueueAtCheck(w: World, ev: Event): seq<Packet>
    requires ev.Loop?
  {
    var f := CM.Request(w.coord, ev.t);
    if f.Some? then TunnelRun(CommitAck(w.peer.ep.tx, f.value.ack), ev.gaps.beforeCheck).queue else []
  }

  lemma PendingStage(w: World, ev: Event)
    requires Duplex(w.down, w.up, w.coord.ep, w.peer.ep)
    requires Connected(w) && Turns(w.coord, w.peer) && Exchanging(w.coord) && ev.Loop? && ev.outcome.Both?
    ensures var answer := AnswerOf(Respond(w, ev).1);
            answer.Some? && (answer.value.pending <==> QueueAtCheck(w, ev) != [])
  {
    hide InSession, CM.ChooseTx, Serve, FlowsServed, Carry, OnCommit, Encode, Decode, TunnelRun, AllQueued, Carries,
         WireAck, CommitAck, Offer;
    var c, p := w.coord, w.peer;
    var (c1, request) := CM.ChooseTx(c, ev.t.beforeBuild);
    ChooseStage(w, ev.t.beforeBuild);
    var f := request.value;
    ServeStage(Offer(w.down, c.ep.tx, ev.t.beforeBuild), w.up, c1.ep, p, f, ev.gaps);
    CarryFacts(p, f, ev.outcome, ev.gaps);
    DataIsQueued(w.up, p.ep.tx, c.ep.rx);
    DataStaysQueued(CommitAck(p.ep.tx, f.ack), ev.gaps.beforeCheck);
  }

  lemma DataStaysQueued(s: Sender, es: seq<TunnelEvent>)
    requires HasData(s) <==> s.queue != []
    ensures HasData(TunnelRun(s, es)) <==> TunnelRun(s, es).queue != []
  {
    hide TunnelRun, AllQueued;
    DataStays(s, es);
  }

  /**
   The schedule in terms of queues, in every run: after an answered exchange the coordinator's next frame is
   a GRANT exactly when the peer's queue was not empty at its check, whatever the coordinator has queued
   itself; otherwise it is DATA exactly when the coordinator has a packet.
   */
  lemma PeerQueueDecides(events: seq<Event>, ev: Event, gap: seq<TunnelEvent>)
    requires ClockOk(events) && Connected(Run(events))
    requires ev.Loop? && ev.outcome.Both? && ev.t.now <= ev.t.later
    ensures var w, v := Run(events), Run(events + [ev]);
            && |v.trace| == |w.trace| + 1 && v.trace[|w.trace|].answer.Some?
            && (v.trace[|w.trace|].answer.value.pending <==> QueueAtCheck(w, ev) != [])
            && NextKind(v.coord, gap) ==
               (if QueueAtCheck(w, ev) != [] then GRANT else if v.coord.ep.tx.queue != [] then DATA else PENDING)
  {
    hide Step, Run, Inv, NextKind, QueueAtCheck;
    RunKeepsInv(events);
    RunSnoc(events, ev);
    AnsweredStep(Run(events), ev);
    ChosenKind(Run(events + [ev]), gap);
  }

  lemma AnsweredStep(w: World, ev: Event)
    requires Inv(w) && Connected(w) && ev.Loop? && ev.outcome.Both? && ev.t.now <= ev.t.later
    ensures var v := Step(w, ev);
            && Inv(v) && Connected(v)
            && |v.trace| == |w.trace| + 1 && w.trace <= v.trace && v.trace[|w.trace|].answer.Some?
            && (v.trace[|w.trace|].kind == GRANT <==> Granting(w.coord.mode))
            && (v.trace[|w.trace|].answer.value.pending <==> QueueAtCheck(w, ev) != [])
            && (Granting(v.coord.mode) <==> QueueAtCheck(w, ev) != [])
  {
    hide InSession, Kept, Tracked, CM.PerformExchange, Respond, FlowsAfter, TraceOk, OutageOk, LinkOk, AnswerOf,
         CM.ChooseTx, CM.HandleFailure, Offer, Current, QueueAtCheck;
    LinkFacts(w.coord.link);
    ChooseStage(w, ev.t.beforeBuild);
    ExchangeStage(w, ev);
    PendingStage(w, ev);
    assert Inv(Step(w, ev)) by { StepKeepsInv(w, ev); }
  }
}
