/** What resets do to delivery: what is never written again, what has certainly been written, and recovery. */
module ResetEffects {
  import opened Bytes
  import opened IpFilter
  import opened MacFrames
  import opened Arq
  import opened Flows
  import opened LinkHealth
  import opened PeerModel
  import opened JointSystem
  import opened JointInvariant
  import opened RunHistory
  import opened Delivery
  import opened Drain
  import opened Guarantees
  import CM = CoordinatorModel

  const NO_GAPS := PeerGaps([], [])

  /** An iteration with silent tunnels. */
  function Iteration(now: nat, o: Outcome): Event {
    Loop(CM.Tick(now, now, [], []), o, NO_GAPS)
  }

  // ---- How one step touches the flows across sessions. ----

  /** A step stays in the session, or is the completed handshake that starts the next one. */
  lemma SessionSteps(w: World, ev: Event)
    requires Inv(w)
    ensures var v := Step(w, ev);
            || (v.down.session == w.down.session && v.up.session == w.up.session)
            || (v.down == OnSessionStart(w.down) && v.up == OnSessionStart(w.up))
  {
    hide Step, Kept, Tracked, Duplex, TraceOk, OutageOk, LinkOk, OnSessionStart;
    if !ev.Loop? {
      TunnelSessions(w, ev);
    } else if Connected(w) {
      ExchangeKeepsSession(w, ev);
    } else {
      IdleFlows(w, ev);
    }
  }

  lemma TunnelSessions(w: World, ev: Event)
    requires !ev.Loop?
    ensures Step(w, ev).down.session == w.down.session && Step(w, ev).up.session == w.up.session
  {}

  /** An iteration without an exchange leaves the flows alone or starts a session. */
  lemma IdleFlows(w: World, ev: Event)
    requires Inv(w) && !Connected(w) && ev.Loop?
    ensures var v := Step(w, ev);
            || (v.down == w.down && v.up == w.up)
            || (v.down == OnSessionStart(w.down) && v.up == OnSessionStart(w.up))
  {
    hide Kept, Tracked, Duplex, TraceOk, OutageOk, LinkOk, CM.ChooseTx, Respond, CM.Iterate, CM.IsResetReply,
         OnSessionStart, TraceAfter, OutageAfter;
  }

  lemma SessionStartFacts(fl: Flow)
    ensures var g := OnSessionStart(fl);
            && g.base == g.sent == fl.sent && g.logBase == |g.log| && g.log == fl.log && g.offered == fl.offered
            && g.session == fl.session + 1 && g.acked == g.accepted == 0 && g.starts == fl.starts + [fl.sent]
  {}

  // ---- A packet cut by a reset is not written whole again. ----

  /** Every write from number n on starts at or after `start`. */
  ghost predicate WritesFrom(fl: Flow, n: nat, start: Pos) {
    forall k :: n <= k < |fl.log| ==> PosLe(start, Pos(fl.log[k].index, fl.log[k].from))
  }

  lemma SessionWritesFrom(fl: Flow)
    requires Tracked(fl)
    ensures fl.logBase <= |fl.log| && WritesFrom(fl, fl.logBase, fl.base)
  {
    hide IsValidIpPacket, FragmentAt;
  }

  /** Since session start fl, no write of g starts before where fl's session started. */
  ghost predicate WritesSince(fl: Flow, g: Flow) {
    PosLe(fl.sent, g.base) && WritesFrom(g, |fl.log|, fl.sent)
  }

  predicate AtSessionStart(fl: Flow) {
    fl.base == fl.sent && fl.logBase == |fl.log|
  }

  /** From a session start on, in every continuation with any number of further resets, no write starts before it. */
  lemma {:induction false} WritesStartAtBase(w: World, events: seq<Event>)
    requires Inv(w) && ClockOk(events)
    requires AtSessionStart(w.down) && AtSessionStart(w.up)
    ensures var v := RunFrom(w, events);
            Inv(v) && Later(w, v) && WritesSince(w.down, v.down) && WritesSince(w.up, v.up)
  {
    hide Step, Inv, FlowLater, OnSessionStart;
    RunFromFacts(w, events);
    if events != [] {
      var front, last := events[..|events| - 1], events[|events| - 1];
      WritesStartAtBase(w, front);
      OneStepWrites(w, RunFrom(w, front), last);
    }
  }

  lemma OneStepWrites(w: World, v: World, ev: Event)
    requires Inv(v) && Inv(Step(v, ev)) && Later(w, v) && WritesSince(w.down, v.down) && WritesSince(w.up, v.up)
    ensures var u := Step(v, ev);
            WritesSince(w.down, u.down) && WritesSince(w.up, u.up)
  {
    hide Step, Kept, Tracked, Duplex, TraceOk, OutageOk, LinkOk, WritesSince, FlowLater;
    var u := Step(v, ev);
    StepIsLater(v, ev);
    SessionSteps(v, ev);
    FlowWrites(w.down, v.down, u.down);
    FlowWrites(w.up, v.up, u.up);
  }

  lemma FlowWrites(fl: Flow, g: Flow, h: Flow)
    requires FlowLater(fl, g) && WritesSince(fl, g) && Tracked(g)
    requires FlowLater(g, h) && Tracked(h)
    requires g.session == h.session || h == OnSessionStart(g)
    ensures WritesSince(fl, h)
  {
    hide Tracked;
    SessionWritesFrom(g);
    SessionWritesFrom(h);
  }

  /** Since session start fl, packet `index` has been written whole in g. */
  ghost predicate WholeSince(fl: Flow, g: Flow, index: nat) {
    exists k :: |fl.log| <= k < |g.log| && g.log[k].index == index && g.log[k].from == 0
  }

  /** A session that starts inside a packet: that packet is not written whole from then on, in any continuation. */
  lemma CutPacketNotWrittenAgain(opening: seq<Event>, rest: seq<Event>)
    requires ClockOk(opening) && ClockOk(rest) && EndsWithHandshake(opening)
    ensures var w, v := Run(opening), Run(opening + rest);
            && (w.down.sent.off > 0 ==> !WholeSince(w.down, v.down, w.down.sent.index))
            && (w.up.sent.off > 0 ==> !WholeSince(w.up, v.up, w.up.sent.index))
  {
    hide Step, Run, RunFrom, Inv;
    OpeningFacts(opening);
    RunSplits(opening, rest);
    WritesStartAtBase(Run(opening), rest);
  }

  lemma OpeningFacts(opening: seq<Event>)
    requires ClockOk(opening) && EndsWithHandshake(opening)
    ensures var w := Run(opening);
            && Inv(w) && Connected(w)
            && AtSessionStart(w.down) && AtSessionStart(w.up)
  {
    hide Step, Inv, OnSessionStart;
    var front, last := opening[..|opening| - 1], opening[|opening| - 1];
    assert Run(opening) == Step(Run(front), last);
    RunKeepsInv(front);
    RunKeepsInv(opening);
    HandshakeOpensSession(Run(front), last);
    SessionStartFacts(Run(front).down);
    SessionStartFacts(Run(front).up);
  }

  // ---- ... and that is the only reason. ----

  function QuietEvents(n: nat, t: nat): seq<Event> {
    seq(n, _ => Iteration(t, Both))
  }

  /** Drained in a session that started at a packet boundary: its first unit has been written whole. */
  lemma DrainedWroteFirst(fl0: Flow, fl: Flow, s: Sender, r: Receiver)
    requires AtSessionStart(fl0) && FlowLater(fl0, fl) && fl.session == fl0.session
    requires Kept(fl, s, r) && Tracked(fl) && s.queue == []
    requires fl0.sent.index < |fl0.offered| && fl0.sent.off == 0
    ensures WholeSince(fl0, fl, fl0.sent.index)
  {
    hide IsValidIpPacket, LogOk, Settled, Flatten, FragmentAt;
    assert fl.sent.index == |fl.offered| == fl.recv.index;
    var p := fl.offered[fl.base.index];
    assert p[0..] == p;
    assert FirstUnit(fl) == fl.base.index;
    assert fl.log[fl.logBase] == Delivery(fl.base.index, 0, fl.session);
  }

  /** From a session start, quiet exchanges drain both queues within the session. */
  lemma QuietDrain(opening: seq<Event>) returns (rest: seq<Event>)
    requires ClockOk(opening) && EndsWithHandshake(opening)
    ensures Follows(opening, rest)
    ensures var w, v := Run(opening), Run(opening + rest);
            && Inv(w) && Inv(v) && Later(w, v) && v.down.session == w.down.session
            && v.coord.ep.tx.queue == [] && v.peer.ep.tx.queue == []
            && AtSessionStart(w.down) && AtSessionStart(w.up)
  {
    hide Step, Run, RunFrom, Inv, FlowLater, DrainTime;
    OpeningFacts(opening);
    var w := Run(opening);
    DrainBounds(w);
    rest := QuietEvents(DrainTime(w), LastTime(opening));
    AtOneTime(opening, rest, LastTime(opening));
    QuietEnd(w, rest);
    RunFromFacts(w, rest);
    RunSplits(opening, rest);
  }

  /**
   At a session start with something left to send, in each direction: some continuation in which the clock
   goes on writes the front packet whole after the start exactly when the session starts at that packet's
   first byte.
   */
  lemma WholeAgainExactly(opening: seq<Event>)
    requires ClockOk(opening) && EndsWithHandshake(opening)
    ensures var w := Run(opening);
            && (w.down.sent.index < |w.down.offered| ==>
                  (w.down.sent.off == 0 <==>
                   exists rest :: Follows(opening, rest)
                     && WholeSince(w.down, Run(opening + rest).down, w.down.sent.index)))
            && (w.up.sent.index < |w.up.offered| ==>
                  (w.up.sent.off == 0 <==>
                   exists rest :: Follows(opening, rest)
                     && WholeSince(w.up, Run(opening + rest).up, w.up.sent.index)))
  {
    hide Run, WholeSince, EndsWithHandshake;
    var w := Run(opening);
    forall rest | ClockOk(rest)
      ensures w.down.sent.off > 0 ==> !WholeSince(w.down, Run(opening + rest).down, w.down.sent.index)
      ensures w.up.sent.off > 0 ==> !WholeSince(w.up, Run(opening + rest).up, w.up.sent.index)
    {
      CutPacketNotWrittenAgain(opening, rest);
    }
    var rest := QuietDrain(opening);
    BoundaryIsWritten(w, Run(opening + rest));
  }

  lemma BoundaryIsWritten(w: World, v: World)
    requires Inv(w) && Inv(v) && Later(w, v) && v.down.session == w.down.session
    requires v.coord.ep.tx.queue == [] && v.peer.ep.tx.queue == []
    requires AtSessionStart(w.down) && AtSessionStart(w.up)
    ensures w.down.sent.index < |w.down.offered| && w.down.sent.off == 0 ==>
              WholeSince(w.down, v.down, w.down.sent.index)
    ensures w.up.sent.index < |w.up.offered| && w.up.sent.off == 0 ==>
              WholeSince(w.up, v.up, w.up.sent.index)
  {
    hide Kept, Tracked, Duplex, TraceOk, OutageOk, LinkOk, FlowLater, WholeSince;
    if w.down.sent.index < |w.down.offered| && w.down.sent.off == 0 {
      DrainedWroteFirst(w.down, v.down, v.coord.ep.tx, v.peer.ep.rx);
    }
    if w.up.sent.index < |w.up.offered| && w.up.sent.off == 0 {
      DrainedWroteFirst(w.up, v.up, v.peer.ep.tx, v.coord.ep.rx);
    }
  }

  // ---- What has left the queue has been written, unless a reset cut it. ----

  ghost predicate WrittenWhole(fl: Flow, i: nat) {
    exists k :: 0 <= k < |fl.log| && fl.log[k].index == i && fl.log[k].from == 0
  }

  /** Packet i has been written whole, or some session started inside it. */
  ghost predicate Accounted(fl: Flow, i: nat) {
    || WrittenWhole(fl, i)
    || (exists k :: 0 <= k < |fl.starts| && fl.starts[k].index == i && fl.starts[k].off > 0)
  }

  /** Everything before the session's first packet is accounted for, and the session's start is on record. */
  ghost predicate PastOk(fl: Flow) {
    && (forall i :: 0 <= i < fl.base.index ==> Accounted(fl, i))
    && (fl.base.off > 0 ==> fl.base in fl.starts)
  }

  /** So is everything the session has completed. */
  lemma SessionAccounts(fl: Flow, i: nat)
    requires Tracked(fl) && AllValid(fl.offered) && PastOk(fl)
    requires i < fl.recv.index
    ensures Accounted(fl, i)
  {
    hide IsValidIpPacket, FragmentAt;
    if i >= fl.base.index {
      var p := fl.offered[i];
      assert p[0..] == p;
      if i >= FirstUnit(fl) {
        var k := fl.logBase + i - FirstUnit(fl);
        assert fl.log[k] == Delivery(i, UnitStart(fl, i), fl.session);
      }
    }
  }

  lemma PastGrows(fl: Flow, g: Flow)
    requires PastOk(fl) && FlowLater(fl, g) && g.session == fl.session
    ensures PastOk(g)
  {
    forall i | 0 <= i < g.base.index
      ensures Accounted(g, i)
    {
      assert Accounted(fl, i);
      if k :| 0 <= k < |fl.log| && fl.log[k].index == i && fl.log[k].from == 0 {
        assert g.log[k] == fl.log[k];
      }
    }
  }

  lemma PastAtSessionStart(fl: Flow)
    requires Tracked(fl) && AllValid(fl.offered) && PastOk(fl)
    ensures PastOk(OnSessionStart(fl))
  {
    hide Tracked, AllValid;
    var g := OnSessionStart(fl);
    SentBelowRecv(fl);
    forall i | 0 <= i < g.base.index
      ensures Accounted(g, i)
    {
      SessionAccounts(fl, i);
      AccountedStays(fl, g, i);
    }
    assert g.starts[|fl.starts|] == fl.sent;
  }

  lemma AccountedStays(fl: Flow, g: Flow, i: nat)
    requires Accounted(fl, i) && g.log == fl.log && fl.starts <= g.starts
    ensures Accounted(g, i)
  {}

  lemma SentBelowRecv(fl: Flow)
    requires Tracked(fl)
    ensures fl.sent.index <= fl.recv.index
  {
    hide SessionLogOk, FragmentAt;
  }

  lemma {:induction false} RunKeepsPast(events: seq<Event>)
    requires ClockOk(events)
    ensures PastOk(Run(events).down) && PastOk(Run(events).up)
  {
    hide Step, Inv, PastOk;
    if events == [] {
      NewFlowPast();
    } else {
      var front, last := events[..|events| - 1], events[|events| - 1];
      RunKeepsPast(front);
      RunKeepsInv(front);
      PastStep(Run(front), last);
    }
  }

  lemma NewFlowPast()
    ensures PastOk(NEW_FLOW)
  {}

  lemma PastStep(w: World, ev: Event)
    requires Inv(w) && PastOk(w.down) && PastOk(w.up)
    ensures PastOk(Step(w, ev).down) && PastOk(Step(w, ev).up)
  {
    hide Step, Tracked, Duplex, TraceOk, OutageOk, LinkOk, PastOk, QueueOk, LogOk, Settled, AllValid, FlowLater,
         OnSessionStart;
    var v := Step(w, ev);
    StepIsLater(w, ev);
    SessionSteps(w, ev);
    if v.down.session == w.down.session && v.up.session == w.up.session {
      PastGrows(w.down, v.down);
      PastGrows(w.up, v.up);
    } else {
      PastAtSessionStart(w.down);
      PastAtSessionStart(w.up);
    }
  }

  /**
   Over every run with any number of resets: a packet that has left the queue was written whole, unless a
   session started inside it.
   */
  lemma LeftQueueWasWritten(events: seq<Event>, i: nat)
    requires ClockOk(events)
    ensures i < Run(events).down.sent.index ==> Accounted(Run(events).down, i)
    ensures i < Run(events).up.sent.index ==> Accounted(Run(events).up, i)
  {
    hide Run, Duplex, TraceOk, OutageOk, LinkOk, PastOk, Accounted, Tracked, QueueOk, LogOk, Settled, AllValid;
    var w := Run(events);
    RunKeepsInv(events);
    RunKeepsPast(events);
    SentBelowRecv(w.down);
    SentBelowRecv(w.up);
    if i < w.down.sent.index { SessionAccounts(w.down, i); }
    if i < w.up.sent.index { SessionAccounts(w.up, i); }
  }

  // ---- Sessions start at fragment boundaries. ----

  ghost predicate StartsOk(fl: Flow) {
    && Aligned(fl.sent)
    && (forall k :: 0 <= k < |fl.starts| ==> PosOk(fl.offered, fl.starts[k]) && Aligned(fl.starts[k]))
  }

  lemma StartsGrow(fl: Flow, g: Flow)
    requires StartsOk(fl) && FlowLater(fl, g) && AllValid(g.offered)
    requires g.session == fl.session || g == OnSessionStart(fl)
    requires PosOk(g.offered, g.sent)
    ensures StartsOk(g)
  {
    hide IsValidIpPacket;
    forall i | 0 <= i < |g.offered|
      ensures g.offered[i] != []
    {
      ValidIsNonempty(g.offered[i]);
    }
  }

  lemma NewFlowStarts()
    ensures StartsOk(NEW_FLOW)
  {}

  lemma {:induction false} RunKeepsStarts(events: seq<Event>)
    requires ClockOk(events)
    ensures StartsOk(Run(events).down) && StartsOk(Run(events).up)
  {
    hide Step, Kept, Tracked, Duplex, TraceOk, OutageOk, LinkOk, StartsOk, FlowLater, OnSessionStart, AllValid, PosOk;
    if events == [] {
      NewFlowStarts();
    } else {
      var front, last := events[..|events| - 1], events[|events| - 1];
      RunKeepsStarts(front);
      RunKeepsInv(front);
      RunKeepsInv(events);
      var w, v := Run(front), Run(events);
      StepIsLater(w, last);
      SessionSteps(w, last);
      TrackedParts(v.down, v.coord.ep.tx, v.peer.ep.rx);
      TrackedParts(v.up, v.peer.ep.tx, v.coord.ep.rx);
      StartsGrow(w.down, v.down);
      StartsGrow(w.up, v.up);
    }
  }

  /** A packet of one fragment is never cut, so once it has left the queue it has been written whole. */
  lemma SmallIsWritten(events: seq<Event>, i: nat)
    requires ClockOk(events)
    ensures var fl := Run(events).down;
            i < fl.sent.index && i < |fl.offered| && |fl.offered[i]| <= MAX_PAYLOAD_SIZE ==> WrittenWhole(fl, i)
    ensures var fl := Run(events).up;
            i < fl.sent.index && i < |fl.offered| && |fl.offered[i]| <= MAX_PAYLOAD_SIZE ==> WrittenWhole(fl, i)
  {
    hide Run, ClockOk;
    RunKeepsStarts(events);
    LeftQueueWasWritten(events, i);
  }

  // ---- Recovery. ----

  lemma HandshakeSucceeds(w: World, now: nat)
    requires Inv(w) && !Connected(w) && (w.coord.link.disconnected ==> w.coord.link.nextRetryUs <= now)
    ensures var v := Step(w, Iteration(now, Both));
            && Inv(v)
            && v.coord == CM.Reconnect(CM.BeginReset(w.coord)) && v.peer == HandleReset(w.peer)
            && v.down == OnSessionStart(w.down) && v.up == OnSessionStart(w.up)
  {
    hide Kept, Tracked, Duplex, TraceOk, OutageOk, LinkOk, OnSessionStart, Carry, CM.IsResetReply, Encode, Decode,
         CM.ChooseTx;
    ResetOverLink(w.peer, Both, NO_GAPS);
    assert Inv(Step(w, Iteration(now, Both))) by { StepKeepsInv(w, Iteration(now, Both)); }
  }

  lemma SnocClock(events: seq<Event>, ev: Event)
    requires ClockOk(events) && ev.Loop? && ev.t.now <= ev.t.later
    ensures ClockOk(events + [ev])
  {}

  lemma HandshakeEnds(events: seq<Event>, now: nat)
    requires ClockOk(events) && !Connected(Run(events))
    requires Run(events).coord.link.disconnected ==> Run(events).coord.link.nextRetryUs <= now
    ensures ClockOk(events + [Iteration(now, Both)]) && EndsWithHandshake(events + [Iteration(now, Both)])
  {
    hide Step, Inv, Run;
    RunKeepsInv(events);
    HandshakeSucceeds(Run(events), now);
    RunSnoc(events, Iteration(now, Both));
    SnocClock(events, Iteration(now, Both));
    assert (events + [Iteration(now, Both)])[..|events|] == events;
  }

  lemma {:induction false} QuietOffersNothing(w: World, quiet: seq<Event>)
    requires Inv(w) && Connected(w)
    requires forall ev <- quiet :: Quiet(ev)
    ensures RunFrom(w, quiet).down.offered == w.down.offered && RunFrom(w, quiet).up.offered == w.up.offered
  {
    hide Step, Inv;
    if quiet != [] {
      var front := quiet[..|quiet| - 1];
      QuietOffersNothing(w, front);
      DrainsExactly(w, front);
      assert quiet[|quiet| - 1] in quiet;
      QuietExchange(RunFrom(w, front), quiet[|quiet| - 1]);
    }
  }

  /** Everything that was queued at w has been written at v, after what had been written before. */
  ghost predicate AllWritten(w: World, v: World) {
    && v.peer.ep.rx.written == w.peer.ep.rx.written + Passed(w.coord.ep.tx.queue, |w.coord.ep.tx.queue|)
    && v.coord.ep.rx.written == w.coord.ep.rx.written + Passed(w.peer.ep.tx.queue, |w.peer.ep.tx.queue|)
  }

  /**
   Recovery, from every world of every run in which the link is down: one loss-free iteration once the
   retry time has come, then DrainTime quiet exchanges, and everything left has been delivered.
   */
  lemma Recovery(events: seq<Event>, now: nat, quiet: seq<Event>)
    requires ClockOk(events) && !Connected(Run(events))
    requires Run(events).coord.link.disconnected ==> Run(events).coord.link.nextRetryUs <= now
    requires forall ev <- quiet :: Quiet(ev)
    requires |quiet| >= DrainTime(Run(events + [Iteration(now, Both)]))
    ensures var v := Run(events + [Iteration(now, Both)] + quiet);
            Drained(v) && AllWritten(Run(events), v)
  {
    hide Step, Run, RunFrom, Inv, DrainTime, EndsWithHandshake, ClockOk, AllArrived, Drained, AllWritten,
         Answered, Silent;
    var ev := Iteration(now, Both);
    var opening := events + [ev];
    HandshakeEnds(events, now);
    RunSnoc(events, ev);
    RunKeepsInv(events);
    OpeningFacts(opening);
    HandshakeOpensSession(Run(events), ev);
    assert opening + [] == opening;
    assert ClockOk([]) by { NoEventsClock(); }
    RunSplits(opening, quiet);
    QuietEnd(Run(opening), quiet);
    QuietIsAnswered(quiet);
    assert forall ev <- quiet :: Silent(ev);
    EverythingArrives(opening, [], quiet);
    QuietOffersNothing(Run(opening), quiet);
    NothingMoreOffered(Run(events), Run(opening), Run(opening + quiet));
  }

  lemma NoEventsClock()
    ensures ClockOk([])
  {}

  lemma NothingMoreOffered(u: World, w: World, v: World)
    requires AllArrived(w, v) && v.down.offered == w.down.offered && v.up.offered == w.up.offered
    requires w.coord.ep.tx.queue == u.coord.ep.tx.queue && w.peer.ep.tx.queue == u.peer.ep.tx.queue
    requires w.coord.ep.rx.written == u.coord.ep.rx.written && w.peer.ep.rx.written == u.peer.ep.rx.written
    ensures AllWritten(u, v)
  {
    hide Passed;
    assert w.coord.ep.tx.queue + [] == w.coord.ep.tx.queue;
    assert w.peer.ep.tx.queue + [] == w.peer.ep.tx.queue;
  }
}
