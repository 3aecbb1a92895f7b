/** What the protocol delivers: the results about packets, over every run. */
module Delivery {
  import opened Bytes
  import opened IpFilter
  import opened MacFrames
  import opened Arq
  import opened Flows
  import opened LinkHealth
  import opened JointSystem
  import opened JointInvariant
  import opened RunHistory
  import CM = CoordinatorModel

  // ---- The reset handshake. ----

  /** The iteration that turns a disconnected world into a connected one leaves both ends at session start. */
  lemma HandshakeOpensSession(w: World, ev: Event)
    requires Inv(w) && !Connected(w) && Connected(Step(w, ev))
    ensures var v := Step(w, ev);
            && ev.Loop? && ev.outcome.Both?
            && SessionStart(v.coord.ep) && SessionStart(v.peer.ep)
            && v.coord.ep == ResetSession(w.coord.ep) && v.peer.ep == ResetSession(w.peer.ep)
            && !v.peer.granted && v.peer.budget == 0 && !v.coord.peerHasPending && v.coord.burst == 0
            && v.coord.ep.tx.queue == w.coord.ep.tx.queue && v.peer.ep.tx.queue == w.peer.ep.tx.queue
            && v.coord.ep.rx.written == w.coord.ep.rx.written && v.peer.ep.rx.written == w.peer.ep.rx.written
            && v.down == OnSessionStart(w.down) && v.up == OnSessionStart(w.up)
  {
    hide Kept, Tracked, InSession, TraceOk, OutageOk, LinkOk, OnSessionStart, Carry, CM.IsResetReply, Encode, Decode,
         OnFailure, CM.ChooseTx, TunnelRun, AllQueued, FlowsServed, OnCommit, OnConsume;
    if ev.Loop? && !CM.Sleeps(w.coord, ev.t) {
      ResetOverLink(w.peer, ev.outcome, ev.gaps);
    }
  }

  /** Within one session the link was up all along. */
  lemma StillConnected(w: World, front: seq<Event>, last: Event)
    requires Inv(w) && ClockOk(front)
    requires var v := Step(RunFrom(w, front), last);
             Connected(v) && v.down.session == w.down.session
    ensures Inv(RunFrom(w, front))
    ensures Connected(RunFrom(w, front)) && RunFrom(w, front).down.session == w.down.session
  {
    hide Step, Inv, OnSessionStart;
    var u := RunFrom(w, front);
    RunFromFacts(w, front);
    StepIsLater(u, last);
    if !Connected(u) {
      HandshakeOpensSession(u, last);
      SessionCounts(u.down);
    }
  }

  /** However often the handshake is retried and whatever is lost, neither queue changes until it succeeds. */
  lemma {:induction false} HandshakeKeepsQueues(w: World, events: seq<Event>)
    requires Inv(w) && ClockOk(events)
    requires forall ev <- events :: ev.Loop?
    requires forall i :: 0 <= i < |events| ==> !Connected(RunFrom(w, events[..i]))
    ensures var v := RunFrom(w, events);
            && v.coord.ep.tx.queue == w.coord.ep.tx.queue && v.peer.ep.tx.queue == w.peer.ep.tx.queue
            && v.coord.ep.rx.written == w.coord.ep.rx.written && v.peer.ep.rx.written == w.peer.ep.rx.written
            && (events != [] && Connected(v) ==> SessionStart(v.coord.ep) && SessionStart(v.peer.ep))
  {
    hide Inv, Step, SessionStart;
    if events != [] {
      var front, last := events[..|events| - 1], events[|events| - 1];
      assert forall i :: 0 <= i < |front| ==> front[..i] == events[..i];
      HandshakeKeepsQueues(w, front);
      RunFromFacts(w, front);
      AttemptKeepsQueues(RunFrom(w, front), last);
      if Connected(RunFrom(w, events)) {
        HandshakeOpensSession(RunFrom(w, front), last);
      }
    }
  }

  lemma AttemptKeepsQueues(w: World, ev: Event)
    requires Inv(w) && !Connected(w) && ev.Loop?
    ensures var v := Step(w, ev);
            && v.coord.ep.tx.queue == w.coord.ep.tx.queue && v.peer.ep.tx.queue == w.peer.ep.tx.queue
            && v.coord.ep.rx.written == w.coord.ep.rx.written && v.peer.ep.rx.written == w.peer.ep.rx.written
  {
    hide Kept, Tracked, InSession, TraceOk, OutageOk, LinkOk, FlowsAfter, Carry, CM.IsResetReply, Encode, Decode,
         OnFailure, CM.ChooseTx, TunnelRun;
    if !CM.Sleeps(w.coord, ev.t) {
      ResetOverLink(w.peer, ev.outcome, ev.gaps);
    }
  }

  // ---- End-to-end delivery and resynchronisation. ----

  /** The first k units, without the first one when the filter rejects it. */
  function Passed(units: seq<Packet>, k: nat): seq<Packet>
    requires k <= |units|
  {
    if k > 0 && !IsValidIpPacket(units[0]) then units[1..k] else units[..k]
  }

  /**
   `after` is what was written before the session plus the first k units the sender had to
   send; every unit that has left the sender's queue is among them, and at most one more.
   */
  ghost predicate DeliveredInOrder(units: seq<Packet>, before: seq<Packet>, after: seq<Packet>, left: nat) {
    exists k: nat :: k <= |units| && after == before + Passed(units, k) && k - 1 <= |units| - left <= k
  }

  lemma RecvBounds(fl: Flow, s: Sender, r: Receiver)
    requires Kept(fl, s, r) && Tracked(fl)
    ensures fl.base.index <= fl.recv.index <= |fl.offered|
    ensures fl.sent.index <= fl.recv.index <= fl.sent.index + 1
    ensures |s.queue| == |fl.offered| - fl.sent.index
    ensures fl.logBase <= |fl.log| == |r.written|
  {
    hide Ordered, Flatten, FragmentAt;
  }

  /** The writes of the session are the completed units that pass the filter. */
  lemma SessionWrites(fl: Flow, s: Sender, r: Receiver)
    requires Kept(fl, s, r) && Tracked(fl)
    ensures fl.base.index <= fl.recv.index <= |fl.offered|
    ensures fl.logBase <= |r.written|
    ensures r.written[fl.logBase..] == Passed(QueueAt(fl.offered, fl.base), fl.recv.index - fl.base.index)
  {
    hide IsValidIpPacket, Flatten, FragmentAt, Ordered, Settled;
    RecvBounds(fl, s, r);
    var units, k := QueueAt(fl.offered, fl.base), fl.recv.index - fl.base.index;
    var writes, passed := r.written[fl.logBase..], Passed(units, k);
    var skip := FirstUnit(fl) - fl.base.index;
    assert |writes| == |passed|;
    forall j | 0 <= j < |writes|
      ensures writes[j] == passed[j]
    {
      var d := fl.log[fl.logBase + j];
      assert d.index == fl.base.index + skip + j;
      assert writes[j] == fl.offered[d.index][d.from..];
      assert passed[j] == units[skip + j];
      assert fl.offered[d.index][0..] == fl.offered[d.index];
    }
  }

  /** What the sender had to send at the start of a session plus what was queued since. */
  lemma UnitsOfSession(fl0: Flow, s0: Sender, r0: Receiver, fl: Flow)
    requires Kept(fl0, s0, r0)
    requires fl0.offered <= fl.offered && AllValid(fl.offered)
    ensures PosOk(fl.offered, fl0.sent)
    ensures s0.queue + fl.offered[|fl0.offered|..] == QueueAt(fl.offered, fl0.sent)
  {
    hide IsValidIpPacket, Flatten, LogOk, Settled;
    var more := fl.offered[|fl0.offered|..];
    assert fl.offered == fl0.offered + more;
    NewIsNonempty(fl.offered, |fl0.offered|);
    QueueAtGrows(fl0.offered, fl0.sent, more);
  }

  lemma NewIsNonempty(offered: seq<Packet>, n: nat)
    requires AllValid(offered) && n <= |offered|
    ensures forall p <- offered[n..] :: p != []
  {
    hide IsValidIpPacket;
    forall i | n <= i < |offered|
      ensures offered[i] != []
    {
      ValidIsNonempty(offered[i]);
    }
  }

  lemma WritesAreKept(fl0: Flow, s0: Sender, r0: Receiver, fl: Flow, s: Sender, r: Receiver)
    requires Kept(fl0, s0, r0) && Kept(fl, s, r) && FlowLater(fl0, fl)
    ensures r0.written <= r.written && |r0.written| == |fl0.log|
  {
    hide AllValid, QueueOk, Settled, Ordered;
    assert forall k :: 0 <= k < |r0.written| ==> fl0.log[k] == fl.log[k];
  }

  lemma DeliveredWitness(units: seq<Packet>, before: seq<Packet>, after: seq<Packet>, left: nat, k: nat)
    requires k <= |units| && before <= after && after[|before|..] == Passed(units, k)
    requires k - 1 <= |units| - left <= k
    ensures DeliveredInOrder(units, before, after, left)
  {
    hide Passed;
    assert after == before + after[|before|..];
  }

  lemma TrackedParts(fl: Flow, s: Sender, r: Receiver)
    requires Kept(fl, s, r) && Tracked(fl)
    ensures AllValid(fl.offered) && PosOk(fl.offered, fl.base) && PosOk(fl.offered, fl.sent)
    ensures |QueueAt(fl.offered, fl.base)| == |fl.offered| - fl.base.index
  {
    hide AllValid, LogOk, Settled, SessionLogOk, QueueOk, FragmentAt;
  }

  /**
   One direction, from a session start to any later point of the session or of the outage that ends it.
   `units` is what the sender had to send: its queue at the start, then everything queued since. It is
   the offered packets from `sent` on, so every unit but the first is a whole packet, in queue order, and
   the first is whole exactly when the session starts at a packet boundary.
   */
  ghost predicate FlowDelivered(fl0: Flow, s0: Sender, r0: Receiver, fl: Flow, s: Sender, r: Receiver) {
    && fl0.offered <= fl.offered
    && AllValid(fl.offered)
    && PosOk(fl.offered, fl0.sent)
    && var units := s0.queue + fl.offered[|fl0.offered|..];
       && units == QueueAt(fl.offered, fl0.sent)
       && DeliveredInOrder(units, r0.written, r.written, |s.queue|)
  }

  lemma FlowDelivers(fl0: Flow, s0: Sender, r0: Receiver, fl: Flow, s: Sender, r: Receiver)
    requires Kept(fl0, s0, r0) && fl0.base == fl0.sent && fl0.logBase == |fl0.log|
    requires Kept(fl, s, r) && Tracked(fl) && FlowLater(fl0, fl) && fl.session == fl0.session
    ensures FlowDelivered(fl0, s0, r0, fl, s, r)
  {
    hide IsValidIpPacket, Kept, Tracked, Passed, DeliveredInOrder, QueueAt, PosOk, AllValid;
    TrackedParts(fl, s, r);
    WritesAreKept(fl0, s0, r0, fl, s, r);
    RecvBounds(fl, s, r);
    SessionWrites(fl, s, r);
    UnitsOfSession(fl0, s0, r0, fl);
    DeliveredWitness(s0.queue + fl.offered[|fl0.offered|..], r0.written, r.written, |s.queue|,
                     fl.recv.index - fl.base.index);
  }

  /** A unit that passes the filter unharmed: what `units == QueueAt(...)` means, unit by unit. */
  lemma UnitsAreWhole(fl0: Flow, s0: Sender, r0: Receiver, fl: Flow, s: Sender, r: Receiver, i: nat)
    requires FlowDelivered(fl0, s0, r0, fl, s, r)
    requires i < |s0.queue + fl.offered[|fl0.offered|..]|
    ensures var unit := (s0.queue + fl.offered[|fl0.offered|..])[i];
            && fl0.sent.index + i < |fl.offered|
            && unit == fl.offered[fl0.sent.index + i][if i == 0 then fl0.sent.off else 0..]
            && (i > 0 || fl0.sent.off == 0 ==> IsValidIpPacket(unit))
  {
    hide IsValidIpPacket, DeliveredInOrder;
    var p := fl.offered[fl0.sent.index + i];
    assert p[0..] == p;
  }

  /** The event list ends with the iteration that completed a reset handshake. */
  ghost predicate EndsWithHandshake(events: seq<Event>) {
    events != [] && !Connected(Run(events[..|events| - 1])) && Connected(Run(events))
  }

  ghost predicate SessionDelivered(w: World, v: World) {
    && FlowDelivered(w.down, w.coord.ep.tx, w.peer.ep.rx, v.down, v.coord.ep.tx, v.peer.ep.rx)
    && FlowDelivered(w.up, w.peer.ep.tx, w.coord.ep.rx, v.up, v.peer.ep.tx, v.coord.ep.rx)
  }

  /**
   Take any run up to the completion of a reset handshake, and any continuation up to the next one:
   any losses, any interleaving of tunnel reads, the exchange that drops the link and the whole outage
   after it included. In each direction the packets written since then are the units the sender had to
   send, in order, with no gap and no repetition. Only the first unit can be less than a whole packet,
   and only it can be dropped by the filter.
   */
  lemma SessionDelivery(opening: seq<Event>, session: seq<Event>)
    requires ClockOk(opening) && ClockOk(session) && EndsWithHandshake(opening)
    requires Run(opening + session).down.session == Run(opening).down.session
    ensures SessionDelivered(Run(opening), Run(opening + session))
  {
    hide Step, RunFrom, FlowDelivered;
    var w, v := Run(opening), Run(opening + session);
    var front, last := opening[..|opening| - 1], opening[|opening| - 1];
    assert w == Step(Run(front), last);
    RunKeepsInv(front);
    HandshakeOpensSession(Run(front), last);
    RunKeepsInv(opening);
    RunSplits(opening, session);
    RunFromFacts(w, session);
    hide Run;
    SameSessionDelivers(Run(front), w, v);
  }

  lemma SameSessionDelivers(u: World, w: World, v: World)
    requires Inv(w) && Inv(v) && Later(w, v)
    requires w.down == OnSessionStart(u.down) && w.up == OnSessionStart(u.up)
    requires v.down.session == w.down.session
    ensures SessionDelivered(w, v)
  {
    hide IsValidIpPacket, Kept, Tracked, InSession, TraceOk, DeliveredInOrder, LinkOk, OutageOk, FlowLater;
    FlowDelivers(w.down, w.coord.ep.tx, w.peer.ep.rx, v.down, v.coord.ep.tx, v.peer.ep.rx);
    FlowDelivers(w.up, w.peer.ep.tx, w.coord.ep.rx, v.up, v.peer.ep.tx, v.coord.ep.rx);
  }
}
