/** How the histories of a run grow, and runs that continue other runs. */
module RunHistory {
  import opened Bytes
  import opened MacFrames
  import opened Arq
  import opened Flows
  import opened PeerModel
  import opened JointSystem
  import opened JointInvariant
  import CM = CoordinatorModel

  /** At the start of a fragment of an uncut packet. */
  predicate Aligned(p: Pos) {
    p.off % MAX_PAYLOAD_SIZE == 0
  }

  /** `g` continues `fl`: nothing recorded is taken back, and `sent` moves only with `acked`, by whole fragments. */
  predicate FlowLater(fl: Flow, g: Flow) {
    && fl.offered <= g.offered
    && fl.log <= g.log
    && fl.committed <= g.committed
    && fl.session <= g.session
    && PosLe(fl.sent, g.sent)
    && (Aligned(fl.sent) ==> Aligned(g.sent))
    && (fl.session == g.session ==>
          && g.base == fl.base && g.logBase == fl.logBase && g.starts == fl.starts && fl.acked <= g.acked
          && (fl.acked == g.acked ==> g.sent == fl.sent))
  }

  predicate Later(w: World, v: World) {
    FlowLater(w.down, v.down) && FlowLater(w.up, v.up) && w.trace <= v.trace
  }

  lemma FlowOpsAreLater(fl: Flow, s: Sender, r: Receiver, es: seq<TunnelEvent>, ack: byte, f: MacFrame)
    ensures FlowLater(fl, Offer(fl, s, es))
    ensures FlowLater(fl, OnCommit(fl, s, ack))
    ensures FlowLater(fl, OnConsume(fl, r, f))
    ensures FlowLater(fl, OnSessionStart(fl))
  {
    hide AllQueued, Erased, ConsumeData, Commits, Advances;
  }

  lemma FlowLaterChains(f: Flow, g: Flow, h: Flow)
    requires FlowLater(f, g) && FlowLater(g, h)
    ensures FlowLater(f, h)
  {}

  lemma ServedIsLater(down: Flow, up: Flow, p: Peer, f: MacFrame, gaps: PeerGaps)
    ensures var (down1, up1) := FlowsServed(down, up, p, f, gaps);
            FlowLater(down, down1) && FlowLater(up, up1)
  {
    hide FlowLater, Offer, OnCommit, OnConsume, ApplyRequest;
    var p1 := ApplyRequest(p, f).0;
    var p2 := RunTunnel(p1, gaps.beforeCheck);
    var up1 := OnCommit(up, p.ep.tx, f.ack);
    var up2 := Offer(up1, p1.ep.tx, gaps.beforeCheck);
    FlowOpsAreLater(down, p.ep.tx, p.ep.rx, [], 0, f);
    FlowOpsAreLater(up, p.ep.tx, p.ep.rx, [], f.ack, f);
    FlowOpsAreLater(up1, p1.ep.tx, p.ep.rx, gaps.beforeCheck, 0, f);
    FlowOpsAreLater(up2, p2.ep.tx, p.ep.rx, gaps.beforeBuild, 0, f);
    FlowLaterChains(up, up1, up2);
    FlowLaterChains(up, up2, Offer(up2, p2.ep.tx, gaps.beforeBuild));
  }

  lemma FlowLaterRefl(fl: Flow)
    ensures FlowLater(fl, fl)
  {}

  lemma FlowsAfterAreLater(w: World, ev: Event, reply: CM.Reply)
    requires ev.Loop?
    ensures var (down, up) := FlowsAfter(w, ev, reply);
            FlowLater(w.down, down) && FlowLater(w.up, up)
  {
    hide FlowLater, Offer, OnCommit, OnConsume, OnSessionStart, FlowsServed, CM.ChooseTx, Decode, CM.IsResetReply;
    FlowLaterRefl(w.down);
    FlowLaterRefl(w.up);
    FlowOpsAreLater(w.down, w.coord.ep.tx, w.peer.ep.rx, ev.t.beforeBuild, 0, RESET_FRAME);
    FlowOpsAreLater(w.up, w.coord.ep.tx, w.peer.ep.rx, [], 0, RESET_FRAME);
    if !CM.Sleeps(w.coord, ev.t) && Exchanging(w.coord) {
      var (c1, request) := CM.ChooseTx(w.coord, ev.t.beforeBuild);
      var down1 := Offer(w.down, w.coord.ep.tx, ev.t.beforeBuild);
      var served := !ev.outcome.Lost? && request.Some?;
      if served { ServedIsLater(down1, w.up, w.peer, request.value, ev.gaps); }
      var (down2, up2) := if served then FlowsServed(down1, w.up, w.peer, request.value, ev.gaps) else (down1, w.up);
      FlowLaterRefl(down1);
      FlowLaterChains(w.down, down1, down2);
      var c2 := CM.RunTunnel(c1, ev.t.whileWaiting);
      var down3 := Offer(down2, c1.ep.tx, ev.t.whileWaiting);
      FlowOpsAreLater(down2, c1.ep.tx, c2.ep.rx, ev.t.whileWaiting, 0, RESET_FRAME);
      FlowLaterChains(w.down, down2, down3);
      if reply.Got? && Decode(reply.wire).Some? {
        var rx := Decode(reply.wire).value;
        FlowOpsAreLater(down3, c2.ep.tx, c2.ep.rx, [], rx.ack, rx);
        FlowOpsAreLater(up2, c2.ep.tx, c2.ep.rx, [], rx.ack, rx);
        FlowLaterChains(w.down, down3, OnCommit(down3, c2.ep.tx, rx.ack));
        FlowLaterChains(w.up, up2, OnConsume(up2, c2.ep.rx, rx));
      }
    }
  }

  lemma StepIsLater(w: World, ev: Event)
    ensures Later(w, Step(w, ev))
  {
    hide FlowLater, FlowsAfter, Offer, Respond, CM.Iterate, AnswerOf;
    FlowLaterRefl(w.down);
    FlowLaterRefl(w.up);
    match ev
    case CoordTunnel(e) => FlowOpsAreLater(w.down, w.coord.ep.tx, w.peer.ep.rx, [e], 0, RESET_FRAME);
    case PeerTunnel(e) => FlowOpsAreLater(w.up, w.peer.ep.tx, w.coord.ep.rx, [e], 0, RESET_FRAME);
    case Loop(t, outcome, gaps) => FlowsAfterAreLater(w, ev, Respond(w, ev).1);
  }

  // ---- Runs from a given world. ----

  function RunFrom(w: World, events: seq<Event>): World {
    if events == [] then w else Step(RunFrom(w, events[..|events| - 1]), events[|events| - 1])
  }

  lemma {:induction false} RunFromFacts(w: World, events: seq<Event>)
    requires Inv(w) && ClockOk(events)
    ensures Inv(RunFrom(w, events))
    ensures Later(w, RunFrom(w, events))
  {
    hide Inv, Step, FlowLater;
    if events == [] {
      FlowLaterRefl(w.down);
      FlowLaterRefl(w.up);
    } else {
      var front := events[..|events| - 1];
      RunFromFacts(w, front);
      var v := RunFrom(w, front);
      StepKeepsInv(v, events[|events| - 1]);
      StepIsLater(v, events[|events| - 1]);
      FlowLaterChains(w.down, v.down, RunFrom(w, events).down);
      FlowLaterChains(w.up, v.up, RunFrom(w, events).up);
    }
  }

  lemma {:induction false} RunSplits(before: seq<Event>, after: seq<Event>)
    ensures Run(before + after) == RunFrom(Run(before), after)
  {
    hide Step;
    if after == [] {
      assert before + after == before;
    } else {
      RunSplits(before, after[..|after| - 1]);
      assert (before + after)[..|before + after| - 1] == before + after[..|after| - 1];
    }
  }

  lemma RunSnoc(events: seq<Event>, ev: Event)
    ensures Run(events + [ev]) == Step(Run(events), ev)
  {
    hide Step;
    assert (events + [ev])[..|events + [ev]| - 1] == events;
  }

  // ---- Time. ----

  /** When everything so far is over. */
  function LastTime(events: seq<Event>): (t: nat)
    ensures EndsBy(events, t)
  {
    if events == [] then
      0
    else
      var t, last := LastTime(events[..|events| - 1]), events[|events| - 1];
      if last.Loop? then Max(t, last.t.later) else t
  }

  lemma FollowsIsSteady(before: seq<Event>, rest: seq<Event>)
    requires Steady(before) && Follows(before, rest)
    ensures Steady(before + rest)
  {
    var events := before + rest;
    forall i, j | 0 <= i < j < |events| && events[i].Loop? && events[j].Loop?
      ensures events[i].t.later <= events[j].t.now
    {
      if i >= |before| {
        assert events[i] == rest[i - |before|];
      }
      if j >= |before| {
        assert events[j] == rest[j - |before|];
      }
    }
  }

  /** A continuation in which all happens at time t. */
  lemma AtOneTime(before: seq<Event>, rest: seq<Event>, t: nat)
    requires EndsBy(before, t)
    requires forall i :: 0 <= i < |rest| && rest[i].Loop? ==> rest[i].t.now == rest[i].t.later == t
    ensures Follows(before, rest) && EndsBy(before + rest, t)
  {}
}
