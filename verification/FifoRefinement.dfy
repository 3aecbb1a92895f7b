/**
 The coordinator's and the peer's schedule is one of those the FIFO link allows: in session, every step of
 every joint run is a list of moves on FIFO channels, which are empty again when the step is over.
 */
module FifoRefinement {
  import opened Bytes
  import opened MacFrames
  import opened Arq
  import opened Flows
  import opened LinkHealth
  import opened PeerModel
  import opened JointSystem
  import opened JointInvariant
  import opened RunHistory
  import opened Delivery
  import opened FifoLink
  import CM = CoordinatorModel

  /** The two ends and the flows between them, with nothing on the air. */
  function NetOf(w: World): Net {
    Net(w.coord.ep, w.peer.ep, w.down, w.up, [], [])
  }

  ghost predicate Reaches(n: Net, m: Net) {
    exists moves :: NetRun(n, moves) == m
  }

  // ---- Lists of moves. ----

  lemma ReachesSelf(n: Net)
    ensures Reaches(n, n)
  {
    assert NetRun(n, []) == n;
  }

  lemma ReachesOne(n: Net, m: Move)
    ensures Reaches(n, MoveA(n, m)) && Reaches(n, Swap(MoveA(Swap(n), m)))
  {
    hide MoveA;
    assert NetRun(n, []) == n;
    assert [(true, m)][..0] == [] && [(false, m)][..0] == [];
    assert NetRun(n, [(true, m)]) == MoveA(n, m);
    assert NetRun(n, [(false, m)]) == Swap(MoveA(Swap(n), m));
  }

  lemma {:induction false} RunsCompose(n: Net, first: seq<(bool, Move)>, second: seq<(bool, Move)>)
    ensures NetRun(n, first + second) == NetRun(NetRun(n, first), second)
  {
    hide MoveA;
    if second == [] {
      assert first + second == first;
    } else {
      RunsCompose(n, first, second[..|second| - 1]);
      assert (first + second)[..|first + second| - 1] == first + second[..|second| - 1];
    }
  }

  lemma ReachesOn(n: Net, m: Net, k: Net)
    requires Reaches(n, m) && Reaches(m, k)
    ensures Reaches(n, k)
  {
    hide NetRun;
    var first :| NetRun(n, first) == m;
    var second :| NetRun(m, second) == k;
    RunsCompose(n, first, second);
  }

  /** Whatever end a can do, end b can. */
  lemma {:induction false} SwapRun(n: Net, moves: seq<(bool, Move)>) returns (swapped: seq<(bool, Move)>)
    ensures NetRun(Swap(n), swapped) == Swap(NetRun(n, moves))
  {
    hide MoveA;
    if moves == [] {
      swapped := [];
    } else {
      var m := moves[|moves| - 1];
      var front := SwapRun(n, moves[..|moves| - 1]);
      swapped := front + [(!m.0, m.1)];
      assert swapped[..|swapped| - 1] == front;
    }
  }

  lemma SwapReaches(n: Net, m: Net)
    requires Reaches(n, m)
    ensures Reaches(Swap(n), Swap(m))
  {
    hide NetRun;
    var moves :| NetRun(n, moves) == m;
    var swapped := SwapRun(n, moves);
  }

  // ---- The pieces of an exchange, at end a. ----

  function Tunnelled(n: Net, es: seq<TunnelEvent>): Net {
    n.(a := n.a.(tx := TunnelRun(n.a.tx, es)), ab := Offer(n.ab, n.a.tx, es))
  }

  lemma TunnelledStep(n: Net, es: seq<TunnelEvent>)
    requires es != []
    ensures Tunnelled(MoveA(n, Move.Tunnel(es[0])), es[1..]) == Tunnelled(n, es)
  {
    hide TunnelStep, Queued;
    var s, e := n.a.tx, es[0];
    assert [e][1..] == [];
    assert TunnelRun(s, [e]) == TunnelStep(s, e);
    assert AllQueued(s, [e]) == Queued(s, e) + [];
    assert n.ab.offered + Queued(s, e) + AllQueued(TunnelStep(s, e), es[1..])
        == n.ab.offered + (Queued(s, e) + AllQueued(TunnelStep(s, e), es[1..]));
  }

  lemma {:induction false} TunnelReaches(n: Net, es: seq<TunnelEvent>)
    ensures Reaches(n, Tunnelled(n, es))
    decreases |es|
  {
    hide Reaches, MoveA;
    if es == [] {
      ReachesSelf(n);
      assert n.ab.offered + [] == n.ab.offered;
    } else {
      var n1 := MoveA(n, Move.Tunnel(es[0]));
      ReachesOne(n, Move.Tunnel(es[0]));
      TunnelReaches(n1, es[1..]);
      TunnelledStep(n, es);
      ReachesOn(n, n1, Tunnelled(n, es));
    }
  }

  /** What an end sends with ack field and data of its own is a move. */
  lemma ControlReaches(n: Net, kind: byte, pending: byte, arg: byte)
    requires kind != DATA && kind != RESET
    ensures Reaches(n, Put(n, MacFrame(kind, 0, AckField(n.a.rx), pending, arg, [])))
  {
    hide Reaches, Put;
    ReachesOne(n, SendControl(kind, pending, arg));
  }

  lemma DataReaches(n: Net)
    requires BuildNextData(n.a.tx, AckField(n.a.rx)).1.Some?
    ensures var (tx, f) := BuildNextData(n.a.tx, AckField(n.a.rx));
            Reaches(n, Put(n.(a := n.a.(tx := tx)), f.value.(pending := 1)))
  {
    hide Reaches, Put, BuildNextData;
    ReachesOne(n, SendData(1));
  }

  lemma ChooseReaches(n: Net, c: CM.Coord, gap: seq<TunnelEvent>)
    requires n.a == c.ep && c.mode != CM.ResetSync && CM.ChooseTx(c, gap).1.Some?
    ensures var (c1, f) := CM.ChooseTx(c, gap);
            Reaches(n, Put(Tunnelled(n, gap).(a := c1.ep), f.value))
  {
    hide Reaches, Put, BuildNextData, TunnelRun, Offer;
    var (c1, f) := CM.ChooseTx(c, gap);
    var n1 := Tunnelled(n, gap);
    TunnelReaches(n, gap);
    if c.mode == CM.Idle && HasData(c.ep.tx) && !(c.peerHasPending && c.burst >= CM.FAIR_DATA_BURST_LIMIT) {
      DataReaches(n1);
    } else {
      ControlReaches(n1, f.value.kind, f.value.pending, f.value.arg);
    }
    ReachesOn(n, n1, Put(n1.(a := c1.ep), f.value));
  }

  lemma AnswerReaches(n: Net, p: Peer, gap: seq<TunnelEvent>)
    requires n.a == p.ep && ChooseResponse(p, gap).1.Some?
    ensures var (p1, f) := ChooseResponse(p, gap);
            Reaches(n, Put(Tunnelled(n, gap).(a := p1.ep), f.value))
  {
    hide Reaches, Put, BuildNextData, TunnelRun, Offer;
    var (p1, f) := ChooseResponse(p, gap);
    var n1 := Tunnelled(n, gap);
    TunnelReaches(n, gap);
    if p.granted && p.budget > 0 && HasData(p.ep.tx) {
      DataReaches(n1);
    } else {
      ControlReaches(n1, f.value.kind, f.value.pending, f.value.arg);
    }
    ReachesOn(n, n1, Put(n1.(a := p1.ep), f.value));
  }

  lemma ReceiveReaches(n: Net, f: MacFrame)
    requires |n.toA| == 1 && Decode(n.toA[0].wire) == Some(f)
    ensures Reaches(n, n.(a := Absorb(n.a, f).0, ab := OnCommit(n.ab, n.a.tx, f.ack), ba := OnConsume(n.ba, n.a.rx, f),
                          toA := []))
  {
    hide Reaches, Decode, Absorb, OnCommit, OnConsume;
    ReachesOne(n, Receive);
    assert n.toA[1..] == [];
  }

  lemma LossReaches(n: Net)
    requires |n.toA| == 1
    ensures Reaches(n, n.(toA := []))
  {
    hide Reaches;
    ReachesOne(n, Lose(0));
    assert n.toA[..0] + n.toA[1..] == [];
  }

  lemma PutOnAir(n: Net, f: MacFrame)
    requires n.toB == [] && Canonical(f)
    ensures var m := Put(n, f);
            m == n.(toB := m.toB) && |m.toB| == 1 && Decode(m.toB[0].wire) == Some(f)
  {
    hide Encode, Decode;
    CodecRoundTrip(f);
  }

  lemma AppliedIsAbsorbed(p: Peer, c: CM.Coord, f: MacFrame)
    ensures ApplyRequest(p, f).0.ep == Absorb(p.ep, f).0
    ensures CM.ApplyResponse(c, f).0.ep == Absorb(c.ep, f).0
  {
    hide CommitAck;
  }

  // ---- A whole exchange. ----

  /** The peer's turn, at end a: receive, tunnel activity around the check, answer. */
  lemma ServeReaches(n: Net, p: Peer, f: MacFrame, gaps: PeerGaps)
    requires n.a == p.ep && n.toB == [] && |n.toA| == 1 && Decode(n.toA[0].wire) == Some(f)
    requires Serve(p, f, gaps).1.Some?
    ensures var (p1, r) := Serve(p, f, gaps);
            var (down, up) := FlowsServed(n.ba, n.ab, p, f, gaps);
            Reaches(n, Put(Net(p1.ep, n.b, up, down, [], []), r.value))
  {
    hide Reaches, Decode, Absorb, OnCommit, OnConsume, Put, ApplyRequest, ChooseResponse, TunnelRun, Offer;
    AppliedIsAbsorbed(p, CM.NEW_COORD, f);
    var p1 := ApplyRequest(p, f).0;
    var n1 := n.(a := p1.ep, ab := OnCommit(n.ab, n.a.tx, f.ack), ba := OnConsume(n.ba, n.a.rx, f), toA := []);
    ReceiveReaches(n, f);
    var n2 := Tunnelled(n1, gaps.beforeCheck);
    TunnelReaches(n1, gaps.beforeCheck);
    ReachesOn(n, n1, n2);
    var p2 := RunTunnel(p1, gaps.beforeCheck);
    AnswerReaches(n2, p2, gaps.beforeBuild);
    ReachesOn(n, n2, Put(Tunnelled(n2, gaps.beforeBuild).(a := ChooseResponse(p2, gaps.beforeBuild).0.ep),
                         ChooseResponse(p2, gaps.beforeBuild).1.value));
  }

  /** An exchange of a session, up to the coordinator's failure counters. */
  lemma ExchangeReaches(w: World, ev: Event)
    requires Duplex(w.down, w.up, w.coord.ep, w.peer.ep)
    requires Connected(w) && Turns(w.coord, w.peer) && Exchanging(w.coord) && ev.Loop?
    ensures var (p, reply) := Respond(w, ev);
            var c := CM.PerformExchange(w.coord, reply, ev.t).0;
            var (down, up) := FlowsAfter(w, ev, reply);
            Reaches(NetOf(w), Net(c.ep, p.ep, down, up, [], []))
  {
    hide Reaches, InSession, CM.ChooseTx, Serve, FlowsServed, Carry, OnCommit, OnConsume, CM.ApplyResponse, Encode,
         Decode, TunnelRun, AllQueued, Carries, WireAck, Put, Absorb, Offer;
    var n := NetOf(w);
    var (c1, request) := CM.ChooseTx(w.coord, ev.t.beforeBuild);
    ChooseStage(w, ev.t.beforeBuild);
    var f := request.value;
    var down1 := Offer(w.down, w.coord.ep.tx, ev.t.beforeBuild);
    ServeStage(down1, w.up, c1.ep, w.peer, f, ev.gaps);
    CarryFacts(w.peer, f, ev.outcome, ev.gaps);
    ChooseReaches(n, w.coord, ev.t.beforeBuild);
    var n1 := Put(Net(c1.ep, w.peer.ep, down1, w.up, [], []), f);
    PutOnAir(Net(c1.ep, w.peer.ep, down1, w.up, [], []), f);
    assert Reaches(n, n1);
    if ev.outcome.Lost? {
      LossReaches(Swap(n1));
      SwapReaches(Swap(n1), Swap(n1).(toA := []));
      var n2 := n1.(toB := []);
      ReachesOn(n, n1, n2);
      TunnelReaches(n2, ev.t.whileWaiting);
      ReachesOn(n, n2, Tunnelled(n2, ev.t.whileWaiting));
    } else {
      ServeReaches(Swap(n1), w.peer, f, ev.gaps);
      var (p1, r) := Serve(w.peer, f, ev.gaps);
      var (down2, up2) := FlowsServed(down1, w.up, w.peer, f, ev.gaps);
      var quiet := Net(p1.ep, c1.ep, up2, down2, [], []);
      PutOnAir(quiet, r.value);
      SwapReaches(Swap(n1), Put(quiet, r.value));
      var n2 := Swap(Put(quiet, r.value));
      ReachesOn(n, n1, n2);
      TunnelReaches(n2, ev.t.whileWaiting);
      var n3 := Tunnelled(n2, ev.t.whileWaiting);
      ReachesOn(n, n2, n3);
      if ev.outcome.Both? {
        ReceiveReaches(n3, r.value);
        AppliedIsAbsorbed(w.peer, CM.RunTunnel(c1, ev.t.whileWaiting), r.value);
      } else {
        LossReaches(n3);
      }
      var (p, reply) := Respond(w, ev);
      var c := CM.PerformExchange(w.coord, reply, ev.t).0;
      var (down, up) := FlowsAfter(w, ev, reply);
      ReachesOn(n, n3, Net(c.ep, p.ep, down, up, [], []));
    }
  }

  /** Every step from a connected world, the exchange that drops the link included, is a list of moves. */
  lemma StepReaches(w: World, ev: Event)
    requires Inv(w) && Connected(w)
    ensures Reaches(NetOf(w), NetOf(Step(w, ev)))
  {
    hide Reaches, InSession, Kept, Tracked, CM.PerformExchange, Respond, FlowsAfter, TraceOk, OutageOk, LinkOk,
         CM.ChooseTx, CM.HandleFailure, TraceAfter, OutageAfter, TunnelRun, Offer;
    match ev
    case CoordTunnel(e) =>
      TunnelReaches(NetOf(w), [e]);
    case PeerTunnel(e) =>
      TunnelReaches(Swap(NetOf(w)), [e]);
      SwapReaches(Swap(NetOf(w)), Tunnelled(Swap(NetOf(w)), [e]));
    case Loop(t, outcome, gaps) =>
      LinkFacts(w.coord.link);
      ExchangeReaches(w, ev);
      var (c, result) := CM.PerformExchange(w.coord, Respond(w, ev).1, t);
      if result.Failed? {
        FailureFrame(c, result.failure, t.later);
      }
  }

  /** The start of every session is a fresh session of the FIFO link. */
  lemma HandshakeIsFresh(opening: seq<Event>)
    requires ClockOk(opening) && EndsWithHandshake(opening)
    ensures FreshSession(NetOf(Run(opening)))
  {
    hide Step, OnSessionStart, Kept, Tracked, Duplex, TraceOk, OutageOk, LinkOk;
    var front, last := opening[..|opening| - 1], opening[|opening| - 1];
    assert Run(opening) == Step(Run(front), last);
    RunKeepsInv(front);
    HandshakeOpensSession(Run(front), last);
    ResetKeeps(Run(front).down, Run(front).coord.ep, Run(front).peer.ep);
    ResetKeeps(Run(front).up, Run(front).peer.ep, Run(front).coord.ep);
  }

  /**
   Take any run up to the completion of a reset handshake and any continuation up to and including the
   exchange that drops that session's link: some list of moves of the FIFO link takes its fresh session to
   the same two ends and flows.
   */
  lemma {:induction false} SessionIsMoves(opening: seq<Event>, session: seq<Event>)
    requires ClockOk(opening) && ClockOk(session) && EndsWithHandshake(opening)
    requires session != [] ==>
               var u := Run(opening + session[..|session| - 1]);
               Connected(u) && u.down.session == Run(opening).down.session
    ensures FreshSession(NetOf(Run(opening)))
    ensures Reaches(NetOf(Run(opening)), NetOf(Run(opening + session)))
  {
    hide Step, Inv, Run, Reaches, FreshSession, EndsWithHandshake;
    HandshakeIsFresh(opening);
    var w := Run(opening);
    RunKeepsInv(opening);
    RunSplits(opening, session);
    if session != [] {
      RunSplits(opening, session[..|session| - 1]);
    }
    MovesFrom(w, session);
  }

  lemma {:induction false} MovesFrom(w: World, events: seq<Event>)
    requires Inv(w) && ClockOk(events)
    requires events != [] ==>
               var u := RunFrom(w, events[..|events| - 1]);
               Connected(u) && u.down.session == w.down.session
    ensures Reaches(NetOf(w), NetOf(RunFrom(w, events)))
  {
    hide Step, Inv, Reaches;
    if events == [] {
      ReachesSelf(NetOf(w));
    } else {
      var front, last := events[..|events| - 1], events[|events| - 1];
      RunFromFacts(w, front);
      if front != [] {
        StillConnected(w, front[..|front| - 1], front[|front| - 1]);
      }
      MovesFrom(w, front);
      StepReaches(RunFrom(w, front), last);
      ReachesOn(NetOf(w), NetOf(RunFrom(w, front)), NetOf(RunFrom(w, events)));
    }
  }
}
