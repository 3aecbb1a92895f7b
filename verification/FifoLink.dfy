/**
 The ARQ inside one session over a much weaker link: each direction is a FIFO of 32-byte
 packets that may lose and duplicate any of them, so stale acknowledgements and stale
 fragments arrive late. Either end may send any frame but RESET at any time. FifoRefinement shows
 that the coordinator's and the peer's scheduling is one of the many this allows.
 */
module FifoLink {
  import opened Bytes
  import opened MacFrames
  import opened Arq
  import opened Flows
  import opened RunHistory
  import opened Delivery

  /** A packet on the air, with the history of its sending: its fragment number and the acceptances it acknowledges. */
  datatype Airborne = Airborne(wire: seq<byte>, fragment: nat, acks: nat)

  /** Two ends a and b in session, and what is on the air between them. */
  datatype Net = Net(a: Endpoint, b: Endpoint, ab: Flow, ba: Flow, toB: seq<Airborne>, toA: seq<Airborne>)

  /** What can happen at one end, or to the packets on their way to it. */
  datatype Move =
    | Tunnel(e: TunnelEvent)
    | SendData(pending: byte)
    | SendControl(kind: byte, pending: byte, arg: byte)
    | Receive
    | Lose(i: nat)
    | Duplicate(i: nat)

  function Swap(n: Net): Net {
    Net(n.b, n.a, n.ba, n.ab, n.toA, n.toB)
  }

  function Put(n: Net, f: MacFrame): Net {
    match Encode(f)
    case None => n
    case Some(wire) => n.(toB := n.toB + [Airborne(wire, n.ab.acked, n.ba.accepted)])
  }

  /** A move at end a. */
  function MoveA(n: Net, m: Move): Net {
    match m
    case Tunnel(e) =>
      n.(a := n.a.(tx := TunnelRun(n.a.tx, [e])), ab := Offer(n.ab, n.a.tx, [e]))
    case SendData(pending) =>
      var (tx, f) := BuildNextData(n.a.tx, AckField(n.a.rx));
      if f.None? then n else Put(n.(a := n.a.(tx := tx)), f.value.(pending := pending))
    case SendControl(kind, pending, arg) =>
      if kind == DATA || kind == RESET then n else Put(n, MacFrame(kind, 0, AckField(n.a.rx), pending, arg, []))
    case Receive =>
      if n.toA == [] then
        n
      else if Decode(n.toA[0].wire).None? then
        n.(toA := n.toA[1..])
      else
        var f := Decode(n.toA[0].wire).value;
        n.(a := Absorb(n.a, f).0, ab := OnCommit(n.ab, n.a.tx, f.ack), ba := OnConsume(n.ba, n.a.rx, f),
           toA := n.toA[1..])
    case Lose(i) => if i < |n.toA| then n.(toA := n.toA[..i] + n.toA[i + 1..]) else n
    case Duplicate(i) => if i < |n.toA| then n.(toA := n.toA[..i + 1] + n.toA[i..]) else n
  }

  /** Moves at either end: true for a, false for b. */
  function NetRun(n: Net, moves: seq<(bool, Move)>): Net {
    if moves == [] then
      n
    else
      var m := moves[|moves| - 1];
      var before := NetRun(n, moves[..|moves| - 1]);
      if m.0 then MoveA(before, m.1) else Swap(MoveA(Swap(before), m.1))
  }

  // ---- The invariant. ----

  /** A packet from x to y: its ack no older than what y knows, its data the last fragment accepted or the next. */
  ghost predicate AirborneOk(p: Airborne, xy: Flow, yx: Flow, x: Endpoint) {
    && Decode(p.wire).Some?
    && var f := Decode(p.wire).value;
       && f.ack == WireAck(p.acks) && yx.acked <= p.acks <= yx.accepted
       && (f.kind == DATA ==> Carries(xy, x.tx, f, p.fragment))
       && p.fragment <= xy.acked
  }

  /** Packets arrive in the order they were sent: fragment numbers and acknowledgements never go back. */
  ghost predicate ChannelOk(ch: seq<Airborne>, xy: Flow, yx: Flow, x: Endpoint) {
    && (forall i :: 0 <= i < |ch| ==> AirborneOk(ch[i], xy, yx, x))
    && (forall i, j :: 0 <= i < j < |ch| ==> ch[i].fragment <= ch[j].fragment && ch[i].acks <= ch[j].acks)
  }

  ghost predicate NetOk(n: Net) {
    && Duplex(n.ab, n.ba, n.a, n.b)
    && ChannelOk(n.toB, n.ab, n.ba, n.a)
    && ChannelOk(n.toA, n.ba, n.ab, n.b)
  }

  lemma SwapKeeps(n: Net)
    requires NetOk(n)
    ensures NetOk(Swap(n))
  {
    hide InSession, ChannelOk;
  }

  // ---- Preservation. ----

  /** A channel survives any change that moves the counters forward and keeps the fragment in flight. */
  lemma ChannelStays(ch: seq<Airborne>, xy: Flow, yx: Flow, x: Endpoint, xy1: Flow, yx1: Flow, x1: Endpoint)
    requires ChannelOk(ch, xy, yx, x)
    requires xy1.acked >= xy.acked && yx1.accepted >= yx.accepted
    requires forall i :: 0 <= i < |ch| ==> yx1.acked <= ch[i].acks
    requires forall i :: 0 <= i < |ch| && Decode(ch[i].wire).value.kind == DATA ==>
               && xy1.accepted <= ch[i].fragment + 1
               && (ch[i].fragment == xy1.accepted ==> xy1.accepted == xy.accepted && x1.tx.inflight == x.tx.inflight)
    ensures ChannelOk(ch, xy1, yx1, x1)
  {
    hide WireAck, WireSeq, Decode;
  }

  lemma PutKeeps(n: Net, f: MacFrame)
    requires NetOk(n)
    requires Canonical(f) && f.ack == AckField(n.a.rx)
    requires f.kind == DATA ==> Carries(n.ab, n.a.tx, f, n.ab.acked)
    ensures NetOk(Put(n, f))
  {
    hide InSession, WireAck, WireSeq, Encode, Decode;
    CodecRoundTrip(f);
    SessionFacts(n.ba, n.b.tx, n.a.rx);
    var p := Airborne(Encode(f).value, n.ab.acked, n.ba.accepted);
    assert AirborneOk(p, n.ab, n.ba, n.a);
    var ch := n.toB + [p];
    forall i | 0 <= i < |ch|
      ensures AirborneOk(ch[i], n.ab, n.ba, n.a)
    {
      assert i < |n.toB| ==> ch[i] == n.toB[i];
    }
  }

  lemma SendDataKeeps(n: Net, pending: byte)
    requires NetOk(n)
    ensures NetOk(MoveA(n, SendData(pending)))
  {
    hide InSession, WireAck, WireSeq, Encode, Decode, BuildNextData;
    var (tx, f) := BuildNextData(n.a.tx, AckField(n.a.rx));
    if !HasData(n.a.tx) {
      NoDataNoFrame(n.a.tx, AckField(n.a.rx));
    } else {
      BuildStaysSynced(n.ab, n.a.tx, n.b.rx, AckField(n.a.rx));
      SessionFacts(n.ab, n.a.tx, n.b.rx);
      var n1 := n.(a := n.a.(tx := tx));
      InFlightAtSent(n.ab, n.a.tx, n.b.rx);
      ChannelStays(n.toB, n.ab, n.ba, n.a, n.ab, n.ba, n1.a);
      ChannelStays(n.toA, n.ba, n.ab, n.b, n.ba, n.ab, n.b);
      PutKeeps(n1, f.value.(pending := pending));
    }
  }

  lemma NoDataNoFrame(s: Sender, ack: byte)
    requires !HasData(s)
    ensures BuildNextData(s, ack).1.None?
  {}

  lemma InFlightAtSent(fl: Flow, s: Sender, r: Receiver)
    requires InSession(fl, s, r)
    ensures s.inflight.Some? ==> fl.sent.index < |fl.offered| && s.inflight == Some(FragmentAt(fl))
    ensures PosOk(fl.offered, fl.sent)
  {
    hide LogOk, SessionLogOk, Flatten;
  }

  lemma ReceiveKeeps(n: Net)
    requires NetOk(n)
    ensures NetOk(MoveA(n, Receive))
    ensures n.toA != [] ==> Absorb(n.a, Decode(n.toA[0].wire).value).1
  {
    hide InSession, WireAck, WireSeq, Decode, Absorb, OnCommit, OnConsume;
    if n.toA != [] {
      var p := n.toA[0];
      var f := Decode(p.wire).value;
      var rest := n.toA[1..];
      assert AirborneOk(p, n.ba, n.ab, n.b);
      SessionFacts(n.ab, n.a.tx, n.b.rx);
      SessionFacts(n.ba, n.b.tx, n.a.rx);
      AbsorbStaysSynced(n.ba, n.ab, n.b, n.a, f, p.acks, p.fragment);
      var n1 := MoveA(n, Receive);
      assert ChannelOk(rest, n.ba, n.ab, n.b);
      assert forall i :: 0 <= i < |rest| ==> rest[i] == n.toA[i + 1];
      ChannelStays(rest, n.ba, n.ab, n.b, n1.ba, n1.ab, n1.b);
      ChannelStays(n.toB, n.ab, n.ba, n.a, n1.ab, n1.ba, n1.a);
    }
  }

  lemma LosingKeeps(ch: seq<Airborne>, i: nat, xy: Flow, yx: Flow, x: Endpoint)
    requires ChannelOk(ch, xy, yx, x) && i < |ch|
    ensures ChannelOk(ch[..i] + ch[i + 1..], xy, yx, x)
  {
    hide AirborneOk;
    var lost := ch[..i] + ch[i + 1..];
    assert forall j :: 0 <= j < |lost| ==> lost[j] == if j < i then ch[j] else ch[j + 1];
  }

  lemma DuplicatingKeeps(ch: seq<Airborne>, i: nat, xy: Flow, yx: Flow, x: Endpoint)
    requires ChannelOk(ch, xy, yx, x) && i < |ch|
    ensures ChannelOk(ch[..i + 1] + ch[i..], xy, yx, x)
  {
    hide AirborneOk;
    var more := ch[..i + 1] + ch[i..];
    assert forall j :: 0 <= j < |more| ==> more[j] == if j <= i then ch[j] else ch[j - 1];
  }

  lemma LinkMovesKeep(n: Net, m: Move)
    requires NetOk(n) && (m.Lose? || m.Duplicate?)
    ensures NetOk(MoveA(n, m))
  {
    hide InSession, ChannelOk;
    if m.i < |n.toA| {
      LosingKeeps(n.toA, m.i, n.ba, n.ab, n.b);
      DuplicatingKeeps(n.toA, m.i, n.ba, n.ab, n.b);
    }
  }

  lemma TunnelKeeps(n: Net, e: TunnelEvent)
    requires NetOk(n)
    ensures NetOk(MoveA(n, Tunnel(e)))
  {
    hide InSession, WireAck, WireSeq, Decode, TunnelRun, AllQueued;
    var n1 := MoveA(n, Tunnel(e));
    OfferStaysSynced(n.ab, n.a.tx, n.b.rx, [e]);
    ChannelStays(n.toB, n.ab, n.ba, n.a, n1.ab, n1.ba, n1.a);
    ChannelStays(n.toA, n.ba, n.ab, n.b, n1.ba, n1.ab, n1.b);
  }

  lemma MoveKeeps(n: Net, m: Move)
    requires NetOk(n)
    ensures NetOk(MoveA(n, m))
  {
    hide NetOk, MoveA;
    match m
    case Tunnel(e) => TunnelKeeps(n, e);
    case SendData(pending) => SendDataKeeps(n, pending);
    case SendControl(kind, pending, arg) => SendControlKeeps(n, m);
    case Receive => ReceiveKeeps(n);
    case Lose(i) => LinkMovesKeep(n, m);
    case Duplicate(i) => LinkMovesKeep(n, m);
  }

  lemma SendControlKeeps(n: Net, m: Move)
    requires NetOk(n) && m.SendControl?
    ensures NetOk(MoveA(n, m))
  {
    hide NetOk, Put;
    if m.kind != DATA && m.kind != RESET {
      PutKeeps(n, MacFrame(m.kind, 0, AckField(n.a.rx), m.pending, m.arg, []));
    }
  }

  // ---- Runs. ----

  predicate NetLater(n: Net, n1: Net) {
    FlowLater(n.ab, n1.ab) && FlowLater(n.ba, n1.ba) && n1.ab.session == n.ab.session && n1.ba.session == n.ba.session
  }

  lemma MoveIsLater(n: Net, m: Move)
    ensures NetLater(n, MoveA(n, m))
  {
    hide FlowLater, Offer, OnCommit, OnConsume, Absorb, Encode, Decode, BuildNextData, TunnelRun;
    FlowLaterRefl(n.ab);
    FlowLaterRefl(n.ba);
    match m
    case Tunnel(e) =>
      FlowOpsAreLater(n.ab, n.a.tx, n.a.rx, [e], 0, RESET_FRAME);
      SessionsStay(n.ab, n.a.tx, n.a.rx, [e], 0, RESET_FRAME);
    case Receive =>
      if n.toA != [] && Decode(n.toA[0].wire).Some? {
        var f := Decode(n.toA[0].wire).value;
        FlowOpsAreLater(n.ab, n.a.tx, n.a.rx, [], f.ack, f);
        FlowOpsAreLater(n.ba, n.a.tx, n.a.rx, [], f.ack, f);
        SessionsStay(n.ab, n.a.tx, n.a.rx, [], f.ack, f);
        SessionsStay(n.ba, n.a.tx, n.a.rx, [], f.ack, f);
      }
    case _ =>
  }

  lemma SessionsStay(fl: Flow, s: Sender, r: Receiver, es: seq<TunnelEvent>, ack: byte, f: MacFrame)
    ensures Offer(fl, s, es).session == OnCommit(fl, s, ack).session == OnConsume(fl, r, f).session == fl.session
  {}

  lemma {:induction false} NetRunKeeps(n: Net, moves: seq<(bool, Move)>)
    requires NetOk(n)
    ensures NetOk(NetRun(n, moves)) && NetLater(n, NetRun(n, moves))
  {
    hide NetOk, MoveA, FlowLater;
    if moves == [] {
      FlowLaterRefl(n.ab);
      FlowLaterRefl(n.ba);
    } else {
      var m := moves[|moves| - 1];
      var before := NetRun(n, moves[..|moves| - 1]);
      NetRunKeeps(n, moves[..|moves| - 1]);
      var after := NetRun(n, moves);
      SwapKeeps(before);
      var here := if m.0 then before else Swap(before);
      MoveKeeps(here, m.1);
      MoveIsLater(here, m.1);
      SwapKeeps(MoveA(here, m.1));
      FlowLaterChains(n.ab, before.ab, after.ab);
      FlowLaterChains(n.ba, before.ba, after.ba);
    }
  }

  /** Both ends at the start of a session, nothing on the air. */
  ghost predicate FreshSession(n: Net) {
    && SessionStart(n.a) && SessionStart(n.b) && n.toA == [] && n.toB == []
    && exists ab, ba :: n.ab == OnSessionStart(ab) && n.ba == OnSessionStart(ba)
         && Kept(ab, n.a.tx, n.b.rx) && Kept(ba, n.b.tx, n.a.rx)
  }

  /**
   Over such a link, for every schedule and every pattern of loss and duplication: both directions
   deliver in order as in SessionDelivery, and the next packet to arrive at either end is never refused.
   */
  lemma FifoDelivery(n: Net, moves: seq<(bool, Move)>)
    requires FreshSession(n)
    ensures var v := NetRun(n, moves);
            && FlowDelivered(n.ab, n.a.tx, n.b.rx, v.ab, v.a.tx, v.b.rx)
            && FlowDelivered(n.ba, n.b.tx, n.a.rx, v.ba, v.b.tx, v.a.rx)
            && (v.toA != [] ==> Decode(v.toA[0].wire).Some? && Absorb(v.a, Decode(v.toA[0].wire).value).1)
            && (v.toB != [] ==> Decode(v.toB[0].wire).Some? && Absorb(v.b, Decode(v.toB[0].wire).value).1)
  {
    hide InSession, Kept, Tracked, FlowLater, NetRun, FlowDelivered, Decode, Absorb, OnSessionStart;
    var v := NetRun(n, moves);
    FreshIsOk(n);
    NetRunKeeps(n, moves);
    SwapKeeps(v);
    ReceiveKeeps(v);
    ReceiveKeeps(Swap(v));
    InSessionIsTracked(v.ab, v.a.tx, v.b.rx);
    InSessionIsTracked(v.ba, v.b.tx, v.a.rx);
    FlowDelivers(n.ab, n.a.tx, n.b.rx, v.ab, v.a.tx, v.b.rx);
    FlowDelivers(n.ba, n.b.tx, n.a.rx, v.ba, v.b.tx, v.a.rx);
  }

  lemma FreshIsOk(n: Net)
    requires FreshSession(n)
    ensures NetOk(n)
    ensures Kept(n.ab, n.a.tx, n.b.rx) && n.ab.base == n.ab.sent && n.ab.logBase == |n.ab.log|
    ensures Kept(n.ba, n.b.tx, n.a.rx) && n.ba.base == n.ba.sent && n.ba.logBase == |n.ba.log|
  {
    hide Kept, Synced;
    var ab, ba :| n.ab == OnSessionStart(ab) && n.ba == OnSessionStart(ba)
      && Kept(ab, n.a.tx, n.b.rx) && Kept(ba, n.b.tx, n.a.rx);
    SessionStartIsSynced(ab, n.a, n.b);
    SessionStartIsSynced(ba, n.b, n.a);
  }
}
