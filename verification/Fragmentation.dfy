/** Cutting a packet into 27-byte fragments, sending them, and putting them together again. */
module Fragmentation {
  import opened Bytes
  import opened IpFilter
  import opened MacFrames
  import opened Arq
  import opened Drain

  /** The 27-byte slices of a packet; the last one may be shorter. */
  function Slices(p: Packet): seq<seq<byte>>
    decreases |p|
  {
    if p == [] then [] else [p[..TransferSize(p)]] + Slices(p[TransferSize(p)..])
  }

  lemma {:induction false} SlicesJoin(p: Packet)
    ensures Flatten(Slices(p)) == p
    ensures |Slices(p)| == Fragments(p)
    ensures forall s <- Slices(p) :: s != []
    decreases |p|
  {
    if p != [] {
      var head, rest := p[..TransferSize(p)], p[TransferSize(p)..];
      SlicesJoin(rest);
      assert Slices(p)[1..] == Slices(rest);
      assert p == head + rest;
    }
  }

  // ---- The bytes-left field. ----

  /**
   The fragment cut from the front of any nonempty packet survives the codec although bytes-left is
   clamped at 255, and the receiver sees "last fragment" exactly when it takes all of the packet.
   */
  lemma FragmentOnTheWire(p: Packet, seqNo: byte, ack: byte, queued: nat)
    requires p != []
    ensures var g := NewFragment(p, seqNo);
            var f := DataFrame(g, ack, queued);
            && Encode(f).Some? && Decode(Encode(f).value) == Some(f)
            && f.arg == BytesLeft(|p|) && (f.arg <= 27 <==> g.payload == p)
            && 0 < |g.payload| && g.payload <= p
  {
    CodecRoundTrip(DataFrame(NewFragment(p, seqNo), ack, queued));
  }

  // ---- Round trip. ----

  /** One loss-free round: build, encode, decode, consume, acknowledge, commit. */
  function Round(s: Sender, r: Receiver): (Sender, Receiver) {
    var (s1, f) := BuildNextData(s, NO_SEQ);
    if f.None? || Encode(f.value).None? || Decode(Encode(f.value).value).None? then
      (s1, r)
    else
      var r1 := ConsumeData(r, Decode(Encode(f.value).value).value).0;
      (CommitAck(s1, AckField(r1)), r1)
  }

  function Rounds(s: Sender, r: Receiver, n: nat): (Sender, Receiver)
    decreases n
  {
    if n == 0 then (s, r) else var (s1, r1) := Rounds(s, r, n - 1); Round(s1, r1)
  }

  /** Sender and receiver agree on the next number, as at every packet boundary of a session. */
  predicate InStep(s: Sender, r: Receiver) {
    && s.inflight.None?
    && 1 <= s.nextSeq <= MAX_SEQ
    && (r.last.Some? ==> 1 <= r.last.value <= MAX_SEQ && s.nextSeq == NextSeq(r.last.value))
  }

  /** One round moves one slice of the front packet, and writes exactly when that was the last one. */
  lemma RoundMovesSlice(s: Sender, r: Receiver, rest: seq<Packet>)
    requires InStep(s, r) && s.queue != [] && s.queue[0] != [] && s.queue[1..] == rest
    ensures var (s1, r1) := Round(s, r);
            var front := s.queue[0];
            var slice := front[..TransferSize(front)];
            && InStep(s1, r1)
            && (if slice == front then
                  && s1.queue == rest && r1.assembly == []
                  && r1.written ==
                     r.written + (if IsValidIpPacket(r.assembly + slice) then [r.assembly + slice] else [])
                else
                  s1.queue == [front[|slice|..]] + rest && r1.assembly == r.assembly + slice && r1.written == r.written)
  {
    hide IsValidIpPacket, Encode, Decode;
    var front := s.queue[0];
    FragmentOnTheWire(front, s.nextSeq, NO_SEQ, |s.queue|);
  }

  /** m rounds in, with at least one more to go. */
  ghost predicate Underway(s: Sender, r: Receiver, p: Packet, m: nat, before: seq<Packet>) {
    && InStep(s, r)
    && MAX_PAYLOAD_SIZE * m < |p|
    && s.queue == [p[MAX_PAYLOAD_SIZE * m..]]
    && r.assembly == p[..MAX_PAYLOAD_SIZE * m] && r.written == before
  }

  ghost predicate Arrived(s: Sender, r: Receiver, p: Packet, before: seq<Packet>) {
    InStep(s, r) && s.queue == [] && r.assembly == [] && r.written == before + [p]
  }

  lemma FragmentsBound(p: Packet, m: nat)
    ensures MAX_PAYLOAD_SIZE * m < |p| <==> m < Fragments(p)
  {}

  lemma OneRoundOn(s: Sender, r: Receiver, p: Packet, m: nat, before: seq<Packet>)
    requires Underway(s, r, p, m, before) && IsValidIpPacket(p)
    ensures var (s1, r1) := Round(s, r);
            if MAX_PAYLOAD_SIZE * (m + 1) < |p| then Underway(s1, r1, p, m + 1, before) else Arrived(s1, r1, p, before)
  {
    hide IsValidIpPacket, Round, InStep;
    var front := p[MAX_PAYLOAD_SIZE * m..];
    var slice := front[..TransferSize(front)];
    RoundMovesSlice(s, r, []);
    assert r.assembly + slice == p[..MAX_PAYLOAD_SIZE * m + |slice|];
    if slice == front {
      assert r.assembly + slice == p;
    } else {
      assert front[|slice|..] == p[MAX_PAYLOAD_SIZE * (m + 1)..];
    }
  }

  /**
   Every packet the tunnel can deliver: after n rounds with n below its fragment count nothing has been
   written and its first 27n bytes are in the reassembly buffer; after all of them it is written, whole.
   */
  lemma {:induction false} PacketRoundTrip(s: Sender, r: Receiver, p: Packet, n: nat)
    requires InStep(s, r) && s.queue == [p] && r.assembly == []
    requires IsValidIpPacket(p) && n <= Fragments(p)
    ensures var (s1, r1) := Rounds(s, r, n);
            if n == Fragments(p) then Arrived(s1, r1, p, r.written) else Underway(s1, r1, p, n, r.written)
  {
    hide IsValidIpPacket, Round, InStep, Fragments, Arrived;
    FragmentsBound(p, n);
    if n == 0 {
      ValidIsNonempty(p);
      FragmentsBound(p, 0);
      assert p[0..] == p && p[..0] == [];
    } else {
      FragmentsBound(p, n - 1);
      PacketRoundTrip(s, r, p, n - 1);
      var (s1, r1) := Rounds(s, r, n - 1);
      OneRoundOn(s1, r1, p, n - 1, r.written);
    }
  }

  // ---- Damage to the fragment list is detected. ----

  lemma SameFirstSliceSameLength(p: Packet, q: Packet)
    requires IsValidIpPacket(p) && IsValidIpPacket(q)
    requires Slices(p)[0] <= q
    ensures |p| == |q|
  {
    ValidIsNonempty(p);
    var head := Slices(p)[0];
    assert head == p[..TransferSize(p)];
    assert p[..6] == head[..6] == q[..6];
    SameHeaderSameLength(p, q);
  }

  /** Any bytes that begin with a valid packet's first fragment but have another length are rejected. */
  lemma WrongLengthRejected(p: Packet, damaged: seq<byte>)
    requires IsValidIpPacket(p)
    requires Slices(p)[0] <= damaged && |damaged| != |p|
    ensures !IsValidIpPacket(damaged)
  {
    if IsValidIpPacket(damaged) {
      SameFirstSliceSameLength(p, damaged);
    }
  }

  /** Dropping any one fragment but the first, or receiving it twice, is always detected. */
  lemma DropOrRepeatRejected(p: Packet, k: nat)
    requires IsValidIpPacket(p) && 0 < k < |Slices(p)|
    ensures var s := Slices(p);
            && !IsValidIpPacket(Flatten(s[..k] + s[k + 1..]))
            && !IsValidIpPacket(Flatten(s[..k + 1] + s[k..]))
  {
    hide IsValidIpPacket;
    var s := Slices(p);
    SlicesJoin(p);
    assert s[k] in s;
    assert s == s[..k] + ([s[k]] + s[k + 1..]) && s[..k + 1] == s[..k] + [s[k]] && s[k..] == [s[k]] + s[k + 1..];
    FlattenAppend(s[..k], [s[k]] + s[k + 1..]);
    FlattenAppend([s[k]], s[k + 1..]);
    FlattenAppend(s[..k], s[k + 1..]);
    FlattenAppend(s[..k + 1], s[k..]);
    FlattenAppend(s[..k], [s[k]]);
    FlattenSingle(s[k]);
    FirstSliceStays(s[..k], s[k + 1..]);
    FirstSliceStays(s[..k + 1], s[k..]);
    WrongLengthRejected(p, Flatten(s[..k] + s[k + 1..]));
    WrongLengthRejected(p, Flatten(s[..k + 1] + s[k..]));
  }

  lemma FlattenSingle(x: seq<byte>)
    ensures Flatten([x]) == x
  {
    assert [x][1..] == [];
  }

  lemma FirstSliceStays(a: seq<seq<byte>>, b: seq<seq<byte>>)
    requires a != []
    ensures a[0] <= Flatten(a + b)
  {
    assert (a + b)[0] == a[0];
  }
}
