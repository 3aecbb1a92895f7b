/** Shared vocabulary: bytes, packets and optional values. */
module Bytes {

  type byte = b: int | 0 <= b < 256

  /** An IP packet as read from, or written to, the TUN device. */
  type Packet = seq<byte>

  datatype Option<+T> = None | Some(value: T)

  function Min(a: int, b: int): int {
    if a <= b then a else b
  }

  function Max(a: int, b: int): int {
    if a <= b then b else a
  }

  /** The bytes of a list of packets, in order. */
  function Flatten(ps: seq<Packet>): seq<byte> {
    if ps == [] then [] else ps[0] + Flatten(ps[1..])
  }

  lemma {:induction false} FlattenAppend(ps: seq<Packet>, qs: seq<Packet>)
    ensures Flatten(ps + qs) == Flatten(ps) + Flatten(qs)
  {
    if ps == [] {
      assert ps + qs == qs;
    } else {
      calc {
        Flatten(ps + qs);
      == { assert (ps + qs)[0] == ps[0] && (ps + qs)[1..] == ps[1..] + qs; }
        ps[0] + Flatten(ps[1..] + qs);
      == { FlattenAppend(ps[1..], qs); }
        ps[0] + (Flatten(ps[1..]) + Flatten(qs));
      ==
        ps[0] + Flatten(ps[1..]) + Flatten(qs);
      }
    }
  }
}
