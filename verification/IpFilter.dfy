/** The length filter applied to packets read from the tunnel and to reassembled packets. */
module IpFilter {
  import opened Bytes

  function U16(high: int, low: int): int {
    256 * high + low
  }

  /** Length rules of section 3.1 of RFC 791 (IHL, Total Length) and section 3 of RFC 8200 (Payload Length). */
  predicate IsValidIpPacket(packet: seq<byte>) {
    if packet == [] then
      false
    else
      var version := packet[0] / 16;
      if version == 4 then
        if |packet| < 20 then
          false
        else
          var ihl := (packet[0] % 16) * 4;
          if ihl < 20 || |packet| < ihl then
            false
          else
            var totalLen := U16(packet[2], packet[3]);
            if totalLen < ihl then false else |packet| == totalLen
      else if version == 6 then
        if |packet| < 40 then
          false
        else
          |packet| == 40 + U16(packet[4], packet[5])
      else
        false
  }

  /** An IPv4 packet: the length is written big-endian at bytes 2 and 3, and the header of 20 to 60 bytes fits. */
  predicate LooksV4(p: seq<byte>) {
    && 20 <= |p| < 65536
    && 0x45 <= p[0] <= 0x4F && 4 * (p[0] - 0x40) <= |p|
    && p[2] == |p| / 256 && p[3] == |p| % 256
  }

  /** An IPv6 packet: the length beyond the 40-byte header is written big-endian at bytes 4 and 5. */
  predicate LooksV6(p: seq<byte>) {
    && 40 <= |p| < 40 + 65536
    && 0x60 <= p[0] <= 0x6F
    && p[4] == (|p| - 40) / 256 && p[5] == (|p| - 40) % 256
  }

  /** Every byte string, from the length side: it is accepted exactly when its own length is written in its header. */
  lemma ValidExactly(p: seq<byte>)
    ensures IsValidIpPacket(p) <==> LooksV4(p) || LooksV6(p)
  {
    if |p| >= 20 {
      BigEndian(p[2], p[3], |p|);
    }
    if |p| >= 40 {
      BigEndian(p[4], p[5], |p| - 40);
    }
  }

  lemma BigEndian(high: byte, low: byte, n: nat)
    ensures U16(high, low) == n <==> n < 65536 && high == n / 256 && low == n % 256
  {}

  lemma ValidIsNonempty(p: seq<byte>)
    requires IsValidIpPacket(p)
    ensures |p| >= 20
  {}

  /** The first six bytes of a valid packet fix its length. */
  lemma SameHeaderSameLength(p: seq<byte>, q: seq<byte>)
    requires IsValidIpPacket(p) && IsValidIpPacket(q)
    requires p[..6] == q[..6]
    ensures |p| == |q|
  {
    forall i | 0 <= i < 6
      ensures p[i] == q[i]
    {
      assert p[i] == p[..6][i] && q[i] == q[..6][i];
    }
  }

  /** No valid packet is a proper prefix of another valid packet. */
  lemma PrefixFree(p: seq<byte>, q: seq<byte>)
    requires IsValidIpPacket(p) && IsValidIpPacket(q)
    requires p <= q
    ensures p == q
  {
    assert p[..6] == q[..6];
    SameHeaderSameLength(p, q);
  }
}
