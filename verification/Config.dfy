/** Raft ids: the last eight bytes of a peer id, read as a big-endian number. */
module Config {
  import opened Types

  function Pow256(n: nat): (p: nat)
    ensures 0 < p
  {
    if n == 0 then 1 else 256 * Pow256(n - 1)
  }

  function BigEndian(bytes: seq<byte>): (n: nat)
    ensures n < Pow256(|bytes|)
  {
    if bytes == [] then 0 else 256 * BigEndian(bytes[..|bytes| - 1]) + bytes[|bytes| - 1]
  }

  lemma Pow256Eight()
    ensures Pow256(8) == 0x1_0000_0000_0000_0000
  {
    assert Pow256(4) == 0x1_0000_0000;
  }

  function RaftId(peer: PeerId): u64 {
    Pow256Eight();
    BigEndian(peer[|peer| - 8..]) as u64
  }

  // Reading one more byte in front adds it at the weight of the bytes behind it.
  lemma {:induction false} BigEndianFront(b: byte, bytes: seq<byte>)
    ensures BigEndian([b] + bytes) == b * Pow256(|bytes|) + BigEndian(bytes)
  {
    if bytes == [] {
      assert ([b] + bytes)[..0] == [];
    } else {
      var n := |bytes|;
      BigEndianFront(b, bytes[..n - 1]);
      assert ([b] + bytes)[..n] == [b] + bytes[..n - 1];
      assert b * Pow256(n) == 256 * (b * Pow256(n - 1));
    }
  }

  lemma {:induction false} Pow256Monotone(i: nat, n: nat)
    requires i <= n
    ensures Pow256(i) <= Pow256(n)
    decreases n - i
  {
    if i < n {
      Pow256Monotone(i + 1, n);
    }
  }

  // The round for byte i from the end.
  lemma OneMoreByte(peer: PeerId, i: nat)
    requires i < 8
    ensures var b, u, v := peer[|peer| - 1 - i], BigEndian(peer[|peer| - i..]), BigEndian(peer[|peer| - (i + 1)..]);
            0 <= b * Pow256(i) && v == b * Pow256(i) + u < Pow256(i + 1) <= Pow256(8)
  {
    var b, bytes := peer[|peer| - 1 - i], peer[|peer| - i..];
    BigEndianFront(b, bytes);
    assert [b] + bytes == peer[|peer| - (i + 1)..];
    Pow256Monotone(i + 1, 8);
    ProductIsNat(b, Pow256(i));
  }

  lemma ProductIsNat(a: nat, b: nat)
    ensures 0 <= a * b
  {
  }

  // Shifting a byte left by 8 * i bits, i < 8, multiplies it by 256^i and loses no bit. Every
  // intermediate value below has type u64, so none of the additions overflows.
  method PeerIdToRaftId(peer: PeerId) returns (u: u64)
    ensures u as int == BigEndian(peer[|peer| - 8..])
    ensures u == RaftId(peer)
  {
    Pow256Eight();
    u := 0;
    for i := 0 to 8
      invariant u as int == BigEndian(peer[|peer| - i..])
      invariant u as int < Pow256(i)
    {
      OneMoreByte(peer, i);
      var shifted := (peer[|peer| - 1 - i] * Pow256(i)) as u64;
      u := u + shifted;
    }
  }

  lemma {:induction false} BigEndianInjective(a: seq<byte>, b: seq<byte>)
    requires |a| == |b| && BigEndian(a) == BigEndian(b)
    ensures a == b
  {
    if a != [] {
      var n := |a| - 1;
      assert a[n] == b[n];
      BigEndianInjective(a[..n], b[..n]);
      assert a == a[..n] + [a[n]] && b == b[..n] + [b[n]];
    }
  }

  // Two peers collide exactly when their last eight bytes agree.
  lemma RaftIdsCollide(p: PeerId, q: PeerId)
    ensures RaftId(p) == RaftId(q) <==> p[|p| - 8..] == q[|q| - 8..]
  {
    if RaftId(p) == RaftId(q) {
      BigEndianInjective(p[|p| - 8..], q[|q| - 8..]);
    }
  }
}
