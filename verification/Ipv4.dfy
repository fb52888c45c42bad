/** IPv4 addresses as numbers and truncated networks as aligned intervals. */
module Ipv4 {
  type Ip = nat

  const ADDRESS_COUNT := 0x1_0000_0000

  function Pow2(n: nat): (r: nat)
    ensures r >= 1
  {
    if n == 0 then 1 else 2 * Pow2(n - 1)
  }

  /** Start of the `k`-th block of `size` addresses. */
  function BlockStart(k: nat, size: nat): nat {
    k * size
  }

  ghost predicate Aligned(start: nat, size: nat) {
    exists k: nat :: BlockStart(k, size) == start
  }

  /** A network; it is truncated (`Valid`) when it starts on a block boundary of its size. */
  datatype Net = Net(network: Ip, prefix: nat) {
    ghost predicate Valid() {
      && prefix <= 32
      && network < ADDRESS_COUNT
      && Aligned(network, Size())
    }

    function Size(): (r: nat)
      ensures r >= 1
    {
      if prefix <= 32 then Pow2(32 - prefix) else 1
    }

    function Broadcast(): Ip {
      network + Size() - 1
    }

    predicate Contains(ip: Ip) {
      network <= ip <= Broadcast()
    }
  }

  /** Truncation of a network given by any of its addresses. */
  function Trunc(n: Net): (r: Net)
    requires n.prefix <= 32 && n.network < ADDRESS_COUNT
    ensures r.Valid() && r.prefix == n.prefix && r.Contains(n.network)
  {
    var size := n.Size();
    DivMul(n.network, size);
    var r := Net(BlockStart(n.network / size, size), n.prefix);
    r
  }

  lemma DivMul(x: nat, m: nat)
    requires m >= 1
    ensures x / m >= 0
    ensures BlockStart(x / m, m) <= x < BlockStart(x / m, m) + m
  {
  }

  /** Networks of one length are disjoint or equal. */
  lemma SameLengthDisjoint(a: Net, b: Net, ip: Ip)
    requires a.Valid() && b.Valid() && a.prefix == b.prefix
    requires a.Contains(ip) && b.Contains(ip)
    ensures a == b
  {
    var size := a.Size();
    var j: nat :| BlockStart(j, size) == a.network;
    var k: nat :| BlockStart(k, size) == b.network;
    if j < k {
      BlockStep(j, k, size);
    } else if k < j {
      BlockStep(k, j, size);
    }
  }

  lemma {:induction false} BlockStep(j: nat, k: nat, size: nat)
    requires j < k
    ensures BlockStart(j, size) + size <= BlockStart(k, size)
    decreases k
  {
    assert k * size == (k - 1) * size + size;
    if j < k - 1 {
      BlockStep(j, k - 1, size);
    }
  }

  lemma {:induction false} Pow2Splits(a: nat, b: nat)
    ensures Pow2(a + b) == Pow2(a) * Pow2(b)
  {
    if a > 0 {
      Pow2Splits(a - 1, b);
      assert Pow2(a + b) == 2 * Pow2(a - 1 + b);
      assert 2 * (Pow2(a - 1) * Pow2(b)) == (2 * Pow2(a - 1)) * Pow2(b);
    }
  }

  lemma AllAddresses()
    ensures Pow2(32) == ADDRESS_COUNT
  {
    assert Pow2(4) == 16;
    Pow2Splits(4, 4);
    Pow2Splits(8, 8);
    Pow2Splits(16, 16);
  }

  /** A truncated network ends inside the address space. */
  lemma BroadcastFits(n: Net)
    requires n.Valid()
    ensures n.Broadcast() < ADDRESS_COUNT
  {
    var size := n.Size();
    var k: nat :| BlockStart(k, size) == n.network;
    AllAddresses();
    Pow2Splits(n.prefix, 32 - n.prefix);
    var blocks := Pow2(n.prefix);
    assert BlockStart(blocks, size) == ADDRESS_COUNT;
    if k < blocks {
      BlockStep(k, blocks, size);
    } else if blocks < k {
      BlockStep(blocks, k, size);
    }
  }

  /** What an endpoint may use: inside the net and neither gateway, network nor broadcast address. */
  predicate UsableHost(net: Net, gateway: Ip, ip: Ip) {
    net.Contains(ip) && ip != gateway && ip != net.network && ip != net.Broadcast()
  }
}
