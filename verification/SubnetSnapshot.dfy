/** The canonical snapshot of advertised subnets that servers compare by hash. */
module SubnetSnapshot {
  import opened Ipv4
  import opened Sorting
  import opened InputRoutes

  type Advertised = map<Ip, seq<Net>>

  datatype Node = Node(ip: Ip, subnets: seq<Net>)

  ghost predicate Advertises(byIp: Advertised, ip: Ip, net: Net) {
    ip in byIp && net in byIp[ip]
  }

  /** `ip` is the smallest address advertising `net`. */
  ghost predicate Owns(byIp: Advertised, ip: Ip, net: Net) {
    Advertises(byIp, ip, net) && forall other :: Advertises(byIp, other, net) ==> ip <= other
  }

  ghost predicate StrictNets(nets: seq<Net>) {
    Sorted(nets, NetLe()) && forall i, j :: 0 <= i < j < |nets| ==> nets[i] != nets[j]
  }

  ghost predicate Lists(nodes: seq<Node>, ip: Ip, net: Net) {
    exists i :: 0 <= i < |nodes| && nodes[i].ip == ip && net in nodes[i].subnets
  }

  ghost predicate WellFormed(nodes: seq<Node>) {
    && (forall i, j :: 0 <= i < j < |nodes| ==> nodes[i].ip < nodes[j].ip)
    && (forall n <- nodes :: n.subnets != [] && StrictNets(n.subnets))
  }

  /** Ascending nodes with ascending subnets that list every subnet exactly at its owner. */
  ghost predicate Canonical(nodes: seq<Node>, byIp: Advertised) {
    WellFormed(nodes) && forall ip, net :: Lists(nodes, ip, net) <==> Owns(byIp, ip, net)
  }

  // ---------- computation ----------

  method Minimum(ips: set<Ip>) returns (least: Ip)
    requires ips != {}
    ensures least in ips && forall ip <- ips :: least <= ip
  {
    least :| least in ips;
    var left := ips - {least};
    while left != {}
      invariant left <= ips && least in ips
      invariant forall ip <- ips :: ip in left || least <= ip
      decreases left
    {
      var ip :| ip in left;
      if ip < least {
        least := ip;
      }
      left := left - {ip};
    }
  }

  /** Keeps the subnets not claimed yet and claims them. */
  method Claim(subnets: seq<Net>, claimed: set<Net>) returns (own: seq<Net>, claimed': set<Net>)
    requires StrictNets(subnets)
    ensures StrictNets(own)
    ensures forall n :: n in own <==> n in subnets && n !in claimed
    ensures forall n :: n in claimed' <==> n in claimed || n in subnets
  {
    own, claimed' := [], claimed;
    for i := 0 to |subnets|
      invariant StrictNets(own)
      invariant forall n :: n in own <==> n in subnets[..i] && n !in claimed
      invariant forall n :: n in claimed' <==> n in claimed || n in subnets[..i]
    {
      var subnet := subnets[i];
      assert subnets[..i + 1] == subnets[..i] + [subnet];
      assert subnet !in subnets[..i];
      if subnet !in claimed' {
        forall k | 0 <= k < |own|
          ensures NetLe()(own[k], subnet) && own[k] != subnet
        {
          assert own[k] in subnets[..i];
          var j :| 0 <= j < i && subnets[j] == own[k];
          assert NetLe()(subnets[j], subnets[i]);
        }
        own := own + [subnet];
        claimed' := claimed' + {subnet};
      }
    }
    assert subnets[..|subnets|] == subnets;
  }

  ghost function Restrict(byIp: Advertised, ips: set<Ip>): Advertised {
    map ip | ip in byIp && ip in ips :: byIp[ip]
  }

  /** Exactly the advertised subnets are claimed. */
  ghost predicate Claims(claimed: set<Net>, byIp: Advertised) {
    forall n :: n in claimed <==> exists other :: Advertises(byIp, other, n)
  }

  lemma NothingAdvertised(byIp: Advertised)
    ensures Canonical([], Restrict(byIp, {})) && Claims({}, Restrict(byIp, {}))
  {
  }

  method SortedDistinct(nets: seq<Net>) returns (r: seq<Net>)
    ensures StrictNets(r) && forall n :: n in r <==> n in nets
  {
    SortPermutes(nets, NetLe());
    SortSorts(nets, NetLe());
    r := Dedup(Sort(nets, NetLe()));
  }

  lemma ExtendCanonical(byIp: Advertised, done: set<Ip>, nodes: seq<Node>, claimed: set<Net>, ip: Ip, own: seq<Net>)
    requires Canonical(nodes, Restrict(byIp, done))
    requires Claims(claimed, Restrict(byIp, done))
    requires ip in byIp && forall other <- done :: other < ip
    requires StrictNets(own) && forall n :: n in own <==> n in byIp[ip] && n !in claimed
    ensures Canonical(if own == [] then nodes else nodes + [Node(ip, own)], Restrict(byIp, done + {ip}))
  {
    var before, after := Restrict(byIp, done), Restrict(byIp, done + {ip});
    var nodes' := if own == [] then nodes else nodes + [Node(ip, own)];
    forall k | 0 <= k < |nodes|
      ensures nodes[k].ip < ip
    {
      assert nodes[k] in nodes;
      var net := nodes[k].subnets[0];
      assert Lists(nodes, nodes[k].ip, net);
      assert Owns(before, nodes[k].ip, net);
    }
    forall a, net
      ensures Lists(nodes', a, net) <==> Owns(after, a, net)
    {
      ListsExtends(nodes, ip, own, a, net);
      OwnsExtends(byIp, done, ip, a, net);
    }
  }

  lemma ListsExtends(nodes: seq<Node>, ip: Ip, own: seq<Net>, a: Ip, net: Net)
    ensures var nodes' := if own == [] then nodes else nodes + [Node(ip, own)];
            Lists(nodes', a, net) <==> Lists(nodes, a, net) || (a == ip && net in own)
  {
    var nodes' := if own == [] then nodes else nodes + [Node(ip, own)];
    if Lists(nodes, a, net) {
      var i :| 0 <= i < |nodes| && nodes[i].ip == a && net in nodes[i].subnets;
      assert nodes'[i] == nodes[i];
    }
    if a == ip && net in own {
      assert nodes'[|nodes|] == Node(ip, own);
    }
    if Lists(nodes', a, net) {
      var i :| 0 <= i < |nodes'| && nodes'[i].ip == a && net in nodes'[i].subnets;
      assert i < |nodes| ==> nodes[i] == nodes'[i];
    }
  }

  lemma OwnsExtends(byIp: Advertised, done: set<Ip>, ip: Ip, a: Ip, net: Net)
    requires ip in byIp && forall other <- done :: other < ip
    ensures Owns(Restrict(byIp, done + {ip}), a, net) <==>
            || Owns(Restrict(byIp, done), a, net)
            || (a == ip && net in byIp[ip] && !exists other :: Advertises(Restrict(byIp, done), other, net))
  {
    var before, after := Restrict(byIp, done), Restrict(byIp, done + {ip});
    assert forall other :: Advertises(after, other, net) <==>
             Advertises(before, other, net) || (other == ip && net in byIp[ip]);
  }

  /** Sorts and deduplicates each list, then lets the smallest address claim each subnet. */
  method CanonicalSubnetSnapshot(byIp: Advertised) returns (nodes: seq<Node>)
    ensures Canonical(nodes, byIp)
  {
    hide Canonical, Claims, StrictNets;
    NothingAdvertised(byIp);
    nodes := [];
    var claimed: set<Net> := {};
    var left := byIp.Keys;
    ghost var done: set<Ip> := {};
    while left != {}
      invariant left + done == byIp.Keys
      invariant forall a, b :: a in done && b in left ==> a < b
      invariant Canonical(nodes, Restrict(byIp, done))
      invariant Claims(claimed, Restrict(byIp, done))
      decreases left
    {
      var ip := Minimum(left);
      var subnets := SortedDistinct(byIp[ip]);
      var own, claimed' := Claim(subnets, claimed);
      ExtendCanonical(byIp, done, nodes, claimed, ip, own);
      ClaimedExtends(byIp, done, claimed, claimed', ip);
      if own != [] {
        nodes := nodes + [Node(ip, own)];
      }
      claimed, done, left := claimed', done + {ip}, left - {ip};
    }
    assert Restrict(byIp, done) == byIp;
  }

  lemma ClaimedExtends(byIp: Advertised, done: set<Ip>, claimed: set<Net>, claimed': set<Net>, ip: Ip)
    requires ip in byIp
    requires Claims(claimed, Restrict(byIp, done))
    requires forall n :: n in claimed' <==> n in claimed || n in byIp[ip]
    ensures Claims(claimed', Restrict(byIp, done + {ip}))
  {
    forall n
      ensures n in claimed' <==> exists other :: Advertises(Restrict(byIp, done + {ip}), other, n)
    {
      if n in claimed {
        var other :| Advertises(Restrict(byIp, done), other, n);
        assert Advertises(Restrict(byIp, done + {ip}), other, n);
      }
      if n in byIp[ip] {
        assert Advertises(Restrict(byIp, done + {ip}), ip, n);
      }
      if other :| Advertises(Restrict(byIp, done + {ip}), other, n) {
        assert other != ip ==> Advertises(Restrict(byIp, done), other, n);
      }
    }
  }

  // ---------- what the snapshot means ----------

  lemma StrictNetsUnique(a: seq<Net>, b: seq<Net>)
    requires StrictNets(a) && StrictNets(b) && forall n :: n in a <==> n in b
    ensures a == b
    decreases |a|
  {
    assert b != [] ==> b[0] in a;
    if a != [] {
      assert a[0] in a && a[0] in b;
      assert b[0] in b && b[0] in a;
      HeadIsLeast(a, b[0]);
      HeadIsLeast(b, a[0]);
      assert a[0] == b[0];
      TailElements(a);
      TailElements(b);
      StrictNetsUnique(a[1..], b[1..]);
    }
  }

  lemma HeadIsLeast(a: seq<Net>, n: Net)
    requires StrictNets(a) && n in a
    ensures a != [] && NetLe()(a[0], n)
  {
    var i :| 0 <= i < |a| && a[i] == n;
    if i > 0 {
      assert NetLe()(a[0], a[i]);
    }
  }

  lemma TailElements(a: seq<Net>)
    requires a != [] && StrictNets(a)
    ensures StrictNets(a[1..]) && forall n :: n in a[1..] <==> n in a && n != a[0]
  {
    forall n | n in a && n != a[0]
      ensures n in a[1..]
    {
      var i :| 0 <= i < |a| && a[i] == n;
      assert a[1..][i - 1] == n;
    }
  }

  /** Two well-formed lists with the same content are the same list. */
  lemma {:induction false} NodesUnique(a: seq<Node>, b: seq<Node>)
    requires WellFormed(a) && WellFormed(b)
    requires forall ip, net :: Lists(a, ip, net) <==> Lists(b, ip, net)
    ensures a == b
    decreases |a|
  {
    if a == [] {
      if b != [] {
        assert b[0] in b;
        assert Lists(b, b[0].ip, b[0].subnets[0]);
      }
    } else if b == [] {
      assert a[0] in a;
      assert Lists(a, a[0].ip, a[0].subnets[0]);
    } else {
      FirstNodes(a, b);
      FirstNodes(b, a);
      SameFirstNode(a, b);
      TailLists(a);
      TailLists(b);
      NodesUnique(a[1..], b[1..]);
    }
  }

  lemma FirstNodes(a: seq<Node>, b: seq<Node>)
    requires WellFormed(a) && WellFormed(b) && a != [] && b != []
    requires forall ip, net :: Lists(a, ip, net) <==> Lists(b, ip, net)
    ensures a[0].ip <= b[0].ip
  {
    assert b[0] in b;
    assert Lists(b, b[0].ip, b[0].subnets[0]);
    var i :| 0 <= i < |a| && a[i].ip == b[0].ip && b[0].subnets[0] in a[i].subnets;
  }

  lemma SameFirstNode(a: seq<Node>, b: seq<Node>)
    requires WellFormed(a) && WellFormed(b) && a != [] && b != []
    requires a[0].ip == b[0].ip
    requires forall ip, net :: Lists(a, ip, net) <==> Lists(b, ip, net)
    ensures a[0] == b[0]
  {
    forall n
      ensures n in a[0].subnets <==> n in b[0].subnets
    {
      OnlyFirst(a, n);
      OnlyFirst(b, n);
      assert Lists(a, a[0].ip, n) <==> Lists(b, a[0].ip, n);
    }
    assert a[0] in a && b[0] in b;
    StrictNetsUnique(a[0].subnets, b[0].subnets);
  }

  lemma OnlyFirst(a: seq<Node>, n: Net)
    requires WellFormed(a) && a != []
    ensures Lists(a, a[0].ip, n) <==> n in a[0].subnets
  {
  }

  lemma TailLists(a: seq<Node>)
    requires WellFormed(a) && a != []
    ensures WellFormed(a[1..])
    ensures forall ip, net :: Lists(a[1..], ip, net) <==> Lists(a, ip, net) && ip != a[0].ip
  {
    forall ip, net
      ensures Lists(a[1..], ip, net) <==> Lists(a, ip, net) && ip != a[0].ip
    {
      if Lists(a, ip, net) && ip != a[0].ip {
        var i :| 0 <= i < |a| && a[i].ip == ip && net in a[i].subnets;
        assert a[1..][i - 1] == a[i];
      }
      if Lists(a[1..], ip, net) {
        var i :| 0 <= i < |a[1..]| && a[1..][i].ip == ip && net in a[1..][i].subnets;
        assert a[i + 1] == a[1..][i];
      }
    }
  }

  /** The snapshot is a function of the set of (address, subnet) pairs: list order and repetitions do not matter. */
  lemma SnapshotDependsOnPairs(byIp: Advertised, others: Advertised, nodes: seq<Node>, nodes': seq<Node>)
    requires Canonical(nodes, byIp) && Canonical(nodes', others)
    requires forall ip, net :: Advertises(byIp, ip, net) <==> Advertises(others, ip, net)
    ensures nodes == nodes'
  {
    forall ip, net
      ensures Lists(nodes, ip, net) <==> Lists(nodes', ip, net)
    {
      assert Owns(byIp, ip, net) <==> Owns(others, ip, net);
    }
    NodesUnique(nodes, nodes');
  }

  lemma LeastAdvertiser(byIp: Advertised, ip: Ip, net: Net) returns (least: Ip)
    requires Advertises(byIp, ip, net)
    ensures Owns(byIp, least, net)
    decreases ip
  {
    if other: Ip :| Advertises(byIp, other, net) && other < ip {
      least := LeastAdvertiser(byIp, other, net);
    } else {
      least := ip;
    }
  }

  /** Every advertised subnet appears, at exactly one node, its smallest advertiser; nothing else appears. */
  lemma SnapshotPreservesSubnets(byIp: Advertised, nodes: seq<Node>, net: Net)
    requires Canonical(nodes, byIp)
    ensures (exists ip :: Advertises(byIp, ip, net)) <==> (exists ip :: Lists(nodes, ip, net))
    ensures forall a, b :: Lists(nodes, a, net) && Lists(nodes, b, net) ==> a == b
  {
    if ip :| Advertises(byIp, ip, net) {
      var least := LeastAdvertiser(byIp, ip, net);
      assert Lists(nodes, least, net);
    }
    if ip :| Lists(nodes, ip, net) {
      assert Owns(byIp, ip, net);
    }
    forall a, b | Lists(nodes, a, net) && Lists(nodes, b, net)
      ensures a == b
    {
      assert Owns(byIp, a, net) && Owns(byIp, b, net);
    }
  }

  function AsMap(nodes: seq<Node>): Advertised
    decreases |nodes|
  {
    if nodes == [] then map[]
    else AsMap(nodes[..|nodes| - 1])[nodes[|nodes| - 1].ip := nodes[|nodes| - 1].subnets]
  }

  lemma SplitLast(nodes: seq<Node>, net: Net)
    requires WellFormed(nodes) && nodes != []
    ensures var k := |nodes| - 1;
            && WellFormed(nodes[..k]) && nodes == nodes[..k] + [nodes[k]]
            && nodes[k].subnets != [] && !Lists(nodes[..k], nodes[k].ip, net)
  {
    var k := |nodes| - 1;
    assert nodes == nodes[..k] + [nodes[k]];
    assert nodes[k] in nodes;
    forall n | n in nodes[..k]
      ensures n in nodes
    {
    }
  }

  lemma {:induction false} AsMapAdvertises(nodes: seq<Node>, ip: Ip, net: Net)
    requires WellFormed(nodes)
    ensures Advertises(AsMap(nodes), ip, net) <==> Lists(nodes, ip, net)
    decreases |nodes|
  {
    if nodes != [] {
      var k := |nodes| - 1;
      SplitLast(nodes, net);
      hide WellFormed, Lists;
      AsMapAdvertises(nodes[..k], ip, net);
      ListsExtends(nodes[..k], nodes[k].ip, nodes[k].subnets, ip, net);
      assert nodes == nodes[..k] + [Node(nodes[k].ip, nodes[k].subnets)];
    }
  }

  /** Taking the snapshot of a snapshot changes nothing. */
  lemma SnapshotIsIdempotent(byIp: Advertised, nodes: seq<Node>, again: seq<Node>)
    requires Canonical(nodes, byIp) && Canonical(again, AsMap(nodes))
    ensures again == nodes
  {
    forall ip, net
      ensures Lists(again, ip, net) <==> Lists(nodes, ip, net)
    {
      AsMapAdvertises(nodes, ip, net);
      forall other
        ensures Advertises(AsMap(nodes), other, net) <==> Lists(nodes, other, net)
      {
        AsMapAdvertises(nodes, other, net);
      }
      SnapshotPreservesSubnets(byIp, nodes, net);
      assert Owns(AsMap(nodes), ip, net) <==> Lists(nodes, ip, net);
    }
    NodesUnique(again, nodes);
  }

  // ---------- the bytes that are hashed ----------

  type Byte = nat

  /** Big-endian. */
  function U32(n: nat): seq<Byte> {
    [n / 256 / 256 / 256, n / 256 / 256 % 256, n / 256 % 256, n % 256]
  }

  function EncodeNet(n: Net): seq<Byte> {
    U32(n.network) + [n.prefix]
  }

  function EncodeNets(nets: seq<Net>): seq<Byte> {
    if nets == [] then [] else EncodeNet(nets[0]) + EncodeNets(nets[1..])
  }

  function EncodeNode(n: Node): seq<Byte> {
    U32(n.ip) + U32(|n.subnets|) + EncodeNets(n.subnets)
  }

  function EncodeNodes(nodes: seq<Node>): seq<Byte> {
    if nodes == [] then [] else EncodeNode(nodes[0]) + EncodeNodes(nodes[1..])
  }

  /** Counts, addresses and prefixes in the order in which they are fed to the hash. */
  function HashInput(nodes: seq<Node>): seq<Byte> {
    U32(|nodes|) + EncodeNodes(nodes)
  }

  /** The most significant byte comes first. */
  lemma U32IsBigEndian(n: nat)
    requires n < ADDRESS_COUNT
    ensures |U32(n)| == 4 && (forall b <- U32(n) :: b < 256)
    ensures ((U32(n)[0] * 256 + U32(n)[1]) * 256 + U32(n)[2]) * 256 + U32(n)[3] == n
  {
  }

  /** Number of nodes; for each node its address, number of subnets, and each subnet's network and prefix. */
  lemma HashInputFormat(nodes: seq<Node>, node: Node, nets: seq<Net>, net: Net)
    ensures HashInput([]) == U32(0)
    ensures HashInput([node] + nodes) ==
            U32(|nodes| + 1) + (U32(node.ip) + U32(|node.subnets|) + EncodeNets(node.subnets) + EncodeNodes(nodes))
    ensures EncodeNets([net] + nets) == U32(net.network) + [net.prefix] + EncodeNets(nets)
  {
    assert ([node] + nodes)[1..] == nodes && ([net] + nets)[1..] == nets;
  }

  method FeedNets(fed: seq<Byte>, nets: seq<Net>) returns (r: seq<Byte>)
    ensures r == fed + EncodeNets(nets)
  {
    r := fed;
    for k := 0 to |nets|
      invariant r + EncodeNets(nets[k..]) == fed + EncodeNets(nets)
    {
      FeedStep(r, EncodeNet(nets[k]), EncodeNets(nets[k + 1..]));
      assert nets[k..][1..] == nets[k + 1..];
      r := r + EncodeNet(nets[k]);
    }
    assert nets[|nets|..] == [];
  }

  lemma FeedStep(fed: seq<Byte>, next: seq<Byte>, rest: seq<Byte>)
    ensures fed + (next + rest) == fed + next + rest
  {
  }

  /** The feeding loops, update by update. */
  method FeedHash(nodes: seq<Node>) returns (fed: seq<Byte>)
    ensures fed == HashInput(nodes)
  {
    fed := U32(|nodes|);
    for i := 0 to |nodes|
      invariant fed + EncodeNodes(nodes[i..]) == HashInput(nodes)
    {
      hide U32, EncodeNets;
      var node := nodes[i];
      assert nodes[i..][1..] == nodes[i + 1..];
      FeedStep(fed, EncodeNode(node), EncodeNodes(nodes[i + 1..]));
      ghost var before := fed;
      fed := fed + U32(node.ip);
      fed := fed + U32(|node.subnets|);
      fed := FeedNets(fed, node.subnets);
      assert fed == before + EncodeNode(node) by {
        FeedStep(before, U32(node.ip), U32(|node.subnets|));
        FeedStep(before, U32(node.ip) + U32(|node.subnets|), EncodeNets(node.subnets));
      }
    }
    assert nodes[|nodes|..] == [];
  }

  ghost predicate FitsNet(n: Net) {
    n.network < ADDRESS_COUNT
  }

  ghost predicate FitsNode(n: Node) {
    n.ip < ADDRESS_COUNT && |n.subnets| < ADDRESS_COUNT && forall s <- n.subnets :: FitsNet(s)
  }

  lemma U32Injective(a: nat, b: nat)
    requires a < ADDRESS_COUNT && b < ADDRESS_COUNT && U32(a) == U32(b)
    ensures a == b
  {
    assert U32(a)[0] == U32(b)[0] && U32(a)[1] == U32(b)[1] && U32(a)[2] == U32(b)[2] && U32(a)[3] == U32(b)[3];
  }

  lemma CancelPrefix(a: seq<Byte>, ra: seq<Byte>, b: seq<Byte>, rb: seq<Byte>)
    requires |a| == |b| && a + ra == b + rb
    ensures a == b && ra == rb
  {
    assert a == (a + ra)[..|a|] && b == (b + rb)[..|b|];
    assert ra == (a + ra)[|a|..] && rb == (b + rb)[|b|..];
  }

  lemma NetInjective(a: Net, ra: seq<Byte>, b: Net, rb: seq<Byte>)
    requires FitsNet(a) && FitsNet(b) && EncodeNet(a) + ra == EncodeNet(b) + rb
    ensures a == b && ra == rb
  {
    CancelPrefix(EncodeNet(a), ra, EncodeNet(b), rb);
    CancelPrefix(U32(a.network), [a.prefix], U32(b.network), [b.prefix]);
    U32Injective(a.network, b.network);
  }

  lemma {:induction false} NetsInjective(a: seq<Net>, ra: seq<Byte>, b: seq<Net>, rb: seq<Byte>)
    requires |a| == |b| && (forall s <- a :: FitsNet(s)) && (forall s <- b :: FitsNet(s))
    requires EncodeNets(a) + ra == EncodeNets(b) + rb
    ensures a == b && ra == rb
  {
    if a == [] {
      assert EncodeNets(a) + ra == ra && EncodeNets(b) + rb == rb;
    } else {
      assert a[0] in a && b[0] in b;
      var ta, tb := EncodeNets(a[1..]) + ra, EncodeNets(b[1..]) + rb;
      assert EncodeNets(a) + ra == EncodeNet(a[0]) + ta;
      assert EncodeNets(b) + rb == EncodeNet(b[0]) + tb;
      NetInjective(a[0], ta, b[0], tb);
      NetsInjective(a[1..], ra, b[1..], rb);
      assert a == [a[0]] + a[1..] && b == [b[0]] + b[1..];
    }
  }

  lemma NodeInjective(a: Node, ra: seq<Byte>, b: Node, rb: seq<Byte>)
    requires FitsNode(a) && FitsNode(b) && EncodeNode(a) + ra == EncodeNode(b) + rb
    ensures a == b && ra == rb
  {
    var na, nb := EncodeNets(a.subnets) + ra, EncodeNets(b.subnets) + rb;
    assert EncodeNode(a) + ra == U32(a.ip) + (U32(|a.subnets|) + na);
    assert EncodeNode(b) + rb == U32(b.ip) + (U32(|b.subnets|) + nb);
    CancelPrefix(U32(a.ip), U32(|a.subnets|) + na, U32(b.ip), U32(|b.subnets|) + nb);
    CancelPrefix(U32(|a.subnets|), na, U32(|b.subnets|), nb);
    U32Injective(a.ip, b.ip);
    U32Injective(|a.subnets|, |b.subnets|);
    NetsInjective(a.subnets, ra, b.subnets, rb);
  }

  lemma {:induction false} NodesInjective(a: seq<Node>, ra: seq<Byte>, b: seq<Node>, rb: seq<Byte>)
    requires |a| == |b| && (forall n <- a :: FitsNode(n)) && (forall n <- b :: FitsNode(n))
    requires EncodeNodes(a) + ra == EncodeNodes(b) + rb
    ensures a == b
  {
    if a != [] {
      assert a[0] in a && b[0] in b;
      var ta, tb := EncodeNodes(a[1..]) + ra, EncodeNodes(b[1..]) + rb;
      assert EncodeNodes(a) + ra == EncodeNode(a[0]) + ta;
      assert EncodeNodes(b) + rb == EncodeNode(b[0]) + tb;
      NodeInjective(a[0], ta, b[0], tb);
      NodesInjective(a[1..], ra, b[1..], rb);
      assert a == [a[0]] + a[1..] && b == [b[0]] + b[1..];
    }
  }

  /** Different snapshots are hashed as different byte strings, while counts and addresses fit 32 bits. */
  lemma HashInputInjective(a: seq<Node>, b: seq<Node>)
    requires |a| < ADDRESS_COUNT && |b| < ADDRESS_COUNT
    requires (forall n <- a :: FitsNode(n)) && (forall n <- b :: FitsNode(n))
    requires HashInput(a) == HashInput(b)
    ensures a == b
  {
    CancelPrefix(U32(|a|), EncodeNodes(a), U32(|b|), EncodeNodes(b));
    U32Injective(|a|, |b|);
    NodesInjective(a, [], b, []);
  }
}
