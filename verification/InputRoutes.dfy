/** Normalisation of a device's subnet configuration, and the longest-prefix lookup that relies on it. */
module InputRoutes {
  import opened Wrappers
  import opened Ipv4
  import opened LeaseModel
  import opened Sorting

  datatype ConfigError = TooManyOutputs | TargetNotUsable | TargetIsSelf | DuplicateSubnet | TooManyRoutes

  const MAX_ENTRIES := 254

  /** A network as the address library admits it. */
  predicate Given(n: Net) {
    n.prefix <= 32 && n.network < ADDRESS_COUNT
  }

  function NetLe(): (Net, Net) -> bool {
    (a: Net, b: Net) => a.network < b.network || (a.network == b.network && a.prefix <= b.prefix)
  }

  /** Longer prefixes first, then by network. */
  function RouteLe(): (InputRoute, InputRoute) -> bool {
    (a: InputRoute, b: InputRoute) =>
      a.subnet.prefix > b.subnet.prefix || (a.subnet.prefix == b.subnet.prefix && a.subnet.network <= b.subnet.network)
  }

  function TruncRoute(r: InputRoute): InputRoute
    requires Given(r.subnet)
  {
    r.(subnet := Trunc(r.subnet))
  }

  ghost predicate DistinctSubnets(routes: seq<InputRoute>) {
    forall i, j :: 0 <= i < j < |routes| ==> routes[i].subnet != routes[j].subnet
  }

  /** What a stored route table looks like: truncated, each subnet once. */
  ghost predicate Normalised(routes: seq<InputRoute>) {
    (forall r <- routes :: r.subnet.Valid()) && DistinctSubnets(routes)
  }

  ghost predicate GoodTargets(t: Topology, self: Ip, routes: seq<InputRoute>) {
    forall r <- routes :: t.Usable(r.target) && r.target != self
  }

  ghost predicate GivenNets(nets: seq<Net>) {
    forall n <- nets :: Given(n)
  }

  ghost predicate GivenRoutes(routes: seq<InputRoute>) {
    forall r <- routes :: Given(r.subnet)
  }

  ghost predicate TruncatedFrom(routes: seq<InputRoute>, from: seq<InputRoute>) {
    && |routes| == |from|
    && forall i :: 0 <= i < |from| ==>
         && Given(from[i].subnet)
         && routes[i].subnet == Trunc(from[i].subnet) && routes[i].target == from[i].target
  }

  /** Drops equal neighbours. */
  method Dedup(nets: seq<Net>) returns (r: seq<Net>)
    requires Sorted(nets, NetLe())
    ensures Sorted(r, NetLe()) && (forall i, j :: 0 <= i < j < |r| ==> r[i] != r[j])
    ensures forall n :: n in r <==> n in nets
  {
    r := [];
    for i := 0 to |nets|
      invariant Sorted(r, NetLe()) && (forall j, k :: 0 <= j < k < |r| ==> r[j] != r[k])
      invariant forall n :: n in r <==> n in nets[..i]
      invariant if i == 0 then r == [] else r != [] && r[|r| - 1] == nets[i - 1]
    {
      assert nets[..i + 1] == nets[..i] + [nets[i]];
      if r == [] || r[|r| - 1] != nets[i] {
        forall j | 0 <= j < |r|
          ensures NetLe()(r[j], nets[i]) && r[j] != nets[i]
        {
          assert NetLe()(nets[i - 1], nets[i]);
          assert j < |r| - 1 ==> NetLe()(r[j], r[|r| - 1]);
        }
        r := r + [nets[i]];
      }
    }
    assert nets[..|nets|] == nets;
  }

  /** Some two neighbouring routes have the same subnet; on sorted routes, some two routes have. */
  method HasDuplicate(routes: seq<InputRoute>) returns (found: bool)
    requires Sorted(routes, RouteLe())
    ensures found <==> !DistinctSubnets(routes)
  {
    var i := 1;
    while i < |routes|
      invariant forall j :: 1 <= j < i && j < |routes| ==> routes[j - 1].subnet != routes[j].subnet
    {
      if routes[i - 1].subnet == routes[i].subnet {
        return true;
      }
      i := i + 1;
    }
    found := false;
    forall i, j | 0 <= i < j < |routes|
      ensures routes[i].subnet != routes[j].subnet
    {
      assert routes[j - 1].subnet != routes[j].subnet;
      assert i < j - 1 ==> RouteLe()(routes[i], routes[j - 1]);
      assert RouteLe()(routes[j - 1], routes[j]);
    }
  }

  lemma PermutedDistinct(a: seq<InputRoute>, b: seq<InputRoute>)
    requires multiset(a) == multiset(b) && DistinctSubnets(a)
    ensures DistinctSubnets(b)
  {
    forall i, j | 0 <= i < j < |b|
      ensures b[i].subnet != b[j].subnet
    {
      if b[i].subnet == b[j].subnet {
        assert b[i] in multiset(a) && b[j] in multiset(a);
        var k :| 0 <= k < |a| && a[k] == b[i];
        var m :| 0 <= m < |a| && a[m] == b[j];
        assert k == m;
        TwiceInSeq(b, i, j);
        OnceInSeq(a, k);
      }
    }
  }

  lemma TwiceInSeq<T>(s: seq<T>, i: nat, j: nat)
    requires i < j < |s| && s[i] == s[j]
    ensures multiset(s)[s[i]] >= 2
  {
    assert s == s[..i] + [s[i]] + s[i + 1..j] + [s[j]] + s[j + 1..];
  }

  lemma OnceInSeq(s: seq<InputRoute>, i: nat)
    requires i < |s| && DistinctSubnets(s)
    ensures multiset(s)[s[i]] == 1
  {
    assert s == s[..i] + [s[i]] + s[i + 1..];
    assert s[i] !in s[..i] && s[i] !in s[i + 1..];
  }

  lemma TruncSorted(routes: seq<InputRoute>)
    ensures multiset(Sort(routes, RouteLe())) == multiset(routes) && Sorted(Sort(routes, RouteLe()), RouteLe())
    ensures |Sort(routes, RouteLe())| == |routes|
    ensures forall r :: r in Sort(routes, RouteLe()) <==> r in routes
    ensures DistinctSubnets(Sort(routes, RouteLe())) <==> DistinctSubnets(routes)
  {
    SortPermutes(routes, RouteLe());
    SortSorts(routes, RouteLe());
    if DistinctSubnets(routes) {
      PermutedDistinct(routes, Sort(routes, RouteLe()));
    }
    if DistinctSubnets(Sort(routes, RouteLe())) {
      PermutedDistinct(Sort(routes, RouteLe()), routes);
    }
  }

  /** Truncates the routes and checks their targets in order. */
  method TruncAll(t: Topology, self: Ip, routes: seq<InputRoute>) returns (r: Result<seq<InputRoute>, ConfigError>)
    requires GivenRoutes(routes)
    ensures r.Ok? <==> GoodTargets(t, self, routes)
    ensures r.Ok? ==> TruncatedFrom(r.value, routes)
    ensures r.Err? ==> r.error in {TargetNotUsable, TargetIsSelf}
  {
    var done := [];
    for i := 0 to |routes|
      invariant TruncatedFrom(done, routes[..i])
      invariant GoodTargets(t, self, routes[..i])
    {
      assert routes[i] in routes;
      if !t.Usable(routes[i].target) {
        return Err(TargetNotUsable);
      }
      if routes[i].target == self {
        return Err(TargetIsSelf);
      }
      done := done + [TruncRoute(routes[i])];
      assert routes[..i + 1] == routes[..i] + [routes[i]];
    }
    assert routes[..|routes|] == routes;
    r := Ok(done);
  }

  method TruncNets(nets: seq<Net>) returns (r: seq<Net>)
    requires GivenNets(nets)
    ensures |r| == |nets| && forall i :: 0 <= i < |nets| ==> Given(nets[i]) && r[i] == Trunc(nets[i])
  {
    r := [];
    for i := 0 to |nets|
      invariant |r| == i && forall k :: 0 <= k < i ==> Given(nets[k]) && r[k] == Trunc(nets[k])
    {
      assert nets[i] in nets;
      r := r + [Trunc(nets[i])];
    }
  }

  /** Outputs become a sorted list of distinct truncated subnets; routes a sorted normalised table, or an error. */
  method NormalizeSubnetConfig(t: Topology, self: Ip, outputs: seq<Net>, routes: seq<InputRoute>)
    returns (r: Result<(seq<Net>, seq<InputRoute>), ConfigError>)
    requires GivenNets(outputs) && GivenRoutes(routes)
    ensures r.Ok? ==>
              && Sorted(r.value.0, NetLe()) && |r.value.0| <= MAX_ENTRIES
              && (forall i, j :: 0 <= i < j < |r.value.0| ==> r.value.0[i] != r.value.0[j])
              && (set n | n in r.value.0) == TruncatedSet(outputs)
    ensures r.Ok? ==>
              && Normalised(r.value.1) && Sorted(r.value.1, RouteLe())
              && GoodTargets(t, self, r.value.1) && |r.value.1| <= MAX_ENTRIES
              && exists all :: TruncatedFrom(all, routes) && multiset(r.value.1) == multiset(all)
    ensures r.Ok? <==>
              && |TruncatedSet(outputs)| <= MAX_ENTRIES
              && GoodTargets(t, self, routes)
              && (exists all :: TruncatedFrom(all, routes) && DistinctSubnets(all))
              && |routes| <= MAX_ENTRIES
  {
    var nets := TruncNets(outputs);
    SortPermutes(nets, NetLe());
    SortSorts(nets, NetLe());
    var outs := Dedup(Sort(nets, NetLe()));
    TruncatedElements(outputs, nets, outs);
    if |outs| > MAX_ENTRIES {
      return Err(TooManyOutputs);
    }
    var checked := TruncAll(t, self, routes);
    if checked.Err? {
      return Err(checked.error);
    }
    var all := checked.value;
    var sorted := Sort(all, RouteLe());
    TruncSorted(all);
    var duplicate := HasDuplicate(sorted);
    if duplicate {
      forall other | TruncatedFrom(other, routes)
        ensures !DistinctSubnets(other)
      {
        assert other == all;
      }
      return Err(DuplicateSubnet);
    }
    if |sorted| > MAX_ENTRIES {
      return Err(TooManyRoutes);
    }
    r := Ok((outs, sorted));
    SortedRoutesGood(t, self, routes, all, sorted);
  }

  ghost function TruncatedSet(nets: seq<Net>): set<Net> {
    set i | 0 <= i < |nets| && Given(nets[i]) :: Trunc(nets[i])
  }

  lemma TruncatedElements(outputs: seq<Net>, nets: seq<Net>, outs: seq<Net>)
    requires |nets| == |outputs| && forall i :: 0 <= i < |nets| ==> Given(outputs[i]) && nets[i] == Trunc(outputs[i])
    requires forall n :: n in outs <==> n in nets
    requires forall i, j :: 0 <= i < j < |outs| ==> outs[i] != outs[j]
    ensures (set n | n in outs) == TruncatedSet(outputs)
    ensures |outs| == |TruncatedSet(outputs)|
  {
    forall n
      ensures n in outs <==> n in TruncatedSet(outputs)
    {
      if n in nets {
        var i :| 0 <= i < |nets| && nets[i] == n;
        assert Trunc(outputs[i]) in TruncatedSet(outputs);
      }
    }
    DistinctLength(outs);
  }

  lemma {:induction false} DistinctLength(s: seq<Net>)
    requires forall i, j :: 0 <= i < j < |s| ==> s[i] != s[j]
    ensures |set n | n in s| == |s|
  {
    if s != [] {
      DistinctLength(s[1..]);
      assert (set n | n in s) == {s[0]} + (set n | n in s[1..]);
    }
  }

  lemma SortedRoutesGood(t: Topology, self: Ip, routes: seq<InputRoute>, all: seq<InputRoute>, sorted: seq<InputRoute>)
    requires GivenRoutes(routes) && GoodTargets(t, self, routes)
    requires TruncatedFrom(all, routes) && (forall r :: r in sorted <==> r in all)
    requires DistinctSubnets(sorted)
    ensures Normalised(sorted) && GoodTargets(t, self, sorted)
  {
    forall r | r in sorted
      ensures r.subnet.Valid() && t.Usable(r.target) && r.target != self
    {
      var i :| 0 <= i < |all| && all[i] == r;
      assert routes[i] in routes && r == TruncRoute(routes[i]);
    }
  }

  // ---------- lookup ----------

  /** The matching route of longest prefix, the last one of those in list order. */
  function LongestMatch(routes: seq<InputRoute>, ip: Ip): Option<InputRoute>
    decreases |routes|
  {
    if routes == [] then None
    else
      var best, r := LongestMatch(routes[..|routes| - 1], ip), routes[|routes| - 1];
      if r.subnet.Contains(ip) && (best.None? || best.value.subnet.prefix <= r.subnet.prefix) then Some(r) else best
  }

  method InputTarget(routes: seq<InputRoute>, ip: Ip) returns (target: Option<Ip>)
    ensures target == match LongestMatch(routes, ip) case None => None case Some(r) => Some(r.target)
  {
    var best: Option<InputRoute> := None;
    for i := 0 to |routes|
      invariant best == LongestMatch(routes[..i], ip)
    {
      assert routes[..i + 1][..i] == routes[..i];
      if routes[i].subnet.Contains(ip) && (best.None? || best.value.subnet.prefix <= routes[i].subnet.prefix) {
        best := Some(routes[i]);
      }
    }
    assert routes[..|routes|] == routes;
    target := if best.None? then None else Some(best.value.target);
  }

  lemma {:induction false} LongestMatchIsLongest(routes: seq<InputRoute>, ip: Ip)
    ensures var m := LongestMatch(routes, ip);
            if m.None? then forall r <- routes :: !r.subnet.Contains(ip)
            else
              && m.value in routes && m.value.subnet.Contains(ip)
              && (forall r <- routes :: r.subnet.Contains(ip) ==> r.subnet.prefix <= m.value.subnet.prefix)
    decreases |routes|
  {
    if routes != [] {
      var front := routes[..|routes| - 1];
      LongestMatchIsLongest(front, ip);
      assert routes == front + [routes[|routes| - 1]];
    }
  }

  /** The route at `k` is `m`, and every match behind it is shorter. */
  ghost predicate LastLongest(routes: seq<InputRoute>, ip: Ip, k: int, m: InputRoute) {
    && 0 <= k < |routes| && routes[k] == m
    && forall j :: k < j < |routes| && routes[j].subnet.Contains(ip) ==> routes[j].subnet.prefix < m.subnet.prefix
  }

  /** Of equally long matches the last one counts. */
  lemma {:induction false} TiesGoToTheLast(routes: seq<InputRoute>, ip: Ip) returns (k: int)
    requires LongestMatch(routes, ip).Some?
    ensures LastLongest(routes, ip, k, LongestMatch(routes, ip).value)
    decreases |routes|
  {
    k := |routes| - 1;
    var best := LongestMatch(routes[..k], ip);
    if !(routes[k].subnet.Contains(ip) && (best.None? || best.value.subnet.prefix <= routes[k].subnet.prefix)) {
      var n := k;
      k := TiesGoToTheLast(routes[..n], ip);
      assert forall j :: k < j < n ==> routes[..n][j] == routes[j];
    }
  }

  /** In a normalised table at most one route of each prefix length contains a destination. */
  lemma OneMatchPerLength(routes: seq<InputRoute>, ip: Ip, a: InputRoute, b: InputRoute)
    requires Normalised(routes) && a in routes && b in routes
    requires a.subnet.Contains(ip) && b.subnet.Contains(ip) && a.subnet.prefix == b.subnet.prefix
    ensures a == b
  {
    SameLengthDisjoint(a.subnet, b.subnet, ip);
    var i :| 0 <= i < |routes| && routes[i] == a;
    var j :| 0 <= j < |routes| && routes[j] == b;
    assert i == j;
  }

  /** So the lookup depends on the set of routes only, not on their order. */
  lemma LookupIgnoresOrder(routes: seq<InputRoute>, others: seq<InputRoute>, ip: Ip)
    requires Normalised(routes) && (forall r :: r in routes <==> r in others)
    ensures LongestMatch(routes, ip) == LongestMatch(others, ip)
  {
    LongestMatchIsLongest(routes, ip);
    LongestMatchIsLongest(others, ip);
    var a, b := LongestMatch(routes, ip), LongestMatch(others, ip);
    if a.Some? && b.Some? {
      OneMatchPerLength(routes, ip, a.value, b.value);
    }
  }

  /** In normalised order the longest match is the first match. */
  lemma FirstMatchIsLongest(routes: seq<InputRoute>, ip: Ip, i: nat)
    requires Normalised(routes) && Sorted(routes, RouteLe())
    requires i < |routes| && routes[i].subnet.Contains(ip)
    requires forall k :: 0 <= k < i ==> !routes[k].subnet.Contains(ip)
    ensures LongestMatch(routes, ip) == Some(routes[i])
  {
    LongestMatchIsLongest(routes, ip);
    var m := LongestMatch(routes, ip);
    assert routes[i] in routes;
    var j :| 0 <= j < |routes| && routes[j] == m.value;
    assert i < j ==> RouteLe()(routes[i], routes[j]);
    OneMatchPerLength(routes, ip, routes[i], m.value);
  }
}
