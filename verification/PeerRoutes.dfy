/** Routes to the clients of peer servers. */
module PeerRoutes {
  import opened Wrappers
  import opened Ipv4
  import opened Sorting

  type PeerId = nat
  type Network = string

  const MAX_ROUTES := 5
  const DEFAULT_LATENCY := 10

  datatype Route = Route(peer: PeerId, clientLatency: nat, subnets: seq<Net>)

  datatype Client = Client(ip: Ip, latency: nat, subnets: seq<Net>)

  datatype NetworkInfo = NetworkInfo(code: Network, clients: seq<Client>)

  type Latencies = map<PeerId, nat>
  type RouteMap = map<Ip, seq<Route>>

  function PeerOf(): Route -> PeerId {
    (r: Route) => r.peer
  }

  function TotalLatency(lat: Latencies, r: Route): nat {
    (if r.peer in lat then lat[r.peer] else DEFAULT_LATENCY) + r.clientLatency + 2
  }

  function FasterOrEqual(lat: Latencies): (Route, Route) -> bool {
    (a: Route, b: Route) => TotalLatency(lat, a) <= TotalLatency(lat, b)
  }

  /** A route is as slow as its peer was last measured, or 10 if never, plus what the peer reports, plus 2. */
  lemma LatencyAddsUp(lat: Latencies, r: Route, p: PeerId, measured: nat)
    ensures p == r.peer ==> TotalLatency(lat[p := measured], r) == measured + r.clientLatency + 2
    ensures p != r.peer ==> TotalLatency(lat[p := measured], r) == TotalLatency(lat, r)
    ensures r.peer !in lat ==> TotalLatency(lat, r) == 12 + r.clientLatency
  {
  }

  // ---------- one address ----------

  /** The peer's route is overwritten where it stands, or appended. */
  function Place(routes: seq<Route>, r: Route): seq<Route> {
    if routes == [] then [r]
    else if routes[0].peer == r.peer then [r] + routes[1..]
    else [routes[0]] + Place(routes[1..], r)
  }

  function Fastest(lat: Latencies, routes: seq<Route>): seq<Route> {
    var sorted := Sort(routes, FasterOrEqual(lat));
    if |sorted| <= MAX_ROUTES then sorted else sorted[..MAX_ROUTES]
  }

  function Update(lat: Latencies, routes: seq<Route>, r: Route): seq<Route> {
    Fastest(lat, Place(routes, r))
  }

  function WithoutPeer(routes: seq<Route>, peer: PeerId): seq<Route> {
    if routes == [] then []
    else if routes[0].peer == peer then WithoutPeer(routes[1..], peer)
    else [routes[0]] + WithoutPeer(routes[1..], peer)
  }

  predicate Via(routes: seq<Route>, peer: PeerId) {
    exists i :: 0 <= i < |routes| && routes[i].peer == peer
  }

  /** One to five routes, at most one per peer. */
  ghost predicate GoodRoutes(routes: seq<Route>) {
    0 < |routes| <= MAX_ROUTES && DistinctBy(routes, PeerOf())
  }

  lemma {:induction false} PlaceKeepsDistinct(routes: seq<Route>, r: Route)
    requires DistinctBy(routes, PeerOf())
    ensures DistinctBy(Place(routes, r), PeerOf()) && |routes| <= |Place(routes, r)| <= |routes| + 1
    ensures forall x :: x in Place(routes, r) <==> x == r || (x in routes && x.peer != r.peer)
  {
    if routes != [] {
      var rest := routes[1..];
      assert routes == [routes[0]] + rest;
      forall x | x in rest
        ensures x.peer != routes[0].peer
      {
        var k :| 0 <= k < |rest| && rest[k] == x;
        assert routes[k + 1] == x && PeerOf()(routes[0]) != PeerOf()(routes[k + 1]);
      }
      if routes[0].peer != r.peer {
        PlaceKeepsDistinct(rest, r);
        var placed := Place(rest, r);
        forall k | 0 <= k < |placed|
          ensures placed[k].peer != routes[0].peer
        {
          assert placed[k] in placed;
        }
      } else {
        forall k | 0 <= k < |rest|
          ensures rest[k].peer != r.peer
        {
          assert rest[k] in rest;
        }
      }
    }
  }

  /** The route is listed, or five routes at least as fast are. */
  ghost predicate KeptOrDisplaced(lat: Latencies, routes: seq<Route>, r: Route) {
    r in routes || (|routes| == MAX_ROUTES && forall x <- routes :: TotalLatency(lat, x) <= TotalLatency(lat, r))
  }

  lemma FastestKeeps(lat: Latencies, routes: seq<Route>, r: Route)
    requires r in routes
    ensures KeptOrDisplaced(lat, Fastest(lat, routes), r)
  {
    var le := FasterOrEqual(lat);
    SortPermutes(routes, le);
    SortSorts(routes, le);
    var sorted, kept := Sort(routes, le), Fastest(lat, routes);
    var j :| 0 <= j < |sorted| && sorted[j] == r;
    if j < |kept| {
      assert kept[j] == r;
    } else {
      forall x | x in kept
        ensures TotalLatency(lat, x) <= TotalLatency(lat, r)
      {
        var i :| 0 <= i < |kept| && kept[i] == x;
        assert le(sorted[i], sorted[j]);
      }
    }
  }

  lemma FastestIsGood(lat: Latencies, routes: seq<Route>)
    requires DistinctBy(routes, PeerOf()) && routes != []
    ensures GoodRoutes(Fastest(lat, routes))
    ensures forall x <- Fastest(lat, routes) :: x in routes
  {
    var le := FasterOrEqual(lat);
    SortKeepsDistinct(routes, le, PeerOf());
    SortPermutes(routes, le);
    var sorted, kept := Sort(routes, le), Fastest(lat, routes);
    forall x | x in kept
      ensures x in sorted
    {
      var i :| 0 <= i < |kept| && kept[i] == x;
      assert sorted[i] == x;
    }
    forall i, k | 0 <= i < k < |kept|
      ensures PeerOf()(kept[i]) != PeerOf()(kept[k])
    {
      assert PeerOf()(sorted[i]) != PeerOf()(sorted[k]);
    }
  }

  /**
   After an update the list is good and holds nothing but the new route and the
   other peers' routes, each of which is there unless five routes at least as
   fast are.
   */
  lemma UpdateIsGood(lat: Latencies, routes: seq<Route>, r: Route)
    requires DistinctBy(routes, PeerOf())
    ensures GoodRoutes(Update(lat, routes, r))
    ensures forall x <- Update(lat, routes, r) :: x == r || (x in routes && x.peer != r.peer)
    ensures KeptOrDisplaced(lat, Update(lat, routes, r), r)
    ensures forall x <- routes :: x.peer != r.peer ==> KeptOrDisplaced(lat, Update(lat, routes, r), x)
  {
    hide Fastest, KeptOrDisplaced;
    var placed := Place(routes, r);
    PlaceKeepsDistinct(routes, r);
    FastestIsGood(lat, placed);
    forall x | x in placed
      ensures KeptOrDisplaced(lat, Update(lat, routes, r), x)
    {
      FastestKeeps(lat, placed, x);
    }
  }

  lemma {:induction false} WithoutPeerIsFilter(routes: seq<Route>, peer: PeerId)
    ensures forall x :: x in WithoutPeer(routes, peer) <==> x in routes && x.peer != peer
    ensures |WithoutPeer(routes, peer)| <= |routes|
  {
    if routes != [] {
      assert routes == [routes[0]] + routes[1..];
      WithoutPeerIsFilter(routes[1..], peer);
    }
  }

  lemma {:induction false} WithoutPeerKeepsDistinct(routes: seq<Route>, peer: PeerId)
    requires DistinctBy(routes, PeerOf())
    ensures DistinctBy(WithoutPeer(routes, peer), PeerOf())
  {
    if routes != [] {
      var rest := routes[1..];
      var kept := WithoutPeer(rest, peer);
      WithoutPeerIsFilter(rest, peer);
      WithoutPeerKeepsDistinct(rest, peer);
      forall k | 0 <= k < |kept|
        ensures routes[0].peer != kept[k].peer
      {
        assert kept[k] in kept;
        var m :| 0 <= m < |rest| && rest[m] == kept[k];
        assert PeerOf()(routes[0]) != PeerOf()(routes[m + 1]);
      }
    }
  }

  lemma {:induction false} WithoutAbsentPeer(routes: seq<Route>, peer: PeerId)
    requires !Via(routes, peer)
    ensures WithoutPeer(routes, peer) == routes
  {
    if routes != [] {
      assert forall k :: 0 <= k < |routes[1..]| ==> routes[1..][k] == routes[k + 1];
      assert !Via(routes[1..], peer);
      WithoutAbsentPeer(routes[1..], peer);
    }
  }

  // ---------- one network ----------

  function AddClient(lat: Latencies, m: RouteMap, peer: PeerId, c: Client): RouteMap {
    var r := Route(peer, c.latency, c.subnets);
    m[c.ip := if c.ip in m then Update(lat, m[c.ip], r) else [r]]
  }

  function AddClients(lat: Latencies, m: RouteMap, peer: PeerId, clients: seq<Client>): RouteMap
    decreases |clients|
  {
    if clients == [] then m
    else AddClient(lat, AddClients(lat, m, peer, clients[..|clients| - 1]), peer, clients[|clients| - 1])
  }

  function Listed(clients: seq<Client>): set<Ip> {
    set i | 0 <= i < |clients| :: clients[i].ip
  }

  function KeptRoutes(m: RouteMap, peer: PeerId, listed: set<Ip>, ip: Ip): seq<Route>
    requires ip in m
  {
    if ip in listed then m[ip] else WithoutPeer(m[ip], peer)
  }

  /** Drops the peer's routes to addresses outside `listed`, and addresses without routes. */
  function Retain(m: RouteMap, peer: PeerId, listed: set<Ip>): RouteMap {
    map ip | ip in m && KeptRoutes(m, peer, listed, ip) != [] :: KeptRoutes(m, peer, listed, ip)
  }

  function SyncNetwork(lat: Latencies, m: RouteMap, peer: PeerId, clients: seq<Client>): RouteMap {
    Retain(AddClients(lat, m, peer, clients), peer, Listed(clients))
  }

  ghost predicate GoodMap(m: RouteMap) {
    forall ip <- m :: GoodRoutes(m[ip])
  }

  lemma {:induction false} AddClientsIsGood(lat: Latencies, m: RouteMap, peer: PeerId, clients: seq<Client>)
    requires GoodMap(m)
    ensures GoodMap(AddClients(lat, m, peer, clients))
    decreases |clients|
  {
    if clients != [] {
      var front, c := clients[..|clients| - 1], clients[|clients| - 1];
      AddClientsIsGood(lat, m, peer, front);
      var m' := AddClients(lat, m, peer, front);
      hide Update;
      if c.ip in m' {
        UpdateIsGood(lat, m'[c.ip], Route(peer, c.latency, c.subnets));
      }
    }
  }

  lemma RetainIsGood(m: RouteMap, peer: PeerId, listed: set<Ip>)
    requires GoodMap(m)
    ensures GoodMap(Retain(m, peer, listed))
    ensures forall ip <- Retain(m, peer, listed) :: Via(Retain(m, peer, listed)[ip], peer) ==> ip in listed
  {
    hide WithoutPeer;
    var m' := Retain(m, peer, listed);
    forall ip | ip in m'
      ensures GoodRoutes(m'[ip]) && (Via(m'[ip], peer) ==> ip in listed)
    {
      WithoutPeerIsFilter(m[ip], peer);
      WithoutPeerKeepsDistinct(m[ip], peer);
    }
  }

  /** After a network has been synchronised its table is good and the peer is routed only to what it listed. */
  lemma SyncNetworkIsGood(lat: Latencies, m: RouteMap, peer: PeerId, clients: seq<Client>)
    requires GoodMap(m)
    ensures GoodMap(SyncNetwork(lat, m, peer, clients))
    ensures forall ip <- SyncNetwork(lat, m, peer, clients) ::
              Via(SyncNetwork(lat, m, peer, clients)[ip], peer) ==> ip in Listed(clients)
  {
    hide Retain, AddClients;
    AddClientsIsGood(lat, m, peer, clients);
    RetainIsGood(AddClients(lat, m, peer, clients), peer, Listed(clients));
  }

  /** The client at `k` is the last one listed with its address. */
  ghost predicate LastListing(clients: seq<Client>, k: nat) {
    k < |clients| && forall j :: k < j < |clients| ==> clients[j].ip != clients[k].ip
  }

  lemma {:induction false} AddedClientIsRouted(lat: Latencies, m: RouteMap, peer: PeerId, clients: seq<Client>, k: nat)
    requires GoodMap(m) && LastListing(clients, k)
    ensures var m', c := AddClients(lat, m, peer, clients), clients[k];
            c.ip in m' && m'[c.ip] != [] && KeptOrDisplaced(lat, m'[c.ip], Route(peer, c.latency, c.subnets))
    decreases |clients|
  {
    hide KeptOrDisplaced, Update;
    var front, c := clients[..|clients| - 1], clients[|clients| - 1];
    var m' := AddClients(lat, m, peer, front);
    AddClientsIsGood(lat, m, peer, front);
    if k < |clients| - 1 {
      AddedClientIsRouted(lat, m, peer, front, k);
    } else {
      var r := Route(peer, c.latency, c.subnets);
      if c.ip in m' {
        UpdateIsGood(lat, m'[c.ip], r);
      } else {
        SingleIsKept(lat, r);
      }
    }
  }

  lemma SingleIsKept(lat: Latencies, r: Route)
    ensures KeptOrDisplaced(lat, [r], r)
  {
  }

  /** Every client of a response is routed as last listed, unless five routes at least as fast are known. */
  lemma ListedClientIsRouted(lat: Latencies, m: RouteMap, peer: PeerId, clients: seq<Client>, k: nat)
    requires GoodMap(m) && LastListing(clients, k)
    ensures var m', c := SyncNetwork(lat, m, peer, clients), clients[k];
            c.ip in m' && KeptOrDisplaced(lat, m'[c.ip], Route(peer, c.latency, c.subnets))
  {
    hide KeptOrDisplaced, AddClients;
    AddedClientIsRouted(lat, m, peer, clients, k);
    assert clients[k].ip in Listed(clients);
  }

  // ---------- the routes of other peers ----------

  /** `x` is listed, or five routes are: one via `peer`, and those of other peers at least as fast as `x`. */
  ghost predicate KeptOrCrowded(lat: Latencies, routes: seq<Route>, peer: PeerId, x: Route) {
    || x in routes
    || (&& |routes| == MAX_ROUTES && Via(routes, peer)
        && forall y <- routes :: y.peer != peer ==> TotalLatency(lat, y) <= TotalLatency(lat, x))
  }

  /** At most one of six routes is dropped. */
  lemma FastestDropsOne(lat: Latencies, routes: seq<Route>, a: Route, b: Route)
    requires |routes| <= MAX_ROUTES + 1 && a in routes && b in routes && a != b
    ensures a in Fastest(lat, routes) || b in Fastest(lat, routes)
  {
    var sorted := Sort(routes, FasterOrEqual(lat));
    SortPermutes(routes, FasterOrEqual(lat));
    hide Sort;
    if |sorted| > MAX_ROUTES {
      LastOfSix(sorted, a, b);
    }
  }

  lemma LastOfSix(routes: seq<Route>, a: Route, b: Route)
    requires |routes| == MAX_ROUTES + 1 && a in routes && b in routes && a != b
    ensures a in routes[..MAX_ROUTES] || b in routes[..MAX_ROUTES]
  {
    assert routes == routes[..MAX_ROUTES] + [routes[MAX_ROUTES]];
  }

  lemma FastestSize(lat: Latencies, routes: seq<Route>)
    ensures |Fastest(lat, routes)| == if |routes| <= MAX_ROUTES then |routes| else MAX_ROUTES
    ensures |routes| <= MAX_ROUTES ==> forall r <- routes :: r in Fastest(lat, routes)
  {
    SortPermutes(routes, FasterOrEqual(lat));
  }

  lemma UpdateCrowds(lat: Latencies, routes: seq<Route>, r: Route, x: Route)
    requires GoodRoutes(routes) && x.peer != r.peer && KeptOrCrowded(lat, routes, r.peer, x)
    ensures KeptOrCrowded(lat, Update(lat, routes, r), r.peer, x)
  {
    PlaceKeepsDistinct(routes, r);
    FastestSize(lat, Place(routes, r));
    UpdateIsGood(lat, routes, r);
    var u := Update(lat, routes, r);
    if x in routes {
      FastestDropsOne(lat, Place(routes, r), x, r);
      assert KeptOrDisplaced(lat, u, x);
    } else {
      PlaceSize(routes, r);
    }
    hide Fastest, GoodRoutes, Place;
    if x !in u {
      var i :| 0 <= i < |u| && u[i] == r;
    }
  }

  lemma {:induction false} AddClientsFrame(lat: Latencies, m: RouteMap, peer: PeerId, clients: seq<Client>, ip: Ip)
    requires forall k :: 0 <= k < |clients| ==> clients[k].ip != ip
    ensures Get(AddClients(lat, m, peer, clients), ip) == Get(m, ip)
    decreases |clients|
  {
    if clients != [] {
      AddClientsFrame(lat, m, peer, clients[..|clients| - 1], ip);
    }
  }

  lemma {:induction false} AddClientsCrowds(lat: Latencies, m: RouteMap, peer: PeerId, clients: seq<Client>, ip: Ip,
                                            x: Route)
    requires GoodMap(m) && ip in m && x in m[ip] && x.peer != peer
    ensures var m' := AddClients(lat, m, peer, clients);
            ip in m' && KeptOrCrowded(lat, m'[ip], peer, x)
    decreases |clients|
  {
    hide KeptOrCrowded, Update;
    if clients == [] {
      PresentIsKept(lat, m[ip], peer, x);
    } else {
      var front, c := clients[..|clients| - 1], clients[|clients| - 1];
      AddClientsCrowds(lat, m, peer, front, ip, x);
      AddClientsIsGood(lat, m, peer, front);
      if c.ip == ip {
        UpdateCrowds(lat, AddClients(lat, m, peer, front)[ip], Route(peer, c.latency, c.subnets), x);
      }
    }
  }

  lemma PresentIsKept(lat: Latencies, routes: seq<Route>, peer: PeerId, x: Route)
    requires x in routes
    ensures KeptOrCrowded(lat, routes, peer, x) && KeptOrDisplaced(lat, routes, x)
  {
  }

  /** Another peer's route survives a response, or is crowded out by the peer and by others at least as fast. */
  lemma OtherRouteSurvives(lat: Latencies, m: RouteMap, peer: PeerId, clients: seq<Client>, ip: Ip, x: Route)
    requires GoodMap(m) && ip in m && x in m[ip] && x.peer != peer
    ensures var m' := SyncNetwork(lat, m, peer, clients);
            ip in m' && KeptOrCrowded(lat, m'[ip], peer, x)
  {
    hide AddClients;
    AddClientsCrowds(lat, m, peer, clients, ip, x);
    if ip !in Listed(clients) {
      AddClientsFrame(lat, m, peer, clients, ip);
      WithoutPeerIsFilter(m[ip], peer);
    }
  }

  lemma {:induction false} AddedOnceDisplaces(lat: Latencies, m: RouteMap, peer: PeerId, clients: seq<Client>, ip: Ip,
                                              x: Route)
    requires GoodMap(m) && ip in m && x in m[ip] && x.peer != peer
    requires forall i, j :: 0 <= i < j < |clients| ==> !(clients[i].ip == ip && clients[j].ip == ip)
    ensures var m' := AddClients(lat, m, peer, clients);
            ip in m' && m'[ip] != [] && KeptOrDisplaced(lat, m'[ip], x)
    decreases |clients|
  {
    hide KeptOrDisplaced, Update;
    if clients == [] {
      PresentIsKept(lat, m[ip], peer, x);
    } else {
      var front, c := clients[..|clients| - 1], clients[|clients| - 1];
      AddClientsIsGood(lat, m, peer, front);
      if c.ip == ip {
        AddClientsFrame(lat, m, peer, front, ip);
        UpdateIsGood(lat, m[ip], Route(peer, c.latency, c.subnets));
      } else {
        AddedOnceDisplaces(lat, m, peer, front, ip, x);
      }
    }
  }

  /** If no address is listed twice, it survives or five routes at least as fast are known. */
  lemma OnceListedKeepsFaster(lat: Latencies, m: RouteMap, peer: PeerId, clients: seq<Client>, ip: Ip, x: Route)
    requires GoodMap(m) && ip in m && x in m[ip] && x.peer != peer
    requires forall i, j :: 0 <= i < j < |clients| ==> !(clients[i].ip == ip && clients[j].ip == ip)
    ensures var m' := SyncNetwork(lat, m, peer, clients);
            ip in m' && KeptOrDisplaced(lat, m'[ip], x)
  {
    hide AddClients, KeptOrDisplaced;
    AddedOnceDisplaces(lat, m, peer, clients, ip, x);
    if ip !in Listed(clients) {
      AddClientsFrame(lat, m, peer, clients, ip);
      WithoutPeerIsFilter(m[ip], peer);
      PresentIsKept(lat, WithoutPeer(m[ip], peer), peer, x);
    }
  }

  lemma {:induction false} PeerRouteIsLastListing(lat: Latencies, m: RouteMap, peer: PeerId, clients: seq<Client>,
                                                  k: nat)
    requires GoodMap(m) && LastListing(clients, k)
    ensures var m', c := AddClients(lat, m, peer, clients), clients[k];
            c.ip in m' && forall y <- m'[c.ip] :: y.peer == peer ==> y == Route(peer, c.latency, c.subnets)
    decreases |clients|
  {
    hide Update;
    var front, c := clients[..|clients| - 1], clients[|clients| - 1];
    var m' := AddClients(lat, m, peer, front);
    AddClientsIsGood(lat, m, peer, front);
    if k < |clients| - 1 {
      PeerRouteIsLastListing(lat, m, peer, front, k);
    } else if c.ip in m' {
      UpdateIsGood(lat, m'[c.ip], Route(peer, c.latency, c.subnets));
    }
  }

  /** A route that is lost has given way to five at least as fast exactly if the last listing is one of them. */
  lemma LostRouteIsDisplacedIff(lat: Latencies, m: RouteMap, peer: PeerId, clients: seq<Client>, k: nat, x: Route)
    requires GoodMap(m) && LastListing(clients, k) && clients[k].ip in m && x in m[clients[k].ip] && x.peer != peer
    ensures var m', c := SyncNetwork(lat, m, peer, clients), clients[k];
            && c.ip in m'
            && (x !in m'[c.ip] ==>
                  (KeptOrDisplaced(lat, m'[c.ip], x) <==>
                     TotalLatency(lat, Route(peer, c.latency, c.subnets)) <= TotalLatency(lat, x)))
  {
    hide AddClients, TotalLatency;
    OtherRouteSurvives(lat, m, peer, clients, clients[k].ip, x);
    PeerRouteIsLastListing(lat, m, peer, clients, k);
    assert clients[k].ip in Listed(clients);
    var u := SyncNetwork(lat, m, peer, clients)[clients[k].ip];
    if x !in u {
      var i :| 0 <= i < |u| && u[i].peer == peer;
      assert u[i] in u;
    }
  }

  lemma SlowestIsDropped(lat: Latencies, routes: seq<Route>, x: Route)
    requires DistinctBy(routes, PeerOf()) && |routes| > MAX_ROUTES
    requires forall y <- routes :: y != x ==> TotalLatency(lat, y) < TotalLatency(lat, x)
    ensures x !in Fastest(lat, routes)
  {
    var le := FasterOrEqual(lat);
    SortPermutes(routes, le);
    SortSorts(routes, le);
    SortKeepsDistinct(routes, le, PeerOf());
    var sorted := Sort(routes, le);
    forall i | 0 <= i < MAX_ROUTES
      ensures sorted[i] != x
    {
      assert le(sorted[i], sorted[MAX_ROUTES]) && sorted[MAX_ROUTES] in routes;
      assert PeerOf()(sorted[i]) != PeerOf()(sorted[MAX_ROUTES]);
    }
  }

  /**
   Listing one address twice can cost another peer's faster route: of five routes
   the slowest gives way to the first, fast listing, and the second, slow listing
   then takes over the first one's place.
   */
  lemma TwiceListedLosesFaster(ip: Ip)
    ensures var m, x := map[ip := FIVE], FIVE[4];
            var m' := SyncNetwork(map[], m, 6, [Client(ip, 0, []), Client(ip, 100, [])]);
            && GoodMap(m)
            && ip in m' && x !in m'[ip] && Route(6, 100, []) in m'[ip]
            && TotalLatency(map[], x) < TotalLatency(map[], Route(6, 100, []))
  {
    hide Update, TotalLatency;
    FiveRoutes();
    FirstListing(map[], FIVE, Route(6, 0, []), FIVE[4]);
    SecondListing(Update(map[], FIVE, Route(6, 0, [])));
    TwoListings(map[], map[ip := FIVE], 6, Client(ip, 0, []), Client(ip, 100, []));
    hide SyncNetwork, GoodRoutes;
    SlowSecond();
  }

  lemma SlowSecond()
    ensures TotalLatency(map[], FIVE[4]) < TotalLatency(map[], Route(6, 100, []))
  {
  }

  lemma TwoListings(lat: Latencies, m: RouteMap, peer: PeerId, a: Client, b: Client)
    requires GoodMap(m) && a.ip in m && b.ip == a.ip
    ensures var m' := SyncNetwork(lat, m, peer, [a, b]);
            && a.ip in m'
            && m'[a.ip] ==
               Update(lat, Update(lat, m[a.ip], Route(peer, a.latency, a.subnets)), Route(peer, b.latency, b.subnets))
  {
    hide Update;
    var clients := [a, b];
    var first := Update(lat, m[a.ip], Route(peer, a.latency, a.subnets));
    UpdateIsGood(lat, m[a.ip], Route(peer, a.latency, a.subnets));
    UpdateIsGood(lat, first, Route(peer, b.latency, b.subnets));
    assert clients[..1] == [a] && [a][..0] == [];
    assert AddClients(lat, m, peer, []) == m;
    assert AddClients(lat, m, peer, [a]) == m[a.ip := first];
    assert clients[0].ip in Listed(clients);
  }

  const FIVE := [Route(1, 1, []), Route(2, 2, []), Route(3, 3, []), Route(4, 4, []), Route(5, 5, [])]

  lemma FiveRoutes()
    ensures GoodRoutes(FIVE) && FIVE[4] in FIVE
    ensures forall y <- FIVE :: y.peer != 6 && TotalLatency(map[], y) > TotalLatency(map[], Route(6, 0, []))
    ensures forall y <- FIVE :: y != FIVE[4] ==> TotalLatency(map[], y) < TotalLatency(map[], FIVE[4])
  {
    forall y | y in FIVE
      ensures y.peer != 6 && TotalLatency(map[], y) > TotalLatency(map[], Route(6, 0, []))
      ensures y != FIVE[4] ==> TotalLatency(map[], y) < TotalLatency(map[], FIVE[4])
    {
      var i :| 0 <= i < |FIVE| && FIVE[i] == y;
    }
  }

  /** Of five routes the slowest gives way to a new one that is faster than all. */
  lemma FirstListing(lat: Latencies, routes: seq<Route>, r: Route, x: Route)
    requires GoodRoutes(routes) && |routes| == MAX_ROUTES && x in routes
    requires forall y <- routes :: y.peer != r.peer && TotalLatency(lat, y) > TotalLatency(lat, r)
    requires forall y <- routes :: y != x ==> TotalLatency(lat, y) < TotalLatency(lat, x)
    ensures var u := Update(lat, routes, r);
            GoodRoutes(u) && x !in u && Via(u, r.peer)
  {
    assert forall k :: 0 <= k < |routes| ==> routes[k] in routes;
    PlaceAt(routes, r, |routes|);
    PlaceKeepsDistinct(routes, r);
    SlowestIsDropped(lat, routes + [r], x);
    UpdateIsGood(lat, routes, r);
    hide Fastest, Place;
    var u := Update(lat, routes, r);
    assert u[0] in u;
    assert r in u;
    var i :| 0 <= i < |u| && u[i] == r;
  }

  lemma SecondListing(u: seq<Route>)
    requires GoodRoutes(u) && Via(u, 6) && FIVE[4] !in u
    ensures var u' := Update(map[], u, Route(6, 100, []));
            FIVE[4] !in u' && Route(6, 100, []) in u' && u' != []
  {
    var r := Route(6, 100, []);
    UpdateIsGood(map[], u, r);
    PlaceKeepsDistinct(u, r);
    PlaceSize(u, r);
    FastestSize(map[], Place(u, r));
  }

  lemma {:induction false} PlaceSize(routes: seq<Route>, r: Route)
    requires Via(routes, r.peer)
    ensures |Place(routes, r)| == |routes|
  {
    if routes[0].peer != r.peer {
      var i :| 0 <= i < |routes| && routes[i].peer == r.peer;
      assert routes[1..][i - 1] == routes[i];
      PlaceSize(routes[1..], r);
    }
  }

  /** Synchronising with one peer adds no route of another. */
  lemma {:induction false} SyncAddsOnlyPeer(lat: Latencies, m: RouteMap, peer: PeerId, clients: seq<Client>,
                                            other: PeerId, ip: Ip)
    requires GoodMap(m) && other != peer
    ensures var m' := AddClients(lat, m, peer, clients);
            ip in m' && Via(m'[ip], other) ==> ip in m && Via(m[ip], other)
    decreases |clients|
  {
    if clients != [] {
      var front, c := clients[..|clients| - 1], clients[|clients| - 1];
      SyncAddsOnlyPeer(lat, m, peer, front, other, ip);
      AddClientsIsGood(lat, m, peer, front);
      var m', r := AddClients(lat, m, peer, front), Route(peer, c.latency, c.subnets);
      hide Update;
      if c.ip in m' {
        UpdateIsGood(lat, m'[c.ip], r);
        var updated := Update(lat, m'[c.ip], r);
        if c.ip == ip && Via(updated, other) {
          var i :| 0 <= i < |updated| && updated[i].peer == other;
          assert updated[i] in updated && updated[i] in m'[ip];
        }
      }
    }
  }

  // ---------- all networks and peers ----------

  /**
   `tracked` holds, for each running connection loop, the networks it has reported
   on; `known` all peers ever seen.
   */
  datatype State = State(
    routes: map<Network, RouteMap>,
    tracked: map<PeerId, set<Network>>,
    latencies: Latencies,
    known: set<PeerId>)

  const NO_PEERS := State(map[], map[], map[], {})

  function RoutesIn(routes: map<Network, RouteMap>, n: Network): RouteMap {
    if n in routes then routes[n] else map[]
  }

  function SyncOne(s: State, peer: PeerId, info: NetworkInfo): State
    requires peer in s.tracked
  {
    s.(tracked := s.tracked[peer := s.tracked[peer] + {info.code}],
       routes := s.routes[info.code := SyncNetwork(s.latencies, RoutesIn(s.routes, info.code), peer, info.clients)])
  }

  function SyncAll(s: State, peer: PeerId, infos: seq<NetworkInfo>): (r: State)
    requires peer in s.tracked
    ensures peer in r.tracked
    decreases |infos|
  {
    if infos == [] then s else SyncOne(SyncAll(s, peer, infos[..|infos| - 1]), peer, infos[|infos| - 1])
  }

  /** Drops the peer's routes in the given networks. */
  function CleanupRoutes(routes: map<Network, RouteMap>, peer: PeerId, codes: set<Network>): map<Network, RouteMap> {
    map n | n in routes :: if n in codes then Retain(routes[n], peer, {}) else routes[n]
  }

  function EndLoop(s: State, peer: PeerId): State
    requires peer in s.tracked
  {
    s.(routes := CleanupRoutes(s.routes, peer, s.tracked[peer]), tracked := s.tracked - {peer})
  }

  /** Drops the peer's routes everywhere, and networks left without addresses. */
  function CleanupAllRoutes(routes: map<Network, RouteMap>, peer: PeerId): map<Network, RouteMap> {
    map n | n in routes && Retain(routes[n], peer, {}) != map[] :: Retain(routes[n], peer, {})
  }

  ghost predicate Routed(routes: map<Network, RouteMap>, n: Network, ip: Ip, peer: PeerId) {
    n in routes && ip in routes[n] && Via(routes[n][ip], peer)
  }

  /** Tables are good, and a peer is routed only in networks that its running loop has reported on. */
  ghost predicate Inv(s: State) {
    && (forall n <- s.routes :: GoodMap(s.routes[n]))
    && (forall n, ip, p :: Routed(s.routes, n, ip, p) ==> p in s.tracked && n in s.tracked[p])
    && s.tracked.Keys <= s.known
  }

  lemma RetainDropsOnlyPeer(m: RouteMap, peer: PeerId, listed: set<Ip>, ip: Ip, other: PeerId)
    requires ip in Retain(m, peer, listed) && Via(Retain(m, peer, listed)[ip], other)
    ensures ip in m && Via(m[ip], other)
  {
    var kept := Retain(m, peer, listed)[ip];
    WithoutPeerIsFilter(m[ip], peer);
    var i :| 0 <= i < |kept| && kept[i].peer == other;
    assert kept[i] in kept && kept[i] in m[ip];
  }

  lemma SyncNetworkKeepsOthers(lat: Latencies, m: RouteMap, peer: PeerId, clients: seq<Client>, other: PeerId, ip: Ip)
    requires GoodMap(m) && other != peer
    ensures var m' := SyncNetwork(lat, m, peer, clients);
            ip in m' && Via(m'[ip], other) ==> ip in m && Via(m[ip], other)
  {
    hide Retain, AddClients;
    var m', added := SyncNetwork(lat, m, peer, clients), AddClients(lat, m, peer, clients);
    if ip in m' && Via(m'[ip], other) {
      RetainDropsOnlyPeer(added, peer, Listed(clients), ip, other);
      SyncAddsOnlyPeer(lat, m, peer, clients, other, ip);
    }
  }

  lemma SyncOneKeepsInv(s: State, peer: PeerId, info: NetworkInfo)
    requires Inv(s) && peer in s.tracked
    ensures Inv(SyncOne(s, peer, info))
    ensures forall ip :: Routed(SyncOne(s, peer, info).routes, info.code, ip, peer) ==> ip in Listed(info.clients)
  {
    hide SyncNetwork, Via, GoodMap;
    var s', m := SyncOne(s, peer, info), RoutesIn(s.routes, info.code);
    assert GoodMap(m) by {
      if info.code !in s.routes {
        EmptyIsGood();
      }
    }
    SyncNetworkIsGood(s.latencies, m, peer, info.clients);
    forall n, ip, p | Routed(s'.routes, n, ip, p)
      ensures p in s'.tracked && n in s'.tracked[p]
    {
      if n == info.code && p != peer {
        SyncNetworkKeepsOthers(s.latencies, m, peer, info.clients, p, ip);
        assert Routed(s.routes, n, ip, p);
      } else if n != info.code {
        assert Routed(s.routes, n, ip, p);
      }
    }
  }

  lemma EmptyIsGood()
    ensures GoodMap(map[])
  {
  }

  /** The report at `k` is the last one on its network. */
  ghost predicate LastReport(infos: seq<NetworkInfo>, k: nat, n: Network) {
    k < |infos| && infos[k].code == n && forall j :: k < j < |infos| ==> infos[j].code != n
  }

  /** What a response allows: addresses in the last report on a network, or earlier routes in networks not reported. */
  ghost predicate Reported(s: State, infos: seq<NetworkInfo>, peer: PeerId, n: Network, ip: Ip) {
    || (exists k: nat :: LastReport(infos, k, n) && ip in Listed(infos[k].clients))
    || ((forall k :: 0 <= k < |infos| ==> infos[k].code != n) && Routed(s.routes, n, ip, peer))
  }

  /** After a whole response the peer is routed, in every network it reported, only to addresses of the last report. */
  lemma {:induction false} ResponseIsExact(s: State, peer: PeerId, infos: seq<NetworkInfo>)
    requires Inv(s) && peer in s.tracked
    ensures Inv(SyncAll(s, peer, infos))
    ensures forall n, ip :: Routed(SyncAll(s, peer, infos).routes, n, ip, peer) ==> Reported(s, infos, peer, n, ip)
    ensures SyncAll(s, peer, infos).tracked.Keys == s.tracked.Keys && SyncAll(s, peer, infos).known == s.known
    decreases |infos|
  {
    hide Inv;
    if infos != [] {
      var front, info := infos[..|infos| - 1], infos[|infos| - 1];
      ResponseIsExact(s, peer, front);
      var s1 := SyncAll(s, peer, front);
      SyncOneKeepsInv(s1, peer, info);
      hide SyncNetwork, Listed;
      var s2 := SyncOne(s1, peer, info);
      forall n, ip | Routed(s2.routes, n, ip, peer)
        ensures Reported(s, infos, peer, n, ip)
      {
        if n == info.code {
          assert LastReport(infos, |infos| - 1, n);
        } else {
          assert Routed(s1.routes, n, ip, peer);
          ReportedExtends(s, infos, peer, n, ip);
        }
      }
    }
  }

  lemma ReportedExtends(s: State, infos: seq<NetworkInfo>, peer: PeerId, n: Network, ip: Ip)
    requires infos != [] && infos[|infos| - 1].code != n && Reported(s, infos[..|infos| - 1], peer, n, ip)
    ensures Reported(s, infos, peer, n, ip)
  {
    hide Listed, Routed;
    var front := infos[..|infos| - 1];
    if k: nat :| LastReport(front, k, n) && ip in Listed(front[k].clients) {
      assert LastReport(infos, k, n);
    }
  }

  lemma CleanupKeepsGood(routes: map<Network, RouteMap>, peer: PeerId, codes: set<Network>, n: Network)
    requires n in routes && GoodMap(routes[n])
    ensures GoodMap(CleanupRoutes(routes, peer, codes)[n])
  {
    hide Retain;
    RetainIsGood(routes[n], peer, {});
  }

  /** At the end of a loop the networks it reported on are all that need cleaning: no route via the peer is left
      anywhere, and every other route stays in place and order. */
  lemma EndLoopIsExact(s: State, peer: PeerId, n: Network, ip: Ip)
    requires Inv(s) && peer in s.tracked
    ensures var routes' := EndLoop(s, peer).routes;
            && !Routed(routes', n, ip, peer)
            && routes'.Keys == s.routes.Keys
            && (n in s.routes ==>
                  && (ip in routes'[n] <==> ip in s.routes[n] && WithoutPeer(s.routes[n][ip], peer) != [])
                  && (ip in routes'[n] ==> routes'[n][ip] == WithoutPeer(s.routes[n][ip], peer)))
  {
    hide GoodMap, Via, WithoutPeer;
    if n in s.routes && ip in s.routes[n] {
      WithoutPeerIsFilter(s.routes[n][ip], peer);
      NotViaAfterRemoval(s.routes[n][ip], peer);
      if n !in s.tracked[peer] {
        assert !Routed(s.routes, n, ip, peer);
        WithoutAbsentPeer(s.routes[n][ip], peer);
        GoodIsNonempty(s.routes[n], ip);
      }
    }
  }

  lemma GoodIsNonempty(m: RouteMap, ip: Ip)
    requires GoodMap(m) && ip in m
    ensures m[ip] != []
  {
  }

  lemma NotViaAfterRemoval(routes: seq<Route>, peer: PeerId)
    ensures !Via(WithoutPeer(routes, peer), peer)
  {
    WithoutPeerIsFilter(routes, peer);
    var kept := WithoutPeer(routes, peer);
    assert forall i :: 0 <= i < |kept| ==> kept[i] in kept;
  }

  lemma EndLoopKeepsInv(s: State, peer: PeerId)
    requires Inv(s) && peer in s.tracked
    ensures Inv(EndLoop(s, peer))
  {
    hide GoodMap, Via, Retain;
    var s' := EndLoop(s, peer);
    forall n | n in s'.routes
      ensures GoodMap(s'.routes[n])
    {
      CleanupKeepsGood(s.routes, peer, s.tracked[peer], n);
    }
    forall n, ip, p | Routed(s'.routes, n, ip, p)
      ensures p in s'.tracked && n in s'.tracked[p]
    {
      EndLoopIsExact(s, peer, n, ip);
      if n in s.tracked[peer] {
        RetainDropsOnlyPeer(s.routes[n], peer, {}, ip, p);
      }
      assert Routed(s.routes, n, ip, p);
    }
  }

  lemma RemovalKeepsInv(s: State, peer: PeerId)
    requires Inv(s)
    ensures Inv(s.(routes := CleanupAllRoutes(s.routes, peer)))
    ensures forall n, ip :: !Routed(CleanupAllRoutes(s.routes, peer), n, ip, peer)
  {
    hide GoodMap, Via, Retain;
    var routes' := CleanupAllRoutes(s.routes, peer);
    forall n | n in routes'
      ensures GoodMap(routes'[n]) && forall ip <- routes'[n] :: !Via(routes'[n][ip], peer)
    {
      RetainIsGood(s.routes[n], peer, {});
    }
    forall n, ip, p | Routed(routes', n, ip, p)
      ensures p in s.tracked && n in s.tracked[p]
    {
      RetainDropsOnlyPeer(s.routes[n], peer, {}, ip, p);
      assert Routed(s.routes, n, ip, p);
    }
  }

  // ---------- runs ----------

  datatype Event =
    | Connected(peer: PeerId)
    | Pinged(peer: PeerId, latency: nat)
    | Responded(peer: PeerId, infos: seq<NetworkInfo>)
    | LoopEnded(peer: PeerId)
    | PeerRemoved(peer: PeerId)

  /** New connections are new peers; only running loops respond and end. */
  ghost predicate Possible(s: State, e: Event) {
    match e
    case Connected(p) => p !in s.known
    case Responded(p, _) => p in s.tracked
    case LoopEnded(p) => p in s.tracked
    case _ => true
  }

  function Step(s: State, e: Event): State {
    match e
    case Connected(p) => s.(tracked := s.tracked[p := {}], known := s.known + {p})
    case Pinged(p, latency) => s.(latencies := s.latencies[p := latency])
    case Responded(p, infos) => if p in s.tracked then SyncAll(s, p, infos) else s
    case LoopEnded(p) => if p in s.tracked then EndLoop(s, p) else s
    case PeerRemoved(p) => s.(routes := CleanupAllRoutes(s.routes, p))
  }

  lemma StepKeepsInv(s: State, e: Event)
    requires Inv(s) && Possible(s, e)
    ensures Inv(Step(s, e))
    ensures s.known <= Step(s, e).known
    ensures forall p :: p in s.known && p !in s.tracked ==> p !in Step(s, e).tracked
  {
    match e
    case Connected(p) =>
    case Pinged(p, _) =>
    case Responded(p, infos) => hide Inv; ResponseIsExact(s, p, infos);
    case LoopEnded(p) => hide Inv; EndLoopKeepsInv(s, p);
    case PeerRemoved(p) => hide Inv; RemovalKeepsInv(s, p);
  }

  function Exec(s: State, events: seq<Event>): State
    decreases |events|
  {
    if events == [] then s else Exec(Step(s, events[0]), events[1..])
  }

  ghost predicate PossibleRun(s: State, events: seq<Event>)
    decreases |events|
  {
    events != [] ==> Possible(s, events[0]) && PossibleRun(Step(s, events[0]), events[1..])
  }

  /** Over any run the tables stay good, and a peer whose loop has ended is never routed again. */
  lemma {:induction false} RunKeepsRoutes(s: State, events: seq<Event>, gone: PeerId)
    requires Inv(s) && PossibleRun(s, events)
    ensures Inv(Exec(s, events))
    ensures gone in s.known && gone !in s.tracked ==> forall n, ip :: !Routed(Exec(s, events).routes, n, ip, gone)
    decreases |events|
  {
    hide Step;
    if events != [] {
      StepKeepsInv(s, events[0]);
      hide Inv;
      RunKeepsRoutes(Step(s, events[0]), events[1..], gone);
    }
  }

  // ---------- what the events leave alone ----------

  /** A measurement counts at once for every route via the peer, and for no other; it moves no route. */
  lemma PingCounts(s: State, p: PeerId, measured: nat, r: Route)
    ensures var s' := Step(s, Pinged(p, measured));
            && s'.routes == s.routes && s'.tracked == s.tracked
            && TotalLatency(s'.latencies, r) ==
               (if r.peer == p then measured + r.clientLatency + 2 else TotalLatency(s.latencies, r))
  {
    LatencyAddsUp(s.latencies, r, p, measured);
  }

  /** A response leaves the networks it does not report on exactly as they are. */
  lemma {:induction false} ResponseLeavesOthers(s: State, peer: PeerId, infos: seq<NetworkInfo>, n: Network)
    requires peer in s.tracked && forall k :: 0 <= k < |infos| ==> infos[k].code != n
    ensures Get(SyncAll(s, peer, infos).routes, n) == Get(s.routes, n)
    ensures SyncAll(s, peer, infos).latencies == s.latencies
    decreases |infos|
  {
    hide SyncNetwork;
    if infos != [] {
      ResponseLeavesOthers(s, peer, infos[..|infos| - 1], n);
    }
  }

  /** The removal of a peer takes away exactly its routes, in every network; all others keep place and order. */
  lemma PeerRemovalIsExact(s: State, peer: PeerId, n: Network, ip: Ip)
    ensures var routes' := Step(s, PeerRemoved(peer)).routes;
            var left := if n in s.routes && ip in s.routes[n] then WithoutPeer(s.routes[n][ip], peer) else [];
            && (n in routes' && ip in routes'[n] <==> left != [])
            && (left != [] ==> routes'[n][ip] == left)
  {
    hide WithoutPeer;
    if n in s.routes && ip in s.routes[n] && WithoutPeer(s.routes[n][ip], peer) != [] {
      assert ip in Retain(s.routes[n], peer, {});
    }
  }

  // ---------- choosing a route ----------

  /** The route at `k` is this one, and every connected one before it is slower. */
  ghost predicate FirstBest(lat: Latencies, connected: set<PeerId>, routes: seq<Route>, k: int, best: Route) {
    && 0 <= k < |routes| && routes[k] == best
    && forall j :: 0 <= j < k && routes[j].peer in connected ==> TotalLatency(lat, best) < TotalLatency(lat, routes[j])
  }

  /** The first of the least-latency routes through connected peers. */
  method FindBestRoute(lat: Latencies, connected: set<PeerId>, routes: seq<Route>) returns (best: Option<Route>)
    ensures best.None? <==> forall r <- routes :: r.peer !in connected
    ensures best.Some? ==>
              && best.value in routes && best.value.peer in connected
              && forall r <- routes :: r.peer in connected ==> TotalLatency(lat, best.value) <= TotalLatency(lat, r)
    ensures best.Some? ==> exists k :: FirstBest(lat, connected, routes, k, best.value)
  {
    best := None;
    for i := 0 to |routes|
      invariant best.None? <==> forall r <- routes[..i] :: r.peer !in connected
      invariant best.Some? ==>
                  && best.value in routes[..i] && best.value.peer in connected
                  && forall r <- routes[..i] ::
                       r.peer in connected ==> TotalLatency(lat, best.value) <= TotalLatency(lat, r)
      invariant best.Some? ==> exists k :: FirstBest(lat, connected, routes, k, best.value)
    {
      assert routes[..i + 1] == routes[..i] + [routes[i]];
      if routes[i].peer in connected {
        if best.None? || TotalLatency(lat, routes[i]) < TotalLatency(lat, best.value) {
          assert forall j :: 0 <= j < i ==> routes[j] in routes[..i];
          best := Some(routes[i]);
          assert FirstBest(lat, connected, routes, i, routes[i]);
        }
      }
    }
    assert routes[..|routes|] == routes;
  }

  // ---------- the manager ----------

  lemma {:induction false} PlaceAt(routes: seq<Route>, r: Route, i: nat)
    requires i <= |routes| && forall k :: 0 <= k < i ==> routes[k].peer != r.peer
    ensures i < |routes| && routes[i].peer == r.peer ==> Place(routes, r) == routes[i := r]
    ensures i == |routes| ==> Place(routes, r) == routes + [r]
  {
    if i > 0 {
      PlaceAt(routes[1..], r, i - 1);
      assert routes == [routes[0]] + routes[1..];
      if i < |routes| && routes[i].peer == r.peer {
        assert routes[1..][i - 1] == routes[i];
        assert [routes[0]] + routes[1..][i - 1 := r] == routes[i := r];
      }
      if i == |routes| {
        assert [routes[0]] + (routes[1..] + [r]) == routes + [r];
      }
    }
  }

  class PeerServerManager {
    var ipToRoutes: map<Network, RouteMap>
    var networkCodes: map<PeerId, set<Network>>
    var latencies: Latencies
    ghost var known: set<PeerId>

    ghost function View(): State
      reads this
    {
      State(ipToRoutes, networkCodes, latencies, known)
    }

    ghost predicate Valid()
      reads this
    {
      Inv(View())
    }

    constructor ()
      ensures Valid() && View() == NO_PEERS
    {
      ipToRoutes, networkCodes, latencies, known := map[], map[], map[], {};
    }

    /** Overwrites or appends the peer's route, sorts by total latency and cuts the list to five. */
    method UpdateAddress(routes: seq<Route>, r: Route) returns (kept: seq<Route>)
      ensures kept == Update(latencies, routes, r)
    {
      var i := 0;
      while i < |routes| && routes[i].peer != r.peer
        invariant i <= |routes| && forall k :: 0 <= k < i ==> routes[k].peer != r.peer
      {
        i := i + 1;
      }
      PlaceAt(routes, r, i);
      kept := if i < |routes| then routes[i := r] else routes + [r];
      kept := Sort(kept, FasterOrEqual(latencies));
      if |kept| > MAX_ROUTES {
        kept := kept[..MAX_ROUTES];
      }
    }

    method SyncClients(m: RouteMap, peer: PeerId, clients: seq<Client>) returns (m': RouteMap, synced: set<Ip>)
      ensures m' == AddClients(latencies, m, peer, clients) && synced == Listed(clients)
    {
      m', synced := m, {};
      for i := 0 to |clients|
        invariant m' == AddClients(latencies, m, peer, clients[..i])
        invariant synced == Listed(clients[..i])
      {
        assert clients[..i + 1][..i] == clients[..i];
        var c := clients[i];
        assert Listed(clients[..i + 1]) == Listed(clients[..i]) + {c.ip} by {
          ListedGrows(clients, i);
        }
        synced := synced + {c.ip};
        var r := Route(peer, c.latency, c.subnets);
        if c.ip in m' {
          var updated := UpdateAddress(m'[c.ip], r);
          m' := m'[c.ip := updated];
        } else {
          m' := m'[c.ip := [r]];
        }
      }
      assert clients[..|clients|] == clients;
    }

    method HandleClientInfoResponse(peer: PeerId, infos: seq<NetworkInfo>)
      requires Valid() && peer in networkCodes
      modifies this
      ensures Valid()
      ensures View() == SyncAll(old(View()), peer, infos)
    {
      hide Inv, SyncNetwork;
      ResponseIsExact(View(), peer, infos);
      for i := 0 to |infos|
        invariant peer in networkCodes
        invariant View() == SyncAll(old(View()), peer, infos[..i])
      {
        assert infos[..i + 1][..i] == infos[..i];
        var info := infos[i];
        networkCodes := networkCodes[peer := networkCodes[peer] + {info.code}];
        var m := if info.code in ipToRoutes then ipToRoutes[info.code] else map[];
        var added, synced := SyncClients(m, peer, info.clients);
        var kept := Retain(added, peer, synced);
        assert kept == SyncNetwork(latencies, m, peer, info.clients) by {
          SyncUnfold(latencies, m, peer, info.clients);
        }
        ipToRoutes := ipToRoutes[info.code := kept];
      }
      assert infos[..|infos|] == infos;
    }

    /** The end of a connection loop: cleans the networks the loop has reported on. */
    method EndConnection(peer: PeerId)
      requires Valid() && peer in networkCodes
      modifies this
      ensures Valid()
      ensures View() == EndLoop(old(View()), peer)
      ensures forall n, ip :: !Routed(ipToRoutes, n, ip, peer)
    {
      hide Inv, Retain;
      ghost var s := View();
      EndLoopKeepsInv(s, peer);
      forall n, ip
        ensures !Routed(EndLoop(s, peer).routes, n, ip, peer)
      {
        EndLoopIsExact(s, peer, n, ip);
      }
      var left := networkCodes[peer];
      while left != {}
        invariant left <= s.tracked[peer]
        invariant ipToRoutes == CleanupRoutes(s.routes, peer, s.tracked[peer] - left)
        invariant networkCodes == s.tracked && latencies == s.latencies && known == s.known
        decreases left
      {
        var n :| n in left;
        if n in ipToRoutes {
          ipToRoutes := ipToRoutes[n := Retain(ipToRoutes[n], peer, {})];
        }
        left := left - {n};
      }
      assert s.tracked[peer] - left == s.tracked[peer];
      networkCodes := networkCodes - {peer};
    }
  }

  lemma ListedGrows(clients: seq<Client>, i: nat)
    requires i < |clients|
    ensures Listed(clients[..i + 1]) == Listed(clients[..i]) + {clients[i].ip}
  {
    var a, b := clients[..i], clients[..i + 1];
    assert forall k :: 0 <= k < i ==> a[k] == b[k];
    assert b[i] == clients[i];
    forall ip | ip in Listed(a)
      ensures ip in Listed(b)
    {
      var k :| 0 <= k < |a| && a[k].ip == ip;
      assert b[k].ip == ip;
    }
    assert b[i].ip in Listed(b);
  }

  lemma SyncUnfold(lat: Latencies, m: RouteMap, peer: PeerId, clients: seq<Client>)
    ensures SyncNetwork(lat, m, peer, clients) == Retain(AddClients(lat, m, peer, clients), peer, Listed(clients))
  {
  }
}
