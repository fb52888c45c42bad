/** What the lease table promises to its users, in every reachable state. */
module LeaseProperties {
  import opened Wrappers
  import opened Ipv4
  import opened LeaseModel
  import opened LeaseInvariant
  import opened LeaseLinked
  import opened LeaseRuns

  // ---------- registration ----------

  /** The ownership check made after the entry has been updated never fails. */
  lemma LateOwnershipCheckPasses(t: Topology, s: State, req: Request, link: LinkId, ct: ClientType)
    requires Core(t, s) && req.device in s.devices && s.devices[req.device].ip.Some?
    ensures Keep(t, s, req, link, ct).1.Ok?
  {
    hide Core;
    ConfiguredNotForeign(t, s, req.device, s.devices[req.device].ip.value);
  }

  lemma AllocateEntryExists(t: Topology, s: State, req: Request, link: LinkId, ct: ClientType)
    requires Core(t, s)
    ensures AllocateIp(t, s, req, link, ct).1.Ok? ==> req.device in AllocateIp(t, s, req, link, ct).0.devices
  {
    hide Addresses, Attachments, AllocateIp;
    AllocateIpGrants(t, s, req, link, ct);
  }

  /** A refused registration leaves the whole state as it was. */
  lemma RefusedRegistrationChangesNothing(t: Topology, s: State, req: Request, link: LinkId, ct: ClientType,
                                          instance: InstanceId)
    requires Core(t, s)
    ensures var (s', r) := Register(t, s, req, link, ct, instance);
            r.Err? ==> s' == s
  {
    hide Addresses, Attachments, Granted, AllocateIp;
    AllocateIpGrants(t, s, req, link, ct);
  }

  /**
   A granted registration makes the device live at the granted address, which it
   has configured, and reachable through the new link. Its entry is then marked
   connected, unless the link joined a pool left behind by a deleted entry.
   */
  lemma GrantedRegistrationIsLive(t: Topology, s: State, req: Request, link: LinkId, ct: ClientType,
                                  instance: InstanceId)
    requires Core(t, s)
    ensures var (s', r) := Register(t, s, req, link, ct, instance);
            r.Ok? ==>
              && Get(s'.active, r.value.ip) == Some(req.device)
              && req.device in s'.devices && s'.devices[req.device].ip == Some(r.value.ip)
              && PoolAt(s', r.value.ip).Some?
              && PoolAt(s', r.value.ip).value.OwnsLink(instance, link)
              && (s'.devices[req.device].connected <==>
                    !(JoinsPool(s, req, instance) && !s.devices[req.device].connected))
  {
    hide AllocateIp, Addresses, Attachments;
    if JoinsPool(s, req, instance) {
      ConfiguredNotForeign(t, s, req.device, req.ip.value);
      SendersAreLive(t, s, req.ip.value);
    } else {
      AllocateIpGrants(t, s, req, link, ct);
      var (s1, r) := AllocateIp(t, s, req, link, ct);
      if r.Ok? {
        assert s1.devices[req.device].connected && s1.devices[req.device].ip == Some(r.value.ip);
        hide Granted, Attach;
        AttachIsLive(s1, req.device, r.value, link, instance);
      }
    }
  }

  /** While entries and sessions agree, no registration can join the pool of an unconnected entry. */
  lemma LinkedRegistrationConnects(t: Topology, s: State, req: Request, link: LinkId, ct: ClientType,
                                   instance: InstanceId)
    requires Inv(t, s)
    ensures var (s', r) := Register(t, s, req, link, ct, instance);
            r.Ok? ==> req.device in s'.devices && s'.devices[req.device].connected
  {
    GrantedRegistrationIsLive(t, s, req, link, ct, instance);
    if JoinsPool(s, req, instance) {
      ConfiguredNotForeign(t, s, req.device, req.ip.value);
      SendersAreLive(t, s, req.ip.value);
    }
    hide Core, Register, TrafficFollows;
  }

  lemma AttachIsLive(s: State, device: DeviceId, grant: Grant, link: LinkId, instance: InstanceId)
    requires device in s.devices
    ensures var s' := Attach(s, device, grant, link, instance);
            && s'.devices == s.devices
            && Get(s'.active, grant.ip) == Some(device)
            && PoolAt(s', grant.ip).Some? && PoolAt(s', grant.ip).value.OwnsLink(instance, link)
  {
  }

  lemma SendersAreLive(t: Topology, s: State, ip: Ip)
    requires Core(t, s) && ip in s.senders
    ensures ip in s.active
  {
    hide Addresses, TrafficKeys, OwnCounters, LinksIssued, PoolsBelow, DrainsOwned, Stamped;
  }

  /** Without leave to vary, a registration gets the address it asked for; a Fixed device always gets its own. */
  lemma RegistrationGetsExpectedAddress(t: Topology, s: State, req: Request, link: LinkId, ct: ClientType,
                                        instance: InstanceId)
    ensures var (_, r) := Register(t, s, req, link, ct, instance);
            var isFixed := req.device in s.devices && s.devices[req.device].ipType.Fixed?;
            r.Ok? ==>
              && (isFixed ==> s.devices[req.device].ip == Some(r.value.ip))
              && (!isFixed && req.ip.Some? && !req.ipVariable ==> req.ip == Some(r.value.ip))
  {
  }

  // ---------- disconnect ----------

  /** A successful finalisation takes down exactly the one live address of the device, whose pool is empty. */
  lemma FinalizationIsExact(t: Topology, s: State, device: DeviceId, ip: Ip, pool: PoolId, now: nat)
    requires Core(t, s) && Drain(device, ip, pool) in s.draining
    ensures var (s', done) := FinalizeOffline(s, device, ip, pool, now);
            if done then
              && Get(s.active, ip) == Some(device)
              && PoolAt(s, ip).Some? && PoolAt(s, ip).value.links == map[]
              && s'.active == s.active - {ip} && s'.senders == s.senders - {ip} && s'.traffic == s.traffic - {ip}
              && (forall a :: a in s'.active ==> s'.active[a] != device)
              && device in s'.devices && !s'.devices[device].connected
              && (forall d :: d != device ==> Get(s'.devices, d) == Get(s.devices, d))
            else s' == s.(draining := s'.draining)
  {
    hide Core;
    var (_, done) := FinalizeOffline(s, device, ip, pool, now);
    if done {
      DrainedAddress(t, s, device, ip, pool);
    }
  }

  lemma {:induction false} ExpireAllFrame(s: State, devices: seq<DeviceId>, d: DeviceId)
    ensures var s' := ExpireAll(s, devices).0;
            && s'.devices.Keys == s.devices.Keys
            && (d in s.devices && (s.devices[d].connected || !s.devices[d].ipType.Dynamic?) ==>
                  s'.devices[d] == s.devices[d])
    decreases |devices|
  {
    if devices != [] {
      ExpireAllFrame(s, devices[..|devices| - 1], d);
    }
  }

  /** Across every possible step, a device goes offline only by finalising the disconnect of an empty pool. */
  lemma OnlyDrainedPoolsGoOffline(t: Topology, s: State, e: Event, d: DeviceId)
    requires Core(t, s) && Possible(s, e)
    requires d in s.devices && s.devices[d].connected
    requires d in Step(t, s, e).devices && !Step(t, s, e).devices[d].connected
    ensures e.OfflineFinalized? && e.device == d
    ensures Get(s.active, e.ip) == Some(d)
    ensures PoolAt(s, e.ip).Some? && PoolAt(s, e.ip).value.links == map[]
  {
    hide Core, Register, ExpireAll, Without, Reindexed, Moved, Reconfigured, UsableHost, ConflictingOwner;
    match e
    case OfflineFinalized(device, ip, pool, now) => FinalizationIsExact(t, s, device, ip, pool, now);
    case LeasesExpired(devices) => ExpireAllFrame(s.(dataVersion := s.dataVersion + 1), devices, d);
    case Registered(req, link, ct, instance) => RegistrationKeepsOthersConnected(t, s, req, link, ct, instance, d);
    case _ =>
  }

  lemma RegistrationKeepsOthersConnected(t: Topology, s: State, req: Request, link: LinkId, ct: ClientType,
                                         instance: InstanceId, d: DeviceId)
    requires Core(t, s) && d in s.devices && s.devices[d].connected
    ensures var s' := Register(t, s, req, link, ct, instance).0;
            d in s'.devices && s'.devices[d].connected
  {
    hide AllocateIp, Attach, Core, Granted;
    var (s1, r) := AllocateIp(t, s, req, link, ct);
    AllocationKeepsConnected(t, s, req, link, ct, d);
    if r.Ok? && req.device in s1.devices {
      AttachKeepsDevices(s1, req.device, r.value, link, instance);
    }
  }

  lemma AttachKeepsDevices(s: State, device: DeviceId, grant: Grant, link: LinkId, instance: InstanceId)
    requires device in s.devices
    ensures Attach(s, device, grant, link, instance).devices == s.devices
  {
  }

  lemma AllocationKeepsConnected(t: Topology, s: State, req: Request, link: LinkId, ct: ClientType, d: DeviceId)
    requires Core(t, s) && d in s.devices && s.devices[d].connected
    ensures var s1 := AllocateIp(t, s, req, link, ct).0;
            d in s1.devices && s1.devices[d].connected
  {
    hide AllocateIp, Addresses, Attachments;
    AllocateIpGrants(t, s, req, link, ct);
  }

  /**
   Whatever ran since the link was dropped: while the device has a link at its
   live address, finalising does nothing.
   */
  lemma LateFinalizationIsHarmless(t: Topology, s: State, events: seq<Event>, device: DeviceId, ip: Ip, pool: PoolId,
                                   now: nat, live: Ip)
    requires Core(t, s) && PossibleRun(t, s, events)
    requires var s1 := Exec(t, s, events);
             && Drain(device, ip, pool) in s1.draining
             && Get(s1.active, live) == Some(device)
             && PoolAt(s1, live).Some? && PoolAt(s1, live).value.links != map[]
    ensures var s1 := Exec(t, s, events);
            var (s2, done) := FinalizeOffline(s1, device, ip, pool, now);
            !done && s2 == s1.(draining := s1.draining - {Drain(device, ip, pool)})
  {
    hide Core;
    RunKeepsCore(t, s, events);
    var s1 := Exec(t, s, events);
    if FinalizeOffline(s1, device, ip, pool, now).1 {
      DrainedAddress(t, s1, device, ip, pool);
    }
  }

  // ---------- fixed addresses ----------

  /** The event is a management action on `d`, or the release of its pre-registration. */
  predicate Manages(e: Event, d: DeviceId) {
    || (e.Edited? && e.edit.device == d)
    || (e.DeviceRemoved? && e.device == d)
    || (e.PreRegistrationReleased? && e.device == d)
  }

  ghost predicate HasFixed(s: State, d: DeviceId, ip: Ip) {
    d in s.devices && s.devices[d].ipType.Fixed? && s.devices[d].ip == Some(ip)
  }

  lemma KeepLeavesOthers(t: Topology, s: State, req: Request, link: LinkId, ct: ClientType, d: DeviceId)
    requires d != req.device && req.device in s.devices
    ensures Get(Keep(t, s, req, link, ct).0.devices, d) == Get(s.devices, d)
  {
    hide FindAvailable, ConflictingOwner, Reconnected;
  }

  lemma AdoptLeavesOthers(s: State, req: Request, link: LinkId, ct: ClientType, ip: Ip, prior: Option<Ip>, d: DeviceId)
    requires d != req.device
    ensures Get(Adopt(s, req, link, ct, ip, prior).devices, d) == Get(s.devices, d)
  {
    hide Without, Reconnected, NewEntry;
  }

  lemma AllocateLeavesOthers(t: Topology, s: State, req: Request, link: LinkId, ct: ClientType, d: DeviceId)
    requires d != req.device
    ensures Get(AllocateIp(t, s, req, link, ct).0.devices, d) == Get(s.devices, d)
  {
    hide FindAvailable, ConflictingOwner, AddressRefusal, Keep, Adopt;
    if req.device in s.devices {
      KeepLeavesOthers(t, s, req, link, ct, d);
    }
    var prior := if req.device in s.devices then s.devices[req.device].ip else None;
    var wanted, free := Expected(s, req), FindAvailable(t, Taken(s));
    if wanted.Ok? && wanted.value.Some? {
      AdoptLeavesOthers(s, req, link, ct, wanted.value.value, prior, d);
    }
    if free.Ok? {
      AdoptLeavesOthers(s, req, link, ct, free.value, prior, d);
    }
  }

  lemma AllocateKeepsFixed(t: Topology, s: State, req: Request, link: LinkId, ct: ClientType, ip: Ip)
    requires HasFixed(s, req.device, ip)
    ensures HasFixed(AllocateIp(t, s, req, link, ct).0, req.device, ip)
  {
    hide FindAvailable, Without, AddressRefusal, Adopt, AdoptAnyFree;
  }

  lemma RegisterKeepsFixed(t: Topology, s: State, req: Request, link: LinkId, ct: ClientType, instance: InstanceId,
                           d: DeviceId, ip: Ip)
    requires HasFixed(s, d, ip)
    ensures HasFixed(Register(t, s, req, link, ct, instance).0, d, ip)
  {
    hide AllocateIp;
    if d == req.device {
      AllocateKeepsFixed(t, s, req, link, ct, ip);
    } else {
      AllocateLeavesOthers(t, s, req, link, ct, d);
    }
  }

  lemma StepKeepsFixed(t: Topology, s: State, e: Event, d: DeviceId, ip: Ip)
    requires HasFixed(s, d, ip) && !Manages(e, d)
    ensures HasFixed(Step(t, s, e), d, ip)
  {
    hide Register, FindAvailable, ConflictingOwner, ExpireAll, Without, Reindexed, Moved, Reconfigured, UsableHost;
    match e
    case Registered(req, link, ct, instance) => RegisterKeepsFixed(t, s, req, link, ct, instance, d, ip);
    case LeasesExpired(devices) => ExpireAllFrame(s.(dataVersion := s.dataVersion + 1), devices, d);
    case _ =>
  }

  /** Registrations, re-addressings, disconnects and lease expiry never change a Fixed address. */
  lemma {:induction false} FixedAddressStays(t: Topology, s: State, events: seq<Event>, d: DeviceId, ip: Ip)
    requires HasFixed(s, d, ip)
    requires forall i :: 0 <= i < |events| ==> !Manages(events[i], d)
    ensures HasFixed(Exec(t, s, events), d, ip)
    decreases |events|
  {
    hide Step;
    if events != [] {
      StepKeepsFixed(t, s, events[0], d, ip);
      FixedAddressStays(t, Step(t, s, events[0]), events[1..], d, ip);
    }
  }

  // ---------- allocation ----------

  /** The addresses from `lo` up to but excluding `hi`. */
  function Interval(lo: int, hi: int): set<int>
    decreases if lo < hi then hi - lo else 0
  {
    if lo >= hi then {} else {lo} + Interval(lo + 1, hi)
  }

  lemma {:induction false} IntervalSize(lo: int, hi: int)
    requires lo <= hi
    ensures |Interval(lo, hi)| == hi - lo
    ensures forall i :: i in Interval(lo, hi) <==> lo <= i < hi
    decreases hi - lo
  {
    if lo < hi {
      IntervalSize(lo + 1, hi);
    }
  }

  lemma NoneFreeMeansFull(taken: set<Ip>, gateway: Ip, lo: Ip, hi: Ip)
    requires lo <= gateway < hi
    requires FirstFree(taken, gateway, lo, hi).None?
    ensures |taken| >= hi - lo - 1
  {
    FirstFreeIsLeast(taken, gateway, lo, hi);
    IntervalSize(lo, hi);
    var hosts := Interval(lo, hi) - {gateway};
    assert Interval(lo, hi) == hosts + {gateway};
    forall i | i in hosts
      ensures i in taken
    {
    }
    SubsetSize(hosts, taken);
  }

  const MAX_PREFIX := 30

  /** The network of a configured gateway, which must be a usable host of it. */
  function NetworkFromGateway(gateway: Ip, prefix: nat): Result<Net, Refusal>
    requires gateway < ADDRESS_COUNT
  {
    if prefix > MAX_PREFIX then Err(InvalidNetwork)
    else
      var net := Trunc(Net(gateway, prefix));
      if !net.Contains(gateway) || gateway == net.network || gateway == net.Broadcast() then Err(GatewayAddress)
      else Ok(net)
  }

  ghost predicate GoodTopology(t: Topology) {
    && t.net.Valid() && t.net.prefix <= MAX_PREFIX
    && t.net.Contains(t.gateway) && t.gateway != t.net.network && t.gateway != t.net.Broadcast()
  }

  /** Exactly the gateways that are hosts of a good network are admitted, with that network. */
  lemma GatewayGivesGoodTopology(gateway: Ip, prefix: nat, net: Net, isPrivate: bool)
    requires gateway < ADDRESS_COUNT
    ensures NetworkFromGateway(gateway, prefix) == Ok(net) <==>
            GoodTopology(Topology(net, gateway, isPrivate)) && net.prefix == prefix
  {
    if prefix <= MAX_PREFIX {
      var own := Trunc(Net(gateway, prefix));
      if net.Valid() && net.prefix == prefix && net.Contains(gateway) {
        SameLengthDisjoint(own, net, gateway);
      }
    }
  }

  /** The allocator finds a host whenever fewer addresses are taken than the network has usable hosts. */
  lemma AllocationIsComplete(t: Topology, taken: set<Ip>)
    requires GoodTopology(t)
    requires |taken| < Pow2(32 - t.net.prefix) - 3
    ensures FindAvailable(t, taken).Ok?
  {
    BroadcastFits(t.net);
    var lo, hi := t.net.network + 1, t.net.Broadcast();
    if FirstFree(taken, t.gateway, lo, hi).None? {
      NoneFreeMeansFull(taken, t.gateway, lo, hi);
    }
  }

  /** The address found is the lowest usable host that nobody occupies; refusal means there is none. */
  lemma AllocationIsLeast(t: Topology, taken: set<Ip>)
    requires GoodTopology(t)
    ensures match FindAvailable(t, taken)
            case Ok(ip) => t.Usable(ip) && ip !in taken && forall j :: t.Usable(j) && j !in taken ==> ip <= j
            case Err(_) => forall j :: t.Usable(j) ==> j in taken
  {
    BroadcastFits(t.net);
    FirstFreeIsLeast(taken, t.gateway, t.net.network + 1, t.net.Broadcast());
  }

  /** Below capacity no registration is refused for want of an address. */
  lemma NoExhaustionBelowCapacity(t: Topology, s: State, req: Request, link: LinkId, ct: ClientType,
                                  instance: InstanceId)
    requires GoodTopology(t) && |Taken(s)| < Pow2(32 - t.net.prefix) - 3
    ensures var (_, r) := Register(t, s, req, link, ct, instance);
            r.Err? ==> !r.error.Exhausted? && !r.error.InvalidNetwork?
  {
    AllocationIsComplete(t, Taken(s));
    hide GoodTopology, FindAvailable, Adopt;
  }
}
