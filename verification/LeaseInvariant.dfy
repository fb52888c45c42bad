/** The invariant of the lease table, and that every step keeps it. */
module LeaseInvariant {
  import opened Wrappers
  import opened Ipv4
  import opened LeaseModel

  /** `configured` is exactly the inverse of the devices' configured addresses. */
  ghost predicate ConfiguredInverse(devices: map<DeviceId, Entry>, configured: map<Ip, DeviceId>) {
    && (forall ip <- configured :: configured[ip] in devices && devices[configured[ip]].ip == Some(ip))
    && (forall d <- devices :: devices[d].ip.Some? ==>
          devices[d].ip.value in configured && configured[devices[d].ip.value] == d)
  }

  /** A connected device has an address configured. */
  ghost predicate ConnectedConfigured(devices: map<DeviceId, Entry>) {
    forall d <- devices :: devices[d].connected ==> devices[d].ip.Some?
  }

  ghost predicate OneActive(active: map<Ip, DeviceId>) {
    forall a, b :: a in active && b in active && active[a] == active[b] ==> a == b
  }

  /** No address is configured for one device and live for another. */
  ghost predicate Exclusive(configured: map<Ip, DeviceId>, active: map<Ip, DeviceId>) {
    forall ip :: ip in configured && ip in active ==> configured[ip] == active[ip]
  }

  ghost predicate AllUsable(t: Topology, configured: map<Ip, DeviceId>, active: map<Ip, DeviceId>) {
    && (forall ip <- configured :: t.Usable(ip))
    && (forall ip <- active :: t.Usable(ip))
  }

  /** Exactly the live addresses have a pool, which belongs to the device live there. */
  ghost predicate SendersFollow(active: map<Ip, DeviceId>, senders: map<Ip, PoolId>, pools: map<PoolId, Pool>) {
    && senders.Keys == active.Keys
    && (forall ip <- senders :: senders[ip] in pools && pools[senders[ip]].owner == active[ip])
  }

  /** Exactly the live addresses have byte counters. */
  ghost predicate TrafficKeys(active: map<Ip, DeviceId>, traffic: map<Ip, StatsId>) {
    traffic.Keys == active.Keys
  }

  ghost predicate OwnCounters(devices: map<DeviceId, Entry>, nextStats: StatsId) {
    && (forall d <- devices :: devices[d].stats < nextStats)
    && (forall c, d :: c in devices && d in devices && devices[c].stats == devices[d].stats ==> c == d)
  }

  /** Every link in a pool was handed out to the pool's own device and instance. */
  ghost predicate LinksIssued(pools: map<PoolId, Pool>, issued: map<LinkId, Ticket>) {
    forall h <- pools :: LinksOf(pools[h], issued)
  }

  ghost predicate LinksOf(pool: Pool, issued: map<LinkId, Ticket>) {
    forall r <- pool.links :: r in issued && issued[r] == Ticket(pool.owner, pool.instance)
  }

  ghost predicate PoolsBelow(pools: map<PoolId, Pool>, nextPool: PoolId) {
    forall h <- pools :: h < nextPool
  }

  ghost predicate DrainsOwned(pools: map<PoolId, Pool>, draining: set<Drain>) {
    forall k <- draining :: k.pool in pools && pools[k.pool].owner == k.device
  }

  ghost predicate Stamped(devices: map<DeviceId, Entry>, dataVersion: nat, fullSyncVersion: nat) {
    && fullSyncVersion <= dataVersion
    && (forall d <- devices :: devices[d].stamp <= dataVersion)
  }

  /** Who holds which address. */
  ghost predicate Addresses(t: Topology, s: State) {
    && ConfiguredInverse(s.devices, s.configured)
    && ConnectedConfigured(s.devices)
    && OneActive(s.active)
    && Exclusive(s.configured, s.active)
    && AllUsable(t, s.configured, s.active)
  }

  /** What hangs off the live addresses. */
  ghost predicate Attachments(s: State) {
    && SendersFollow(s.active, s.senders, s.pools)
    && TrafficKeys(s.active, s.traffic)
    && OwnCounters(s.devices, s.nextStats)
    && LinksIssued(s.pools, s.issued)
    && PoolsBelow(s.pools, s.nextPool)
    && DrainsOwned(s.pools, s.draining)
  }

  /** What every possible step keeps. */
  ghost predicate Core(t: Topology, s: State) {
    && Addresses(t, s)
    && Attachments(s)
    && Stamped(s.devices, s.dataVersion, s.fullSyncVersion)
  }

  // ---------- allocation ----------

  /** The search returns the lowest free host, and nothing only when there is none. */
  lemma {:induction false} FirstFreeIsLeast(taken: set<Ip>, gateway: Ip, from: Ip, to: Ip)
    ensures var r := FirstFree(taken, gateway, from, to);
            if r.Some? then
              && from <= r.value < to && r.value != gateway && r.value !in taken
              && (forall j :: from <= j < r.value ==> j == gateway || j in taken)
            else forall j :: from <= j < to ==> j == gateway || j in taken
    decreases if from < to then to - from else 0
  {
    if from < to && !(from != gateway && from !in taken) {
      FirstFreeIsLeast(taken, gateway, from + 1, to);
    }
  }

  lemma AvailableIsUsable(t: Topology, taken: set<Ip>)
    ensures var r := FindAvailable(t, taken);
            r.Ok? ==> t.Usable(r.value) && r.value !in taken
  {
    FirstFreeIsLeast(taken, t.gateway, t.net.network + 1, t.net.Broadcast());
  }

  // ---------- configured addresses ----------

  /** Giving `device` an address that no other device has configured or live. */
  lemma MoveKeepsConfigured(devices: map<DeviceId, Entry>, configured: map<Ip, DeviceId>, device: DeviceId, e: Entry,
                            ip: Ip)
    requires ConfiguredInverse(devices, configured)
    requires ip in configured ==> configured[ip] == device
    requires e.ip == Some(ip)
    ensures var prior := if device in devices then devices[device].ip else None;
            ConfiguredInverse(devices[device := e], Without(configured, prior)[ip := device])
  {
  }

  lemma MoveKeepsExclusive(configured: map<Ip, DeviceId>, active: map<Ip, DeviceId>, device: DeviceId,
                           prior: Option<Ip>, ip: Ip)
    requires Exclusive(configured, active)
    requires ip in active ==> active[ip] == device
    ensures Exclusive(Without(configured, prior)[ip := device], active)
  {
  }

  lemma ReplaceKeepsConfigured(devices: map<DeviceId, Entry>, configured: map<Ip, DeviceId>, device: DeviceId, e: Entry)
    requires ConfiguredInverse(devices, configured)
    requires device in devices && e.ip == devices[device].ip
    ensures ConfiguredInverse(devices[device := e], configured)
  {
  }

  // ---------- live addresses ----------

  lemma PutKeepsConnected(devices: map<DeviceId, Entry>, device: DeviceId, e: Entry)
    requires ConnectedConfigured(devices) && (e.connected ==> e.ip.Some?)
    ensures ConnectedConfigured(devices[device := e])
  {
  }

  function Takeover(active: map<Ip, DeviceId>, device: DeviceId, ip: Ip): map<Ip, DeviceId> {
    (active - StaleAddresses(active, device, ip))[ip := device]
  }

  lemma TakeoverKeepsOneActive(active: map<Ip, DeviceId>, device: DeviceId, ip: Ip)
    requires OneActive(active)
    requires ip in active ==> active[ip] == device
    ensures OneActive(Takeover(active, device, ip))
  {
  }

  // ---------- registration ----------

  /** What an allocation changes, and what it guarantees to the attachment of the new pool. */
  ghost predicate Granted(t: Topology, s: State, s1: State, device: DeviceId, grant: Grant, ct: ClientType) {
    && device in s1.devices
    && var e := s1.devices[device];
    && e.connected && e.ip == Some(grant.ip) && e.clientType == ct
    && s1.devices == s.devices[device := e]
    && t.Usable(grant.ip)
    && ConflictingOwner(s.configured, s.active, grant.ip, device).None?
    && grant.prior != Some(grant.ip)
    && (grant.prior.Some? ==> Get(s.configured, grant.prior.value) == Some(device))
    && s1.configured ==
       Without(s.configured, if device in s.devices then s.devices[device].ip else None)[grant.ip := device]
    && (if device in s.devices then e.stats == s.devices[device].stats && s1.nextStats == s.nextStats
        else e.stats == s.nextStats && s1.nextStats == s.nextStats + 1)
    && s1.dataVersion == s.dataVersion + 1
    && e.stamp == s1.dataVersion
    && (s1.fullSyncVersion == s1.dataVersion ||
        (s1.fullSyncVersion == s.fullSyncVersion &&
         (device in s.devices && s.devices[device].ip.Some? ==> s.devices[device].ip == e.ip)))
    && s1 == s.(devices := s1.devices, configured := s1.configured, dataVersion := s1.dataVersion,
                fullSyncVersion := s1.fullSyncVersion, nextStats := s1.nextStats)
  }

  lemma OwnAddress(s: State, device: DeviceId, ip: Ip)
    requires ConfiguredInverse(s.devices, s.configured) && Exclusive(s.configured, s.active)
    requires device in s.devices && s.devices[device].ip == Some(ip)
    ensures Get(s.configured, ip) == Some(device) && (ip in s.active ==> s.active[ip] == device)
  {
    assert s.configured[ip] == device;
  }

  lemma KeepGrants(t: Topology, s: State, req: Request, link: LinkId, ct: ClientType)
    requires Addresses(t, s) && req.device in s.devices
    ensures var (s1, r) := Keep(t, s, req, link, ct);
            if r.Ok? then Granted(t, s, s1, req.device, r.value, ct) else s1 == s
  {
    hide ConnectedConfigured, OneActive, Exclusive, ConfiguredInverse;
    var e := s.devices[req.device];
    if e.ip.Some? {
      hide FindAvailable;
      OwnAddress(s, req.device, e.ip.value);
      assert s.configured == Without(s.configured, e.ip)[e.ip.value := req.device];
    } else {
      hide AllUsable, FindAvailable;
      AvailableIsUsable(t, Taken(s));
    }
  }

  lemma AdoptGrants(t: Topology, s: State, req: Request, link: LinkId, ct: ClientType, ip: Ip, prior: Option<Ip>)
    requires ConfiguredInverse(s.devices, s.configured) && t.Usable(ip)
    requires ConflictingOwner(s.configured, s.active, ip, req.device).None?
    requires prior == if req.device in s.devices then s.devices[req.device].ip else None
    requires prior != Some(ip)
    ensures Granted(t, s, Adopt(s, req, link, ct, ip, prior), req.device, Grant(ip, prior), ct)
  {
  }

  lemma AllocateIpGrants(t: Topology, s: State, req: Request, link: LinkId, ct: ClientType)
    requires Addresses(t, s)
    ensures var (s1, r) := AllocateIp(t, s, req, link, ct);
            if r.Ok? then Granted(t, s, s1, req.device, r.value, ct) else s1 == s
  {
    hide Granted;
    hide Keep;
    hide Adopt;
    hide ConnectedConfigured;
    AvailableIsUsable(t, Taken(s));
    var wanted := Expected(s, req);
    if wanted.Ok? {
      if req.device in s.devices && (wanted.value.None? || s.devices[req.device].ip == wanted.value) {
        KeepGrants(t, s, req, link, ct);
      } else {
        var prior := if req.device in s.devices then s.devices[req.device].ip else None;
        if wanted.value.Some? && AddressRefusal(t, s, wanted.value.value, req.device).None? {
          AdoptGrants(t, s, req, link, ct, wanted.value.value, prior);
        }
        var free := FindAvailable(t, Taken(s));
        if free.Ok? {
          AdoptGrants(t, s, req, link, ct, free.value, prior);
        }
      }
    }
  }

  lemma AttachKeepsAddresses(t: Topology, s: State, s1: State, device: DeviceId, grant: Grant, link: LinkId,
                             instance: InstanceId, ct: ClientType)
    requires Addresses(t, s) && Granted(t, s, s1, device, grant, ct)
    ensures Addresses(t, Attach(s1, device, grant, link, instance))
  {
    hide ConfiguredInverse;
    hide ConnectedConfigured;
    hide OneActive;
    var e, s2 := s1.devices[device], Attach(s1, device, grant, link, instance);
    var prior := if device in s.devices then s.devices[device].ip else None;
    assert s2.active == Takeover(s.active, device, grant.ip);
    MoveKeepsConfigured(s.devices, s.configured, device, e, grant.ip);
    MoveKeepsExclusive(s.configured, s.active, device, prior, grant.ip);
    PutKeepsConnected(s.devices, device, e);
    TakeoverKeepsOneActive(s.active, device, grant.ip);
  }

  lemma AttachKeepsSenders(t: Topology, s: State, s1: State, device: DeviceId, grant: Grant, link: LinkId,
                           instance: InstanceId, ct: ClientType)
    requires SendersFollow(s.active, s.senders, s.pools) && PoolsBelow(s.pools, s.nextPool)
    requires Exclusive(s.configured, s.active)
    requires Granted(t, s, s1, device, grant, ct)
    ensures var s2 := Attach(s1, device, grant, link, instance);
            SendersFollow(s2.active, s2.senders, s2.pools) && PoolsBelow(s2.pools, s2.nextPool)
  {
    var s2 := Attach(s1, device, grant, link, instance);
    assert s2.senders.Keys == s2.active.Keys;
  }

  lemma AttachKeepsTrafficKeys(t: Topology, s: State, s1: State, device: DeviceId, grant: Grant, link: LinkId,
                               instance: InstanceId, ct: ClientType)
    requires TrafficKeys(s.active, s.traffic) && Exclusive(s.configured, s.active)
    requires Granted(t, s, s1, device, grant, ct)
    ensures var s2 := Attach(s1, device, grant, link, instance);
            TrafficKeys(s2.active, s2.traffic)
  {
  }

  lemma PutKeepsCounters(devices: map<DeviceId, Entry>, nextStats: StatsId, device: DeviceId, e: Entry, next': StatsId)
    requires OwnCounters(devices, nextStats)
    requires if device in devices then e.stats == devices[device].stats && next' == nextStats
             else e.stats == nextStats && next' == nextStats + 1
    ensures OwnCounters(devices[device := e], next')
  {
  }

  lemma AttachKeepsLinks(t: Topology, s: State, s1: State, device: DeviceId, grant: Grant, link: LinkId,
                         instance: InstanceId, ct: ClientType)
    requires LinksIssued(s.pools, s.issued) && PoolsBelow(s.pools, s.nextPool) && DrainsOwned(s.pools, s.draining)
    requires Granted(t, s, s1, device, grant, ct) && link !in s.issued
    ensures var s2 := Attach(s1, device, grant, link, instance);
            LinksIssued(s2.pools, s2.issued) && DrainsOwned(s2.pools, s2.draining)
  {
  }

  lemma AttachKeepsCore(t: Topology, s: State, s1: State, device: DeviceId, grant: Grant, link: LinkId,
                       instance: InstanceId, ct: ClientType)
    requires Core(t, s) && Granted(t, s, s1, device, grant, ct) && link !in s.issued
    ensures Core(t, Attach(s1, device, grant, link, instance))
  {
    hide ConfiguredInverse, ConnectedConfigured, OneActive, SendersFollow, TrafficKeys, OwnCounters, LinksIssued,
      PoolsBelow, DrainsOwned;
    AttachKeepsAddresses(t, s, s1, device, grant, link, instance, ct);
    AttachKeepsSenders(t, s, s1, device, grant, link, instance, ct);
    AttachKeepsTrafficKeys(t, s, s1, device, grant, link, instance, ct);
    AttachKeepsLinks(t, s, s1, device, grant, link, instance, ct);
    PutKeepsCounters(s.devices, s.nextStats, device, s1.devices[device], s1.nextStats);
  }

  lemma AddLinkKeepsCore(t: Topology, s: State, req: Request, link: LinkId, instance: InstanceId)
    requires Core(t, s) && JoinsPool(s, req, instance) && link !in s.issued
    ensures Core(t, AddLink(s, req.device, req.ip.value, link, instance))
  {
    hide ConnectedConfigured, OneActive, AllUsable, TrafficKeys, OwnCounters, Stamped;
  }

  lemma RegisterKeepsCore(t: Topology, s: State, req: Request, link: LinkId, ct: ClientType, instance: InstanceId)
    requires Core(t, s) && link !in s.issued
    ensures Core(t, Register(t, s, req, link, ct, instance).0)
  {
    if JoinsPool(s, req, instance) {
      AddLinkKeepsCore(t, s, req, link, instance);
    } else {
      AllocateIpGrants(t, s, req, link, ct);
      var (s1, r) := AllocateIp(t, s, req, link, ct);
      if r.Ok? {
        AttachKeepsCore(t, s, s1, req.device, r.value, link, instance, ct);
      }
    }
    hide *;
  }

  // ---------- fast re-addressing ----------

  lemma MoveKeepsSenders(active: map<Ip, DeviceId>, senders: map<Ip, PoolId>, pools: map<PoolId, Pool>, oldIp: Ip,
                         newIp: Ip)
    requires SendersFollow(active, senders, pools) && oldIp in active && newIp !in active
    ensures SendersFollow((active - {oldIp})[newIp := active[oldIp]],
                          (senders - {oldIp})[newIp := senders[oldIp]], pools)
  {
    assert ((senders - {oldIp})[newIp := senders[oldIp]]).Keys == ((active - {oldIp})[newIp := active[oldIp]]).Keys;
  }

  lemma MoveKeepsTrafficKeys(active: map<Ip, DeviceId>, traffic: map<Ip, StatsId>, oldIp: Ip, newIp: Ip)
    requires TrafficKeys(active, traffic) && oldIp in active
    ensures TrafficKeys((active - {oldIp})[newIp := active[oldIp]], (traffic - {oldIp})[newIp := traffic[oldIp]])
  {
  }

  lemma StampKeepsStamped(devices: map<DeviceId, Entry>, version: nat, sync: nat, device: DeviceId, e: Entry,
                          version': nat, sync': nat)
    requires Stamped(devices, version, sync)
    requires version <= version' && e.stamp <= version' && (sync' == sync || sync' == version')
    ensures Stamped(devices[device := e], version', sync')
  {
  }

  lemma ReaddressKeepsCore(t: Topology, s: State, device: DeviceId, oldIp: Ip, newIp: Ip)
    requires Core(t, s) && t.Usable(newIp)
    requires device in s.devices
    requires ConflictingOwner(s.configured, s.active, newIp, device).None?
    requires Get(s.active, oldIp) == Some(device) && oldIp != newIp
    ensures Core(t, Readdress(s, device, oldIp, newIp))
  {
    assert newIp !in s.active && oldIp in s.senders && oldIp in s.traffic by {
      hide ConfiguredInverse, ConnectedConfigured, AllUsable, OwnCounters, LinksIssued, PoolsBelow, DrainsOwned,
        Stamped;
    }
    hide ConfiguredInverse, ConnectedConfigured, OneActive, Exclusive, AllUsable, SendersFollow, TrafficKeys,
      OwnCounters, LinksIssued, PoolsBelow, DrainsOwned, Stamped;
    var s2 := Readdress(s, device, oldIp, newIp);
    var e2 := s2.devices[device];
    ReaddressKeepsAddresses(t, s, device, oldIp, newIp);
    MoveKeepsSenders(s.active, s.senders, s.pools, oldIp, newIp);
    MoveKeepsTrafficKeys(s.active, s.traffic, oldIp, newIp);
    PutKeepsCounters(s.devices, s.nextStats, device, e2, s.nextStats);
    StampKeepsStamped(s.devices, s.dataVersion, s.fullSyncVersion, device, e2, s2.dataVersion, s2.fullSyncVersion);
  }

  lemma ReaddressKeepsAddresses(t: Topology, s: State, device: DeviceId, oldIp: Ip, newIp: Ip)
    requires Addresses(t, s) && t.Usable(newIp)
    requires device in s.devices && oldIp in s.senders
    requires ConflictingOwner(s.configured, s.active, newIp, device).None?
    requires Get(s.active, oldIp) == Some(device) && oldIp != newIp
    ensures Addresses(t, Readdress(s, device, oldIp, newIp))
  {
    hide ConnectedConfigured;
    var e, s2 := s.devices[device], Readdress(s, device, oldIp, newIp);
    assert newIp !in s.active;
    assert StaleAddresses(s.active, device, newIp) == {oldIp};
    assert s2.active == Takeover(s.active, device, newIp);
    assert s2.configured == Without(s.configured, e.ip)[newIp := device];
    hide ConfiguredInverse, OneActive;
    MoveKeepsConfigured(s.devices, s.configured, device, s2.devices[device], newIp);
    MoveKeepsExclusive(s.configured, s.active, device, e.ip, newIp);
    PutKeepsConnected(s.devices, device, s2.devices[device]);
    TakeoverKeepsOneActive(s.active, device, newIp);
  }

  lemma FastRegisterKeepsCore(t: Topology, s: State, device: DeviceId, oldIp: Ip, newIp: Ip, link: LinkId,
                             instance: InstanceId)
    requires Core(t, s)
    ensures Core(t, FastRegister(t, s, device, oldIp, newIp, link, instance).0)
  {
    var (s2, r) := FastRegister(t, s, device, oldIp, newIp, link, instance);
    if s2 != s {
      hide ConfiguredInverse, ConnectedConfigured, OneActive, SendersFollow, TrafficKeys, OwnCounters, LinksIssued,
        PoolsBelow, DrainsOwned, Addresses;
      ReaddressKeepsCore(t, s, device, oldIp, newIp);
    }
    hide Core;
  }

  // ---------- disconnect ----------

  lemma UnlinkKeepsCore(t: Topology, s: State, h: PoolId, link: LinkId)
    requires Core(t, s) && h in s.pools
    ensures Core(t, s.(pools := s.pools[h := s.pools[h].WithoutLink(link)]))
  {
    hide ConfiguredInverse, ConnectedConfigured, OneActive, Exclusive, TrafficKeys, OwnCounters, AllUsable, Stamped;
  }

  lemma RemoveLinkKeepsCore(t: Topology, s: State, device: DeviceId, ip: Ip, h: PoolId, link: LinkId,
                            instance: InstanceId)
    requires Core(t, s) && Get(s.issued, link) == Some(Ticket(device, instance))
    ensures Core(t, RemoveLink(s, device, ip, h, link, instance).0)
  {
    hide ConfiguredInverse, ConnectedConfigured, OneActive, Exclusive, TrafficKeys, OwnCounters, AllUsable, Stamped;
    if h in s.pools {
      UnlinkKeepsCore(t, s, h, link);
      assert LinksOf(s.pools[h], s.issued);
    }
  }

  lemma DetachKeepsSenders(active: map<Ip, DeviceId>, senders: map<Ip, PoolId>, pools: map<PoolId, Pool>, gone: set<Ip>)
    requires SendersFollow(active, senders, pools)
    ensures SendersFollow(active - gone, senders - gone, pools)
  {
    assert (senders - gone).Keys == (active - gone).Keys;
  }

  lemma DetachKeepsTrafficKeys(active: map<Ip, DeviceId>, traffic: map<Ip, StatsId>, gone: set<Ip>)
    requires TrafficKeys(active, traffic)
    ensures TrafficKeys(active - gone, traffic - gone)
  {
  }

  /** Giving addresses up cannot create a conflict. */
  lemma ShrinkKeepsExclusive(t: Topology, configured: map<Ip, DeviceId>, active: map<Ip, DeviceId>, dropped: set<Ip>,
                             gone: set<Ip>)
    requires OneActive(active) && Exclusive(configured, active) && AllUsable(t, configured, active)
    ensures OneActive(active - gone) && Exclusive(configured - dropped, active - gone)
    ensures AllUsable(t, configured - dropped, active - gone)
  {
  }

  lemma FinalizeKeepsCore(t: Topology, s: State, device: DeviceId, ip: Ip, pool: PoolId, now: nat)
    requires Core(t, s) && Drain(device, ip, pool) in s.draining
    ensures Core(t, FinalizeOffline(s, device, ip, pool, now).0)
  {
    hide ConfiguredInverse, ConnectedConfigured, OneActive, Exclusive, AllUsable, SendersFollow, TrafficKeys,
      OwnCounters, LinksIssued, PoolsBelow, Stamped;
    var (s2, done) := FinalizeOffline(s, device, ip, pool, now);
    if done {
      DrainedAddress(t, s, device, ip, pool);
      var e2 := s2.devices[device];
      ReplaceKeepsConfigured(s.devices, s.configured, device, e2);
      PutKeepsConnected(s.devices, device, e2);
      ShrinkKeepsExclusive(t, s.configured, s.active, {}, {ip});
      assert s.configured - {} == s.configured;
      DetachKeepsSenders(s.active, s.senders, s.pools, {ip});
      DetachKeepsTrafficKeys(s.active, s.traffic, {ip});
      PutKeepsCounters(s.devices, s.nextStats, device, e2, s.nextStats);
      StampKeepsStamped(s.devices, s.dataVersion, s.fullSyncVersion, device, e2, s2.dataVersion, s2.fullSyncVersion);
    }
  }

  /** If the pool being drained is still at `ip`, that is the one live address of the session's device. */
  lemma DrainedAddress(t: Topology, s: State, device: DeviceId, ip: Ip, pool: PoolId)
    requires Core(t, s) && Drain(device, ip, pool) in s.draining
    requires Get(s.senders, ip) == Some(pool)
    ensures Get(s.active, ip) == Some(device)
    ensures forall a :: a in s.active ==> (a == ip <==> s.active[a] == device)
  {
    hide ConfiguredInverse, ConnectedConfigured, Exclusive, AllUsable, TrafficKeys, OwnCounters, LinksIssued,
      PoolsBelow, Stamped;
    assert s.pools[pool].owner == device;
  }

  // ---------- management ----------

  /** Replacing an entry by one with the same address and connection state. */
  lemma TouchKeepsCore(t: Topology, s: State, device: DeviceId, e: Entry, version: nat)
    requires Core(t, s) && device in s.devices
    requires e.ip == s.devices[device].ip && e.connected == s.devices[device].connected
    requires e.stats == s.devices[device].stats
    requires s.dataVersion <= version && e.stamp <= version
    ensures Core(t, s.(devices := s.devices[device := e], dataVersion := version))
  {
    assert e.connected ==> e.ip.Some?;
    hide ConfiguredInverse, ConnectedConfigured, OneActive, Exclusive, AllUsable, SendersFollow, TrafficKeys,
      OwnCounters, LinksIssued, PoolsBelow, DrainsOwned, Stamped;
    ReplaceKeepsConfigured(s.devices, s.configured, device, e);
    PutKeepsConnected(s.devices, device, e);
    PutKeepsCounters(s.devices, s.nextStats, device, e, s.nextStats);
    StampKeepsStamped(s.devices, s.dataVersion, s.fullSyncVersion, device, e, version, s.fullSyncVersion);
  }

  lemma ConfirmKeepsCore(t: Topology, s: State, device: DeviceId)
    requires Core(t, s)
    ensures Core(t, Confirm(s, device))
  {
    hide Core;
    var s2 := Confirm(s, device);
    if s2 != s {
      TouchKeepsCore(t, s, device, s2.devices[device], s2.dataVersion);
    }
  }

  lemma UpdateRuntimeKeepsCore(t: Topology, s: State, device: DeviceId, subnets: seq<Net>)
    requires Core(t, s)
    ensures Core(t, UpdateRuntime(s, device, subnets))
  {
    hide Core;
    var s2 := UpdateRuntime(s, device, subnets);
    if s2 != s {
      TouchKeepsCore(t, s, device, s2.devices[device], s2.dataVersion);
    }
  }

  lemma MoveConfigured(devices: map<DeviceId, Entry>, configured: map<Ip, DeviceId>, device: DeviceId, ip: Ip)
    requires ConfiguredInverse(devices, configured) && device in devices
    requires devices[device].ip == Some(ip)
    ensures configured[ip := device] == Without(configured, Some(ip))[ip := device]
  {
  }

  lemma UpsertKeepsCore(t: Topology, s: State, edit: Edit, ct: ClientType, now: nat)
    requires Core(t, s) && t.Usable(edit.ip)
    ensures Core(t, Upsert(s, edit, ct, now).0)
  {
    hide ConfiguredInverse, ConnectedConfigured, OneActive, Exclusive, SendersFollow, TrafficKeys,
      OwnCounters, LinksIssued, PoolsBelow, DrainsOwned;
    var (s2, r) := Upsert(s, edit, ct, now);
    if r.Ok? {
      var previous := Get(s.devices, edit.device);
      var prior := if previous.Some? then previous.value.ip else None;
      var e2 := s2.devices[edit.device];
      if prior == Some(edit.ip) {
        MoveConfigured(s.devices, s.configured, edit.device, edit.ip);
      }
      MoveKeepsConfigured(s.devices, s.configured, edit.device, e2, edit.ip);
      MoveKeepsExclusive(s.configured, s.active, edit.device, prior, edit.ip);
      PutKeepsConnected(s.devices, edit.device, e2);
      PutKeepsCounters(s.devices, s.nextStats, edit.device, e2, s2.nextStats);
      StampKeepsStamped(s.devices, s.dataVersion, s.fullSyncVersion, edit.device, e2, s2.dataVersion,
        s2.fullSyncVersion);
      hide Stamped;
    }
  }

  lemma UpsertDeviceKeepsCore(t: Topology, s: State, mutation: Mutation, edit: Edit, now: nat)
    requires Core(t, s)
    ensures Core(t, UpsertDevice(t, s, mutation, edit, now).0)
  {
    hide Core, Upsert;
    if t.Usable(edit.ip) && (mutation.Update? ==> edit.device in s.devices) {
      var ct := if mutation.Create? then mutation.clientType else s.devices[edit.device].clientType;
      UpsertKeepsCore(t, s, if ct.Wireguard? then edit.(ipType := Static) else edit, ct, now);
    }
  }

  lemma ExpireOneKeepsCore(t: Topology, s: State, released: seq<DeviceId>, device: DeviceId)
    requires Core(t, s)
    ensures Core(t, ExpireOne(s, released, device).0)
  {
    hide ConfiguredInverse, ConnectedConfigured, OneActive, Exclusive, AllUsable, SendersFollow, TrafficKeys,
      OwnCounters, LinksIssued, PoolsBelow, DrainsOwned, Stamped;
    var s2 := ExpireOne(s, released, device).0;
    if s2 != s {
      var e, e2 := s.devices[device], s2.devices[device];
      var dropped := if e.ip.Some? then {e.ip.value} else {};
      GiveUpKeepsConfigured(s.devices, s.configured, device, s2.devices);
      assert s2.configured == s.configured - dropped;
      ShrinkKeepsExclusive(t, s.configured, s.active, dropped, {});
      assert s.active - {} == s.active;
      PutKeepsConnected(s.devices, device, e2);
      PutKeepsCounters(s.devices, s.nextStats, device, e2, s.nextStats);
      StampKeepsStamped(s.devices, s.dataVersion, s.fullSyncVersion, device, e2, s2.dataVersion, s2.fullSyncVersion);
    }
  }

  /** A device that loses its address, or disappears, leaves the inverse map exact. */
  lemma GiveUpKeepsConfigured(devices: map<DeviceId, Entry>, configured: map<Ip, DeviceId>, device: DeviceId,
                              devices': map<DeviceId, Entry>)
    requires ConfiguredInverse(devices, configured) && device in devices
    requires forall d :: d != device ==> Get(devices', d) == Get(devices, d)
    requires device in devices' ==> devices'[device].ip.None?
    ensures ConfiguredInverse(devices', Without(configured, devices[device].ip))
  {
    var configured' := Without(configured, devices[device].ip);
    forall ip | ip in configured'
      ensures configured'[ip] in devices' && devices'[configured'[ip]].ip == Some(ip)
    {
      assert Get(devices', configured[ip]) == Get(devices, configured[ip]);
    }
    forall d | d in devices' && devices'[d].ip.Some?
      ensures devices'[d].ip.value in configured' && configured'[devices'[d].ip.value] == d
    {
      assert Get(devices', d) == Get(devices, d);
    }
  }

  lemma {:induction false} ExpireAllKeepsCore(t: Topology, s: State, devices: seq<DeviceId>)
    requires Core(t, s)
    ensures Core(t, ExpireAll(s, devices).0)
    ensures ExpireAll(s, devices).0.dataVersion == s.dataVersion
    ensures ExpireAll(s, devices).0.fullSyncVersion == s.fullSyncVersion
    decreases |devices|
  {
    hide Core;
    if devices != [] {
      ExpireAllKeepsCore(t, s, devices[..|devices| - 1]);
      var (s1, released) := ExpireAll(s, devices[..|devices| - 1]);
      ExpireOneKeepsCore(t, s1, released, devices[|devices| - 1]);
    }
  }

  lemma VersionKeepsCore(t: Topology, s: State, version: nat, sync: nat)
    requires Core(t, s) && s.dataVersion <= version && (sync == s.fullSyncVersion || sync == version)
    ensures Core(t, s.(dataVersion := version, fullSyncVersion := sync))
  {
    hide ConfiguredInverse, ConnectedConfigured, OneActive, Exclusive, AllUsable, SendersFollow, TrafficKeys,
      OwnCounters, LinksIssued, PoolsBelow, DrainsOwned;
  }

  lemma ExpireKeepsCore(t: Topology, s: State, devices: seq<DeviceId>)
    requires Core(t, s)
    ensures Core(t, Expire(s, devices).0)
  {
    hide Core, ExpireAll;
    if devices != [] {
      var s0 := s.(dataVersion := s.dataVersion + 1);
      VersionKeepsCore(t, s, s0.dataVersion, s.fullSyncVersion);
      ExpireAllKeepsCore(t, s0, devices);
      var s1 := ExpireAll(s0, devices).0;
      VersionKeepsCore(t, s1, s1.dataVersion, s1.dataVersion);
    }
  }

  lemma DeleteKeepsRest(s: State, device: DeviceId)
    requires ConnectedConfigured(s.devices) && OwnCounters(s.devices, s.nextStats)
    requires Stamped(s.devices, s.dataVersion, s.fullSyncVersion)
    ensures ConnectedConfigured(s.devices - {device})
    ensures OwnCounters(s.devices - {device}, s.nextStats)
    ensures Stamped(s.devices - {device}, s.dataVersion + 1, s.dataVersion + 1)
  {
  }

  /** What remains when a device is removed together with the live addresses `gone`. */
  function Deleted(s: State, device: DeviceId, gone: set<Ip>): State
    requires device in s.devices
  {
    s.(devices := s.devices - {device},
       configured := Without(s.configured, s.devices[device].ip),
       active := s.active - gone,
       senders := s.senders - gone,
       traffic := s.traffic - gone,
       dataVersion := s.dataVersion + 1,
       fullSyncVersion := s.dataVersion + 1)
  }

  lemma DeleteKeepsCore(t: Topology, s: State, device: DeviceId, gone: set<Ip>)
    requires Core(t, s) && device in s.devices
    ensures Core(t, Deleted(s, device, gone))
  {
    hide ConfiguredInverse, ConnectedConfigured, OneActive, Exclusive, AllUsable, SendersFollow, TrafficKeys,
      OwnCounters, LinksIssued, PoolsBelow, DrainsOwned, Stamped;
    var devices', ip := s.devices - {device}, s.devices[device].ip;
    var dropped := AddressSet(ip);
    assert Without(s.configured, ip) == s.configured - dropped;
    GiveUpKeepsConfigured(s.devices, s.configured, device, devices');
    ShrinkKeepsExclusive(t, s.configured, s.active, dropped, gone);
    DetachKeepsSenders(s.active, s.senders, s.pools, gone);
    DetachKeepsTrafficKeys(s.active, s.traffic, gone);
    DeleteKeepsRest(s, device);
  }

  lemma RemoveDeviceKeepsCore(t: Topology, s: State, device: DeviceId)
    requires Core(t, s)
    ensures Core(t, RemoveDevice(s, device))
  {
    hide Core;
    if device in s.devices {
      DeleteKeepsCore(t, s, device, set a | a in s.active && s.active[a] == device);
    }
  }

  // ---------- pre-registration ----------

  lemma ReleaseKeepsCore(t: Topology, s: State, device: DeviceId, ip: Ip, link: LinkId, instance: InstanceId)
    requires Core(t, s)
    ensures Core(t, Release(s, device, ip, link, instance))
  {
    hide Core;
    if PoolAt(s, ip).Some? {
      UnlinkKeepsCore(t, s, s.senders[ip], link);
    }
    if Releases(s, device, ip, link, instance) {
      DeleteKeepsCore(t, Unlink(s, ip, link, instance).0, device, {ip});
    }
  }

  lemma ConfiguredNotForeign(t: Topology, s: State, device: DeviceId, ip: Ip)
    requires Core(t, s) && device in s.devices && s.devices[device].ip == Some(ip)
    ensures Get(s.configured, ip) == Some(device)
    ensures ip in s.active ==> s.active[ip] == device
  {
    hide ConfiguredInverse, ConnectedConfigured, OneActive, Exclusive, AllUsable, Attachments, Stamped;
    OwnAddress(s, device, ip);
  }

  // ---------- start ----------

  /** Records as the unique indexes and the topology guard leave them. */
  ghost predicate SoundRecords(t: Topology, records: seq<Record>) {
    && (forall i, j :: 0 <= i < j < |records| ==> records[i].device != records[j].device)
    && (forall i, j :: 0 <= i < j < |records| && records[i].ip.Some? ==> records[i].ip != records[j].ip)
    && (forall i :: 0 <= i < |records| && records[i].ip.Some? ==> t.Usable(records[i].ip.value))
  }

  ghost predicate LoadedFrom(s: State, records: seq<Record>) {
    && (forall d <- s.devices :: Recorded(records, d, s.devices[d].ip))
    && s == EMPTY.(devices := s.devices, configured := s.configured, nextStats := s.nextStats)
  }

  ghost predicate Recorded(records: seq<Record>, device: DeviceId, ip: Option<Ip>) {
    exists i :: 0 <= i < |records| && records[i].device == device && records[i].ip == ip
  }

  lemma LoadOneConfigured(devices: map<DeviceId, Entry>, configured: map<Ip, DeviceId>, device: DeviceId, e: Entry)
    requires ConfiguredInverse(devices, configured)
    requires device !in devices && (e.ip.Some? ==> e.ip.value !in configured)
    ensures ConfiguredInverse(devices[device := e], if e.ip.Some? then configured[e.ip.value := device] else configured)
  {
  }

  lemma LoadOneKeepsCore(t: Topology, s: State, r: Record, now: nat)
    requires Core(t, s) && s.active == map[]
    requires r.device !in s.devices
    requires r.ip.Some? ==> t.Usable(r.ip.value) && r.ip.value !in s.configured
    ensures Core(t, LoadOne(t, s, r, now))
  {
    hide ConfiguredInverse, ConnectedConfigured, SendersFollow, TrafficKeys, OwnCounters, LinksIssued,
      PoolsBelow, DrainsOwned, Stamped;
    var s2 := LoadOne(t, s, r, now);
    var e2 := s2.devices[r.device];
    LoadOneConfigured(s.devices, s.configured, r.device, e2);
    PutKeepsConnected(s.devices, r.device, e2);
    PutKeepsCounters(s.devices, s.nextStats, r.device, e2, s2.nextStats);
    StampKeepsStamped(s.devices, s.dataVersion, s.fullSyncVersion, r.device, e2, s.dataVersion, s.fullSyncVersion);
  }

  lemma LoadExtends(t: Topology, s: State, records: seq<Record>, r: Record, now: nat)
    requires LoadedFrom(s, records)
    ensures LoadedFrom(LoadOne(t, s, r, now), records + [r])
  {
    var s2, all := LoadOne(t, s, r, now), records + [r];
    forall d | d in s2.devices
      ensures Recorded(all, d, s2.devices[d].ip)
    {
      if d == r.device {
        assert all[|records|] == r;
      } else {
        var i :| 0 <= i < |records| && records[i].device == d && records[i].ip == s.devices[d].ip;
        assert all[i] == records[i];
      }
    }
  }

  lemma UnseenRecord(t: Topology, s: State, records: seq<Record>, r: Record)
    requires SoundRecords(t, records + [r]) && LoadedFrom(s, records)
    requires ConfiguredInverse(s.devices, s.configured)
    ensures r.device !in s.devices
    ensures r.ip.Some? ==> t.Usable(r.ip.value) && r.ip.value !in s.configured
  {
    var all := records + [r];
    assert all[|records|] == r && forall i :: 0 <= i < |records| ==> all[i] == records[i];
    assert r.ip.Some? && r.ip.value in s.configured ==> Recorded(records, s.configured[r.ip.value], r.ip);
  }

  /** A table loaded from sound records satisfies the invariant. */
  lemma {:induction false} LoadSatisfiesCore(t: Topology, records: seq<Record>, now: nat)
    requires SoundRecords(t, records)
    ensures Core(t, Load(t, records, now)) && LoadedFrom(Load(t, records, now), records)
    decreases |records|
  {
    if records != [] {
      var front, r := records[..|records| - 1], records[|records| - 1];
      assert records == front + [r];
      assert SoundRecords(t, front);
      hide ConfiguredInverse, ConnectedConfigured, OneActive, Exclusive, AllUsable, SendersFollow, TrafficKeys,
        OwnCounters, LinksIssued, PoolsBelow, DrainsOwned, Stamped, SoundRecords, LoadOne;
      LoadSatisfiesCore(t, front, now);
      var s := Load(t, front, now);
      UnseenRecord(t, s, front, r);
      LoadOneKeepsCore(t, s, r, now);
      LoadExtends(t, s, front, r, now);
    }
  }
}
