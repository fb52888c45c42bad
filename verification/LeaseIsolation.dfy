/** Steps taken by or for one device leave every other device alone. */
module LeaseIsolation {
  import opened Wrappers
  import opened Ipv4
  import opened LeaseModel
  import opened LeaseInvariant
  import opened LeaseRuns
  import opened LeaseProperties

  /** The event is caused by a session of `d` or is a management action on it. */
  predicate Concerns(e: Event, d: DeviceId) {
    match e
    case Registered(req, _, _, _) => req.device == d
    case FastRegistered(device, _, _, _, _) => device == d
    case LinkDropped(device, _, _, _, _) => device == d
    case OfflineFinalized(device, _, _, _) => device == d
    case Edited(_, edit, _) => edit.device == d
    case LeasesExpired(devices) => d in devices
    case DeviceRemoved(device) => device == d
    case PreRegistrationReleased(device, _, _, _) => device == d
    case RegistrationConfirmed(device) => device == d
    case RuntimeReported(device, _) => device == d
  }

  /** The device has the same entry, live addresses, links and byte counters in both states. */
  ghost predicate Undisturbed(s: State, s': State, d: DeviceId) {
    && Get(s'.devices, d) == Get(s.devices, d)
    && (forall a :: Get(s.active, a) == Some(d) <==> Get(s'.active, a) == Some(d))
    && (forall a :: Get(s.active, a) == Some(d) ==> SameAt(s, s', a))
  }

  ghost predicate SameAt(s: State, s': State, a: Ip) {
    PoolAt(s', a) == PoolAt(s, a) && Get(s'.traffic, a) == Get(s.traffic, a)
  }

  /** Everything live in `s` for a device other than `c` is kept by `s'`, and nothing new is live for it. */
  ghost predicate OnlyTouches(s: State, s': State, c: DeviceId) {
    && SessionsKept(s, s', c)
    && PoolsKept(s.pools, s'.pools, c)
    && EntriesKept(s.devices, s'.devices, c)
  }

  ghost predicate SessionsKept(s: State, s': State, c: DeviceId) {
    && (forall a :: a in s.active && s.active[a] != c ==>
          && Get(s'.active, a) == Get(s.active, a)
          && Get(s'.senders, a) == Get(s.senders, a)
          && Get(s'.traffic, a) == Get(s.traffic, a))
    && (forall a :: a in s'.active && s'.active[a] != c ==> a in s.active && s.active[a] == s'.active[a])
  }

  ghost predicate PoolsKept(pools: map<PoolId, Pool>, pools': map<PoolId, Pool>, c: DeviceId) {
    forall h :: h in pools && pools[h].owner != c ==> Get(pools', h) == Some(pools[h])
  }

  ghost predicate EntriesKept(devices: map<DeviceId, Entry>, devices': map<DeviceId, Entry>, c: DeviceId) {
    forall d :: d != c ==> Get(devices', d) == Get(devices, d)
  }

  lemma PutOnlyTouches(s: State, s': State, c: DeviceId)
    requires s'.active == s.active && s'.senders == s.senders && s'.traffic == s.traffic && s'.pools == s.pools
    requires c in s'.devices && s'.devices == s.devices[c := s'.devices[c]]
    ensures OnlyTouches(s, s', c)
  {
  }

  lemma NothingTouched(s: State, c: DeviceId)
    ensures OnlyTouches(s, s, c)
  {
  }

  lemma TouchingLeavesUndisturbed(s: State, s': State, c: DeviceId, d: DeviceId)
    requires SendersFollow(s.active, s.senders, s.pools) && OnlyTouches(s, s', c) && c != d
    ensures Undisturbed(s, s', d)
  {
    forall a | Get(s.active, a) == Some(d)
      ensures SameAt(s, s', a) && Get(s'.active, a) == Some(d)
    {
      assert a in s.senders && s.pools[s.senders[a]].owner == d;
    }
  }

  lemma AttachOnlyTouches(t: Topology, s: State, s1: State, c: DeviceId, grant: Grant, link: LinkId,
                          instance: InstanceId, ct: ClientType)
    requires Granted(t, s, s1, c, grant, ct) && Exclusive(s.configured, s.active) && PoolsBelow(s.pools, s.nextPool)
    ensures c in s1.devices && OnlyTouches(s, Attach(s1, c, grant, link, instance), c)
  {
    hide PoolsKept, EntriesKept, Attach;
    assert s1.active == s.active && s1.senders == s.senders && s1.traffic == s.traffic && s1.pools == s.pools;
    AttachKeepsSessions(s1, c, grant, link, instance);
    AttachKeepsPools(s1, c, grant, link, instance);
    PutKeepsEntries(s.devices, c, s1.devices[c]);
  }

  lemma AttachKeepsSessions(s: State, c: DeviceId, grant: Grant, link: LinkId, instance: InstanceId)
    requires c in s.devices
    requires forall a :: a in s.active && s.active[a] != c ==> a != grant.ip && grant.prior != Some(a)
    ensures SessionsKept(s, Attach(s, c, grant, link, instance), c)
  {
  }

  lemma AttachKeepsPools(s: State, c: DeviceId, grant: Grant, link: LinkId, instance: InstanceId)
    requires c in s.devices && PoolsBelow(s.pools, s.nextPool)
    ensures PoolsKept(s.pools, Attach(s, c, grant, link, instance).pools, c)
    ensures Attach(s, c, grant, link, instance).devices == s.devices
  {
  }

  lemma PutKeepsEntries(devices: map<DeviceId, Entry>, c: DeviceId, e: Entry)
    ensures EntriesKept(devices, devices[c := e], c)
  {
  }

  /** Changing one pool of `c`. */
  lemma PoolOnlyTouches(s: State, s': State, h: PoolId, c: DeviceId)
    requires h in s.pools && s.pools[h].owner == c
    requires h in s'.pools && s'.pools == s.pools[h := s'.pools[h]]
    requires s'.active == s.active && s'.senders == s.senders && s'.traffic == s.traffic && s'.devices == s.devices
    ensures OnlyTouches(s, s', c)
  {
  }

  lemma JoinedPool(t: Topology, s: State, req: Request, instance: InstanceId)
    requires Core(t, s) && JoinsPool(s, req, instance)
    ensures s.pools[s.senders[req.ip.value]].owner == req.device
  {
    ConfiguredNotForeign(t, s, req.device, req.ip.value);
    hide Addresses, TrafficKeys, OwnCounters, LinksIssued, PoolsBelow, DrainsOwned, Stamped;
  }

  lemma AddLinkOnlyTouches(t: Topology, s: State, req: Request, link: LinkId, instance: InstanceId)
    requires Core(t, s) && JoinsPool(s, req, instance)
    ensures OnlyTouches(s, AddLink(s, req.device, req.ip.value, link, instance), req.device)
  {
    hide Core, OnlyTouches;
    JoinedPool(t, s, req, instance);
    PoolOnlyTouches(s, AddLink(s, req.device, req.ip.value, link, instance), s.senders[req.ip.value], req.device);
  }

  lemma RegisterOnlyTouches(t: Topology, s: State, req: Request, link: LinkId, ct: ClientType, instance: InstanceId)
    requires Core(t, s)
    ensures OnlyTouches(s, Register(t, s, req, link, ct, instance).0, req.device)
  {
    assert Exclusive(s.configured, s.active) && PoolsBelow(s.pools, s.nextPool) && OnlyTouches(s, s, req.device) by {
      hide ConfiguredInverse, ConnectedConfigured, OneActive, Exclusive, AllUsable, SendersFollow, TrafficKeys,
        OwnCounters, LinksIssued, PoolsBelow, DrainsOwned, Stamped;
    }
    hide Addresses, Attachments, OnlyTouches, Granted, AllocateIp, Attach;
    AllocateIpGrants(t, s, req, link, ct);
    var (s1, r) := AllocateIp(t, s, req, link, ct);
    if JoinsPool(s, req, instance) {
      AddLinkOnlyTouches(t, s, req, link, instance);
    } else if r.Ok? {
      AttachOnlyTouches(t, s, s1, req.device, r.value, link, instance, ct);
    }
  }

  lemma FastRegisterOnlyTouches(t: Topology, s: State, device: DeviceId, oldIp: Ip, newIp: Ip, link: LinkId,
                                instance: InstanceId)
    ensures OnlyTouches(s, FastRegister(t, s, device, oldIp, newIp, link, instance).0, device)
  {
    if FastRegister(t, s, device, oldIp, newIp, link, instance).0 == s {
      NothingTouched(s, device);
    } else {
      MoveOnlyTouches(s, device, oldIp, newIp);
    }
    hide OnlyTouches, Readdress;
  }

  lemma MoveOnlyTouches(s: State, device: DeviceId, oldIp: Ip, newIp: Ip)
    requires device in s.devices && Get(s.active, oldIp) == Some(device) && oldIp in s.senders
    requires newIp in s.active ==> s.active[newIp] == device
    ensures OnlyTouches(s, Readdress(s, device, oldIp, newIp), device)
  {
    hide Without;
  }

  lemma OwnedPool(t: Topology, s: State, device: DeviceId, h: PoolId, link: LinkId, instance: InstanceId)
    requires Core(t, s) && Get(s.issued, link) == Some(Ticket(device, instance))
    requires h in s.pools && s.pools[h].OwnsLink(instance, link)
    ensures s.pools[h].owner == device
  {
    hide Addresses, SendersFollow, TrafficKeys, OwnCounters, PoolsBelow, DrainsOwned, Stamped;
    assert LinksOf(s.pools[h], s.issued);
  }

  lemma RemoveLinkOnlyTouches(t: Topology, s: State, device: DeviceId, ip: Ip, h: PoolId, link: LinkId,
                              instance: InstanceId)
    requires Core(t, s) && Get(s.issued, link) == Some(Ticket(device, instance))
    ensures OnlyTouches(s, RemoveLink(s, device, ip, h, link, instance).0, device)
  {
    hide Core, OnlyTouches;
    NothingTouched(s, device);
    if h in s.pools && s.pools[h].OwnsLink(instance, link) {
      OwnedPool(t, s, device, h, link, instance);
      PoolOnlyTouches(s, RemoveLink(s, device, ip, h, link, instance).0, h, device);
    }
  }

  lemma FinalizeOnlyTouches(t: Topology, s: State, device: DeviceId, ip: Ip, pool: PoolId, now: nat)
    requires Core(t, s) && Drain(device, ip, pool) in s.draining
    ensures OnlyTouches(s, FinalizeOffline(s, device, ip, pool, now).0, device)
  {
    hide Core;
    if FinalizeOffline(s, device, ip, pool, now).1 {
      DrainedAddress(t, s, device, ip, pool);
    }
  }

  lemma ReleaseOnlyTouches(t: Topology, s: State, device: DeviceId, ip: Ip, link: LinkId, instance: InstanceId)
    requires Core(t, s) && Get(s.issued, link) == Some(Ticket(device, instance))
    ensures OnlyTouches(s, Release(s, device, ip, link, instance), device)
  {
    hide Core, OnlyTouches, Releases;
    UnlinkOnlyTouches(t, s, device, ip, link, instance);
    ReleaseForgets(s, device, ip, link, instance);
    hide Unlink, Forgotten, Release;
    var s1 := Unlink(s, ip, link, instance).0;
    if Releases(s, device, ip, link, instance) {
      ReleasedNotForeign(t, s, device, ip, link, instance);
      ForgetOnlyTouches(s1, device, ip);
      OnlyTouchesTwice(s, s1, Forgotten(s1, device, ip), device);
    }
  }

  lemma ReleaseForgets(s: State, device: DeviceId, ip: Ip, link: LinkId, instance: InstanceId)
    ensures var s1 := Unlink(s, ip, link, instance).0;
            Release(s, device, ip, link, instance) ==
            if Releases(s, device, ip, link, instance) then Forgotten(s1, device, ip) else s1
  {
    hide PoolAt;
  }

  lemma ReleasedNotForeign(t: Topology, s: State, device: DeviceId, ip: Ip, link: LinkId, instance: InstanceId)
    requires Core(t, s) && Releases(s, device, ip, link, instance)
    ensures ip in s.active ==> s.active[ip] == device
  {
    hide Core;
    ConfiguredNotForeign(t, s, device, ip);
  }

  lemma UnlinkOnlyTouches(t: Topology, s: State, device: DeviceId, ip: Ip, link: LinkId, instance: InstanceId)
    requires Core(t, s) && Get(s.issued, link) == Some(Ticket(device, instance))
    ensures OnlyTouches(s, Unlink(s, ip, link, instance).0, device)
    ensures Unlink(s, ip, link, instance).0.active == s.active
  {
    hide Core, OnlyTouches;
    NothingTouched(s, device);
    if PoolAt(s, ip).Some? && PoolAt(s, ip).value.OwnsLink(instance, link) {
      OwnedPool(t, s, device, s.senders[ip], link, instance);
      PoolOnlyTouches(s, Unlink(s, ip, link, instance).0, s.senders[ip], device);
    }
  }

  /** The device is gone, and nobody is live at `ip`. */
  function Forgotten(s: State, device: DeviceId, ip: Ip): State {
    s.(devices := s.devices - {device}, configured := s.configured - {ip}, active := s.active - {ip},
       senders := s.senders - {ip}, traffic := s.traffic - {ip},
       dataVersion := s.dataVersion + 1, fullSyncVersion := s.dataVersion + 1)
  }

  lemma ForgetOnlyTouches(s: State, device: DeviceId, ip: Ip)
    requires ip in s.active ==> s.active[ip] == device
    ensures OnlyTouches(s, Forgotten(s, device, ip), device)
  {
  }

  lemma OnlyTouchesTwice(s: State, s1: State, s2: State, c: DeviceId)
    requires OnlyTouches(s, s1, c) && OnlyTouches(s1, s2, c)
    ensures OnlyTouches(s, s2, c)
  {
    assert PoolsKept(s.pools, s2.pools, c) by {
      hide SessionsKept, EntriesKept;
      forall h | h in s.pools && s.pools[h].owner != c
        ensures Get(s2.pools, h) == Some(s.pools[h])
      {
        assert Get(s1.pools, h) == Some(s.pools[h]);
      }
    }
    assert SessionsKept(s, s2, c) && EntriesKept(s.devices, s2.devices, c) by {
      hide PoolsKept;
    }
  }

  lemma RemovalOnlyTouches(s: State, device: DeviceId)
    ensures OnlyTouches(s, RemoveDevice(s, device), device)
  {
    hide Without;
  }

  lemma ReportOnlyTouches(s: State, device: DeviceId, subnets: seq<Net>)
    ensures OnlyTouches(s, Confirm(s, device), device)
    ensures OnlyTouches(s, UpdateRuntime(s, device, subnets), device)
  {
    hide OnlyTouches;
    NothingTouched(s, device);
    if device in s.devices {
      if !s.devices[device].advertising {
        PutOnlyTouches(s, Confirm(s, device), device);
      }
      if UpdateRuntime(s, device, subnets) != s {
        PutOnlyTouches(s, UpdateRuntime(s, device, subnets), device);
      }
    }
  }

  lemma EditOnlyTouches(t: Topology, s: State, mutation: Mutation, edit: Edit, now: nat)
    ensures OnlyTouches(s, UpsertDevice(t, s, mutation, edit, now).0, edit.device)
  {
    hide OnlyTouches, Without, EditedEntry, ConflictingOwner, PublishNow, NeedsFullSync;
    NothingTouched(s, edit.device);
    var (s', r) := UpsertDevice(t, s, mutation, edit, now);
    if r.Ok? {
      PutOnlyTouches(s, s', edit.device);
    }
  }

  lemma {:induction false} ExpireAllLeaves(s: State, devices: seq<DeviceId>, d: DeviceId)
    requires d !in devices
    ensures var s' := ExpireAll(s, devices).0;
            && Get(s'.devices, d) == Get(s.devices, d)
            && s' == s.(devices := s'.devices, configured := s'.configured)
    decreases |devices|
  {
    if devices != [] {
      ExpireAllLeaves(s, devices[..|devices| - 1], d);
    }
  }

  lemma ExpireLeaves(s: State, devices: seq<DeviceId>, d: DeviceId)
    requires d !in devices
    ensures Undisturbed(s, Expire(s, devices).0, d)
  {
    hide ExpireAll;
    ExpireAllLeaves(s.(dataVersion := s.dataVersion + 1), devices, d);
  }

  /** A step that does not concern a device leaves its entry, live address, links and counters as they were. */
  lemma StepLeavesOthersUndisturbed(t: Topology, s: State, e: Event, d: DeviceId)
    requires Core(t, s) && Possible(s, e) && !Concerns(e, d)
    ensures Undisturbed(s, Step(t, s, e), d)
  {
    assert SendersFollow(s.active, s.senders, s.pools) by {
      hide Addresses, SendersFollow, TrafficKeys, OwnCounters, LinksIssued, PoolsBelow, DrainsOwned, Stamped;
    }
    hide Core, SendersFollow, OnlyTouches, Undisturbed;
    if e.LeasesExpired? {
      hide Expire;
      ExpireLeaves(s, e.devices, d);
    } else {
      hide Step;
      StepOnlyTouches(t, s, e);
      TouchingLeavesUndisturbed(s, Step(t, s, e), Subject(e), d);
    }
  }

  lemma StepOnlyTouches(t: Topology, s: State, e: Event)
    requires Core(t, s) && Possible(s, e) && !e.LeasesExpired?
    ensures OnlyTouches(s, Step(t, s, e), Subject(e))
  {
    hide Core, OnlyTouches, Register, FastRegister, RemoveLink, FinalizeOffline, UpsertDevice, Expire, RemoveDevice,
      Release, Confirm, UpdateRuntime;
    match e
    case Registered(req, link, ct, instance) => RegisterOnlyTouches(t, s, req, link, ct, instance);
    case FastRegistered(device, oldIp, newIp, link, instance) =>
      FastRegisterOnlyTouches(t, s, device, oldIp, newIp, link, instance);
    case LinkDropped(device, ip, h, link, instance) => RemoveLinkOnlyTouches(t, s, device, ip, h, link, instance);
    case OfflineFinalized(device, ip, pool, now) => FinalizeOnlyTouches(t, s, device, ip, pool, now);
    case Edited(mutation, edit, now) => EditOnlyTouches(t, s, mutation, edit, now);
    case DeviceRemoved(device) => RemovalOnlyTouches(s, device);
    case PreRegistrationReleased(device, ip, link, instance) => ReleaseOnlyTouches(t, s, device, ip, link, instance);
    case RegistrationConfirmed(device) => ReportOnlyTouches(s, device, []);
    case RuntimeReported(device, subnets) => ReportOnlyTouches(s, device, subnets);
  }

  function Subject(e: Event): DeviceId
    requires !e.LeasesExpired?
  {
    if e.Registered? then e.req.device else if e.Edited? then e.edit.device else e.device
  }

  lemma UndisturbedTwice(s: State, s1: State, s2: State, d: DeviceId)
    requires Undisturbed(s, s1, d) && Undisturbed(s1, s2, d)
    ensures Undisturbed(s, s2, d)
  {
  }

  /** So does a whole run none of whose events concern the device. */
  lemma {:induction false} RunLeavesOthersUndisturbed(t: Topology, s: State, events: seq<Event>, d: DeviceId)
    requires Core(t, s) && PossibleRun(t, s, events)
    requires forall i :: 0 <= i < |events| ==> !Concerns(events[i], d)
    ensures Undisturbed(s, Exec(t, s, events), d)
    decreases |events|
  {
    if events == [] {
      assert Undisturbed(s, s, d);
    } else {
      hide Core, Step, Undisturbed;
      var s1 := Step(t, s, events[0]);
      StepKeepsCore(t, s, events[0]);
      StepLeavesOthersUndisturbed(t, s, events[0], d);
      RunLeavesOthersUndisturbed(t, s1, events[1..], d);
      UndisturbedTwice(s, s1, Exec(t, s1, events[1..]), d);
    }
  }
}
