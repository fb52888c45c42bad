/**
 The address under which a device is reached: its live one while it is connected,
 its configured one otherwise. Without a full list no step changes it.
 */
module LiveReadings {
  import opened Wrappers
  import opened Ipv4
  import opened LeaseModel
  import opened LeaseInvariant
  import opened LeaseLinked
  import opened LeaseRuns
  import opened LeaseProperties
  import opened LeaseEffects
  import opened LeaseIsolation

  // ---------- connected means live ----------

  /** If the device is connected, it is live somewhere. */
  ghost predicate Anchored(s: State, d: DeviceId) {
    d in s.devices && s.devices[d].connected ==> HoldsAddress(s.active, d)
  }

  lemma AttachAnchors(s: State, d: DeviceId, grant: Grant, link: LinkId, instance: InstanceId)
    requires d in s.devices
    ensures Anchored(Attach(s, d, grant, link, instance), d)
  {
    var s' := Attach(s, d, grant, link, instance);
    assert s'.active[grant.ip] == d;
  }

  lemma RegisterAnchors(t: Topology, s: State, req: Request, link: LinkId, ct: ClientType, instance: InstanceId)
    requires Core(t, s) && Anchored(s, req.device)
    ensures Anchored(Register(t, s, req, link, ct, instance).0, req.device)
  {
    hide Core, AllocateIp, Attach;
    AllocateEntryExists(t, s, req, link, ct);
    RefusedRegistrationChangesNothing(t, s, req, link, ct, instance);
    var (s1, r) := AllocateIp(t, s, req, link, ct);
    if r.Ok? {
      AttachAnchors(s1, req.device, r.value, link, instance);
    }
  }

  lemma FastRegisterAnchors(t: Topology, s: State, d: DeviceId, oldIp: Ip, newIp: Ip, link: LinkId,
                            instance: InstanceId)
    requires Anchored(s, d)
    ensures Anchored(FastRegister(t, s, d, oldIp, newIp, link, instance).0, d)
  {
    var s' := FastRegister(t, s, d, oldIp, newIp, link, instance).0;
    if s' != s {
      assert s'.active[newIp] == d;
    }
  }

  lemma ExpireAnchors(s: State, devices: seq<DeviceId>, d: DeviceId)
    requires Anchored(s, d)
    ensures Anchored(Expire(s, devices).0, d)
  {
    hide ExpireAll;
    var s0 := s.(dataVersion := s.dataVersion + 1);
    ExpireAllIsExact(s0, devices, d);
    ExpireAllKeepsActive(s0, devices);
  }

  lemma {:induction false} ExpireAllKeepsActive(s: State, devices: seq<DeviceId>)
    ensures ExpireAll(s, devices).0.active == s.active
    decreases |devices|
  {
    if devices != [] {
      ExpireAllKeepsActive(s, devices[..|devices| - 1]);
    }
  }

  lemma UndisturbedAnchors(s: State, s': State, d: DeviceId)
    requires Anchored(s, d) && Undisturbed(s, s', d)
    ensures Anchored(s', d)
  {
    if d in s'.devices && s'.devices[d].connected {
      var a :| a in s.active && s.active[a] == d;
      assert Get(s.active, a) == Some(d);
    }
  }

  lemma FinalizeAnchors(t: Topology, s: State, d: DeviceId, ip: Ip, pool: PoolId, now: nat)
    requires Anchored(s, d)
    ensures Anchored(FinalizeOffline(s, d, ip, pool, now).0, d)
  {
  }

  lemma EditAnchors(t: Topology, s: State, mutation: Mutation, edit: Edit, now: nat)
    requires Anchored(s, edit.device)
    ensures Anchored(UpsertDevice(t, s, mutation, edit, now).0, edit.device)
  {
    hide Reindexed, ConflictingOwner, PublishNow, NeedsFullSync, UsableHost;
  }

  lemma ManagementAnchors(s: State, d: DeviceId, ip: Ip, h: PoolId, link: LinkId, instance: InstanceId,
                          subnets: seq<Net>)
    requires Anchored(s, d)
    ensures Anchored(RemoveLink(s, d, ip, h, link, instance).0, d)
    ensures Anchored(Confirm(s, d), d) && Anchored(UpdateRuntime(s, d, subnets), d)
  {
    hide HoldsAddress;
  }

  lemma DeletionAnchors(s: State, d: DeviceId, ip: Ip, link: LinkId, instance: InstanceId)
    requires Anchored(s, d)
    ensures Anchored(RemoveDevice(s, d), d) && Anchored(Release(s, d, ip, link, instance), d)
  {
    hide HoldsAddress, Without;
  }

  /** A connected device stays live somewhere until it is disconnected or deleted, whatever is released. */
  lemma StepAnchors(t: Topology, s: State, e: Event, d: DeviceId)
    requires Core(t, s) && Possible(s, e) && Anchored(s, d)
    ensures Anchored(Step(t, s, e), d)
  {
    hide Core, Anchored, Undisturbed;
    if !Concerns(e, d) {
      hide Step;
      StepLeavesOthersUndisturbed(t, s, e, d);
      UndisturbedAnchors(s, Step(t, s, e), d);
    } else {
      hide Register, FastRegister, RemoveLink, FinalizeOffline, UpsertDevice, Expire, RemoveDevice, Release, Confirm,
        UpdateRuntime;
      match e
      case Registered(req, link, ct, instance) => RegisterAnchors(t, s, req, link, ct, instance);
      case FastRegistered(device, oldIp, newIp, link, instance) =>
        FastRegisterAnchors(t, s, d, oldIp, newIp, link, instance);
      case LinkDropped(device, ip, h, link, instance) => ManagementAnchors(s, d, ip, h, link, instance, []);
      case OfflineFinalized(device, ip, pool, now) => FinalizeAnchors(t, s, d, ip, pool, now);
      case Edited(mutation, edit, now) => EditAnchors(t, s, mutation, edit, now);
      case LeasesExpired(devices) => ExpireAnchors(s, devices, d);
      case DeviceRemoved(device) => DeletionAnchors(s, d, 0, 0, []);
      case PreRegistrationReleased(device, ip, link, instance) => DeletionAnchors(s, d, ip, link, instance);
      case RegistrationConfirmed(device) => ManagementAnchors(s, d, 0, 0, 0, [], []);
      case RuntimeReported(device, subnets) => ManagementAnchors(s, d, 0, 0, 0, [], subnets);
    }
  }

  lemma {:induction false} RunAnchors(t: Topology, s: State, events: seq<Event>, d: DeviceId)
    requires Core(t, s) && PossibleRun(t, s, events) && Anchored(s, d)
    ensures Anchored(Exec(t, s, events), d)
    decreases |events|
  {
    hide Core, Step, Anchored;
    if events != [] {
      StepKeepsCore(t, s, events[0]);
      StepAnchors(t, s, events[0], d);
      RunAnchors(t, Step(t, s, events[0]), events[1..], d);
    }
  }

  /** From sound records a connected device is live somewhere after any possible run. */
  lemma ConnectedIsLive(t: Topology, records: seq<Record>, now: nat, events: seq<Event>, d: DeviceId)
    requires SoundRecords(t, records) && PossibleRun(t, Load(t, records, now), events)
    ensures var s := Exec(t, Load(t, records, now), events);
            Core(t, s) && Anchored(s, d)
  {
    hide Core, SoundRecords;
    LoadSatisfiesCore(t, records, now);
    NobodyConnected(t, records, now);
    RunKeepsCore(t, Load(t, records, now), events);
    RunAnchors(t, Load(t, records, now), events, d);
  }

  // ---------- the address a device is read at ----------

  ghost function LiveAddress(active: map<Ip, DeviceId>, d: DeviceId): Ip
    requires HoldsAddress(active, d)
  {
    var a :| a in active && active[a] == d;
    a
  }

  ghost function Reading(s: State, d: DeviceId): Option<Ip>
    requires d in s.devices
  {
    if s.devices[d].connected && HoldsAddress(s.active, d) then Some(LiveAddress(s.active, d)) else s.devices[d].ip
  }

  lemma ReadingIsLive(s: State, d: DeviceId, a: Ip)
    requires OneActive(s.active) && d in s.devices && s.devices[d].connected && Get(s.active, a) == Some(d)
    ensures Reading(s, d) == Some(a)
  {
    assert HoldsAddress(s.active, d);
  }

  /** A full list is forced, or the reading stays and every change of the entry is stamped. */
  ghost predicate Steady(s: State, s': State, d: DeviceId)
    requires d in s.devices
  {
    || s'.fullSyncVersion > s.dataVersion
    || (&& d in s'.devices
        && var e, e' := s.devices[d], s'.devices[d];
        && e'.clientType == e.clientType
        && (Reading(s, d).Some? ==> Reading(s', d) == Reading(s, d))
        && (e'.stamp > s.dataVersion
            || (e'.stamp == e.stamp && e'.connected == e.connected && Reading(s', d) == Reading(s, d))))
  }

  /** The live addresses stay, and the entry keeps its address, type and connection. */
  lemma SameIsSteady(s: State, s': State, d: DeviceId)
    requires d in s.devices && d in s'.devices && s'.active == s.active
    requires s'.devices[d].ip == s.devices[d].ip && s'.devices[d].connected == s.devices[d].connected
    requires s'.devices[d].clientType == s.devices[d].clientType
    requires s'.devices[d].stamp == s.devices[d].stamp || s'.devices[d].stamp > s.dataVersion
    ensures Steady(s, s', d)
  {
  }

  lemma UndisturbedIsSteady(s: State, s': State, d: DeviceId)
    requires d in s.devices && Undisturbed(s, s', d) && OneActive(s.active) && OneActive(s'.active)
    ensures Steady(s, s', d)
  {
    assert Get(s'.devices, d) == Get(s.devices, d);
    assert HoldsAddress(s'.active, d) ==> HoldsAddress(s.active, d) by {
      if HoldsAddress(s'.active, d) {
        var a :| a in s'.active && s'.active[a] == d;
        assert Get(s'.active, a) == Some(d);
      }
    }
    if s.devices[d].connected && HoldsAddress(s.active, d) {
      var a :| a in s.active && s.active[a] == d;
      assert Get(s.active, a) == Some(d);
      ReadingIsLive(s, d, a);
      ReadingIsLive(s', d, a);
    }
  }

  lemma AttachIsSteady(t: Topology, s: State, s1: State, d: DeviceId, grant: Grant, link: LinkId, instance: InstanceId,
                       ct: ClientType)
    requires Granted(t, s, s1, d, grant, ct) && d in s.devices && s.devices[d].clientType == ct
    requires OneActive(s.active)
    ensures d in s1.devices && Steady(s, Attach(s1, d, grant, link, instance), d)
  {
    var s' := Attach(s1, d, grant, link, instance);
    assert s'.active == Takeover(s.active, d, grant.ip);
    assert ConflictingOwner(s.configured, s.active, grant.ip, d).None?;
    TakeoverKeepsOneActive(s.active, d, grant.ip);
    ReadingIsLive(s', d, grant.ip);
    if s.devices[d].connected && HoldsAddress(s.active, d) {
      var a :| a in s.active && s.active[a] == d;
      ReadingIsLive(s, d, a);
      if a != grant.ip {
        assert a in StaleAddresses(s1.active, d, grant.ip);
      }
    }
    hide OneActive, UsableHost, Without, HoldsAddress;
  }

  lemma RegisterIsSteady(t: Topology, s: State, req: Request, link: LinkId, ct: ClientType, instance: InstanceId)
    requires Core(t, s) && req.device in s.devices
    ensures Steady(s, Register(t, s, req, link, ct, instance).0, req.device)
  {
    assert OneActive(s.active) by {
      hide ConfiguredInverse, ConnectedConfigured, OneActive, Exclusive, AllUsable, Attachments, Stamped;
    }
    SameIsSteady(s, s, req.device);
    hide Addresses, Attachments, AllocateIp, Attach, Granted, OneActive, Steady;
    AllocateIpGrants(t, s, req, link, ct);
    var (s1, r) := AllocateIp(t, s, req, link, ct);
    if JoinsPool(s, req, instance) {
      SameIsSteady(s, AddLink(s, req.device, req.ip.value, link, instance), req.device);
    } else if r.Ok? && s.devices[req.device].clientType == ct {
      AttachIsSteady(t, s, s1, req.device, r.value, link, instance, ct);
    }
  }

  lemma FastRegisterIsSteady(t: Topology, s: State, d: DeviceId, oldIp: Ip, newIp: Ip, link: LinkId,
                             instance: InstanceId)
    requires d in s.devices
    ensures Steady(s, FastRegister(t, s, d, oldIp, newIp, link, instance).0, d)
  {
    SameIsSteady(s, s, d);
    hide UsableHost, Reconfigured, Reading;
  }

  lemma FinalizeIsSteady(t: Topology, s: State, d: DeviceId, ip: Ip, pool: PoolId, now: nat)
    requires Core(t, s) && d in s.devices && Drain(d, ip, pool) in s.draining
    ensures Steady(s, FinalizeOffline(s, d, ip, pool, now).0, d)
  {
    assert OneActive(s.active) by {
      hide ConfiguredInverse, ConnectedConfigured, OneActive, Exclusive, AllUsable, Attachments, Stamped;
    }
    hide Core, OneActive;
    var (s', done) := FinalizeOffline(s, d, ip, pool, now);
    if !done {
      SameIsSteady(s, s', d);
    } else {
      DrainedAddress(t, s, d, ip, pool);
      if s.devices[d].connected {
        ReadingIsLive(s, d, ip);
      }
    }
  }

  lemma EditIsSteady(t: Topology, s: State, mutation: Mutation, edit: Edit, now: nat)
    requires edit.device in s.devices && Anchored(s, edit.device)
    ensures Steady(s, UpsertDevice(t, s, mutation, edit, now).0, edit.device)
  {
    hide Reindexed, ConflictingOwner, UsableHost, HoldsAddress, Outputs;
    SameIsSteady(s, s, edit.device);
  }

  lemma ExpireIsSteady(s: State, devices: seq<DeviceId>, d: DeviceId)
    requires d in s.devices
    ensures Steady(s, Expire(s, devices).0, d)
  {
    hide ExpireAll;
    SameIsSteady(s, s, d);
    var s0 := s.(dataVersion := s.dataVersion + 1);
    ExpireAllIsExact(s0, devices, d);
    ExpireAllKeepsActive(s0, devices);
    var (s', released) := Expire(s, devices);
    if devices != [] && !(Lapses(s, devices, d) && s.devices[d].ip.Some?) {
      SameIsSteady(s, s', d);
    }
  }

  lemma DropIsSteady(s: State, d: DeviceId, ip: Ip, h: PoolId, link: LinkId, instance: InstanceId)
    requires d in s.devices
    ensures Steady(s, RemoveLink(s, d, ip, h, link, instance).0, d)
  {
    hide Steady;
    SameIsSteady(s, RemoveLink(s, d, ip, h, link, instance).0, d);
  }

  lemma ConfirmIsSteady(s: State, d: DeviceId)
    requires d in s.devices
    ensures Steady(s, Confirm(s, d), d)
  {
    hide Steady;
    SameIsSteady(s, Confirm(s, d), d);
  }

  lemma ReportIsSteady(s: State, d: DeviceId, subnets: seq<Net>)
    requires d in s.devices
    ensures Steady(s, UpdateRuntime(s, d, subnets), d)
  {
    hide Steady;
    SameIsSteady(s, UpdateRuntime(s, d, subnets), d);
  }

  lemma DeletionIsSteady(s: State, d: DeviceId, ip: Ip, link: LinkId, instance: InstanceId)
    requires d in s.devices
    ensures Steady(s, RemoveDevice(s, d), d) && Steady(s, Release(s, d, ip, link, instance), d)
  {
    hide Without, Reading;
    if !Releases(s, d, ip, link, instance) {
      SameIsSteady(s, Release(s, d, ip, link, instance), d);
    }
  }

  lemma ElsewhereIsSteady(t: Topology, s: State, e: Event, d: DeviceId)
    requires Core(t, s) && Possible(s, e) && d in s.devices && !Concerns(e, d)
    ensures Steady(s, Step(t, s, e), d)
  {
    StepKeepsCore(t, s, e);
    hide Step, ConfiguredInverse, ConnectedConfigured, OneActive, Exclusive, AllUsable, Attachments, Stamped, Steady,
      Undisturbed, Concerns, Possible;
    StepLeavesOthersUndisturbed(t, s, e, d);
    UndisturbedIsSteady(s, Step(t, s, e), d);
  }

  /** No step changes the address at which a device is read, unless it forces a full list. */
  lemma StepIsSteady(t: Topology, s: State, e: Event, d: DeviceId)
    requires Core(t, s) && Possible(s, e) && d in s.devices && Anchored(s, d)
    ensures Steady(s, Step(t, s, e), d)
  {
    hide Core, Anchored, Steady;
    if !Concerns(e, d) {
      hide Step;
      ElsewhereIsSteady(t, s, e, d);
    } else {
      hide Register, FastRegister, RemoveLink, FinalizeOffline, UpsertDevice, Expire, RemoveDevice, Release, Confirm,
        UpdateRuntime;
      match e
      case Registered(req, link, ct, instance) => RegisterIsSteady(t, s, req, link, ct, instance);
      case FastRegistered(device, oldIp, newIp, link, instance) =>
        FastRegisterIsSteady(t, s, d, oldIp, newIp, link, instance);
      case LinkDropped(device, ip, h, link, instance) => DropIsSteady(s, d, ip, h, link, instance);
      case OfflineFinalized(device, ip, pool, now) => FinalizeIsSteady(t, s, d, ip, pool, now);
      case Edited(mutation, edit, now) => EditIsSteady(t, s, mutation, edit, now);
      case LeasesExpired(devices) => ExpireIsSteady(s, devices, d);
      case DeviceRemoved(device) => DeletionIsSteady(s, d, 0, 0, []);
      case PreRegistrationReleased(device, ip, link, instance) => DeletionIsSteady(s, d, ip, link, instance);
      case RegistrationConfirmed(device) => ConfirmIsSteady(s, d);
      case RuntimeReported(device, subnets) => ReportIsSteady(s, d, subnets);
    }
  }

  /** A device that a step creates is stamped. */
  lemma NewDeviceIsStamped(t: Topology, s: State, e: Event, d: DeviceId)
    requires Core(t, s) && Possible(s, e) && d !in s.devices && d in Step(t, s, e).devices
    ensures Step(t, s, e).devices[d].stamp > s.dataVersion
  {
    if !Concerns(e, d) {
      hide Core, Step;
      StepLeavesOthersUndisturbed(t, s, e, d);
    } else {
      hide Core, ExpireAll, AllocateIp, Attach, Granted, Without, Reindexed, UsableHost, ConflictingOwner;
      match e
      case Registered(req, link, ct, instance) => RegisterStamps(t, s, req, link, ct, instance);
      case LeasesExpired(devices) => ExpireAllIsExact(s.(dataVersion := s.dataVersion + 1), devices, d);
      case _ =>
    }
  }

  lemma RegisterStamps(t: Topology, s: State, req: Request, link: LinkId, ct: ClientType, instance: InstanceId)
    requires Core(t, s) && req.device !in s.devices
    ensures var s' := Register(t, s, req, link, ct, instance).0;
            req.device in s'.devices ==> s'.devices[req.device].stamp > s.dataVersion
  {
    hide Addresses, Attachments, AllocateIp, Attach;
    AllocateIpGrants(t, s, req, link, ct);
    var (s1, r) := AllocateIp(t, s, req, link, ct);
    if r.Ok? {
      AttachKeepsDevices(s1, req.device, r.value, link, instance);
    }
  }
}
