/**
 The tie between device entries and live sessions. It is the one part of the
 invariant that a possible step can break: the release of a pre-registration
 breaks it exactly when it deletes a device that is live at another address.
 */
module LeaseLinked {
  import opened Wrappers
  import opened Ipv4
  import opened LeaseModel
  import opened LeaseInvariant

  ghost predicate HoldsAddress(active: map<Ip, DeviceId>, device: DeviceId) {
    exists ip :: ip in active && active[ip] == device
  }

  /** A device is connected exactly when it holds a live address. */
  ghost predicate ConnectedIffActive(devices: map<DeviceId, Entry>, active: map<Ip, DeviceId>) {
    && (forall ip <- active :: active[ip] in devices && devices[active[ip]].connected)
    && (forall d <- devices :: devices[d].connected ==> HoldsAddress(active, d))
  }

  /** Exactly the live addresses have byte counters, those of the device live there. */
  ghost predicate TrafficFollows(devices: map<DeviceId, Entry>, active: map<Ip, DeviceId>, traffic: map<Ip, StatsId>) {
    && traffic.Keys == active.Keys
    && (forall ip <- traffic :: active[ip] in devices && traffic[ip] == devices[active[ip]].stats)
  }

  /** Entries and live sessions agree. */
  ghost predicate Linked(s: State) {
    && ConnectedIffActive(s.devices, s.active)
    && TrafficFollows(s.devices, s.active, s.traffic)
  }

  ghost predicate Inv(t: Topology, s: State) {
    Core(t, s) && Linked(s)
  }

  // ---------- one map at a time ----------

  lemma ReplaceKeepsConnected(devices: map<DeviceId, Entry>, active: map<Ip, DeviceId>, device: DeviceId, e: Entry)
    requires ConnectedIffActive(devices, active)
    requires device in devices && e.connected == devices[device].connected
    ensures ConnectedIffActive(devices[device := e], active)
  {
  }

  /** `device` becomes live at `ip` and nowhere else. */
  lemma TakeoverKeepsConnected(devices: map<DeviceId, Entry>, active: map<Ip, DeviceId>, device: DeviceId, e: Entry,
                               ip: Ip)
    requires ConnectedIffActive(devices, active)
    requires e.connected
    requires ip in active ==> active[ip] == device
    ensures ConnectedIffActive(devices[device := e], Takeover(active, device, ip))
  {
    var active' := Takeover(active, device, ip);
    assert active'[ip] == device;
    forall d | d in devices && d != device && devices[d].connected
      ensures HoldsAddress(active', d)
    {
      var a :| a in active && active[a] == d;
      assert active'[a] == d;
    }
  }

  lemma AttachKeepsTraffic(t: Topology, s: State, s1: State, device: DeviceId, grant: Grant, link: LinkId,
                           instance: InstanceId, ct: ClientType)
    requires TrafficFollows(s.devices, s.active, s.traffic)
    requires Exclusive(s.configured, s.active)
    requires Granted(t, s, s1, device, grant, ct)
    ensures var s2 := Attach(s1, device, grant, link, instance);
            TrafficFollows(s2.devices, s2.active, s2.traffic)
  {
    var s2 := Attach(s1, device, grant, link, instance);
    assert s2.traffic.Keys == s2.active.Keys;
  }

  lemma MoveKeepsTraffic(devices: map<DeviceId, Entry>, active: map<Ip, DeviceId>, traffic: map<Ip, StatsId>,
                         oldIp: Ip, newIp: Ip)
    requires TrafficFollows(devices, active, traffic) && oldIp in active && newIp !in active
    ensures TrafficFollows(devices, (active - {oldIp})[newIp := active[oldIp]],
                           (traffic - {oldIp})[newIp := traffic[oldIp]])
  {
    assert ((traffic - {oldIp})[newIp := traffic[oldIp]]).Keys == ((active - {oldIp})[newIp := active[oldIp]]).Keys;
  }

  lemma ReplaceKeepsTraffic(devices: map<DeviceId, Entry>, active: map<Ip, DeviceId>, traffic: map<Ip, StatsId>,
                            device: DeviceId, e: Entry)
    requires TrafficFollows(devices, active, traffic)
    requires device in devices ==> e.stats == devices[device].stats
    ensures TrafficFollows(devices[device := e], active, traffic)
  {
  }

  lemma DetachKeepsTraffic(devices: map<DeviceId, Entry>, active: map<Ip, DeviceId>, traffic: map<Ip, StatsId>,
                           gone: set<Ip>)
    requires TrafficFollows(devices, active, traffic)
    ensures TrafficFollows(devices, active - gone, traffic - gone)
  {
    assert (traffic - gone).Keys == (active - gone).Keys;
  }

  /** Dropping all live addresses of a device that ends up not connected. */
  lemma LeaveKeepsConnected(devices: map<DeviceId, Entry>, active: map<Ip, DeviceId>, device: DeviceId, gone: set<Ip>,
                            devices': map<DeviceId, Entry>)
    requires ConnectedIffActive(devices, active)
    requires forall ip :: ip in active ==> (ip in gone <==> active[ip] == device)
    requires forall d :: d != device ==> Get(devices', d) == Get(devices, d)
    requires device in devices' ==> !devices'[device].connected
    ensures ConnectedIffActive(devices', active - gone)
  {
    var active' := active - gone;
    forall d | d in devices' && devices'[d].connected
      ensures HoldsAddress(active', d)
    {
      assert Get(devices', d) == Get(devices, d);
      assert HoldsAddress(active, d);
      var a :| a in active && active[a] == d;
      assert active'[a] == d;
    }
    forall ip | ip in active'
      ensures active'[ip] in devices' && devices'[active'[ip]].connected
    {
      assert Get(devices', active[ip]) == Get(devices, active[ip]);
    }
  }

  lemma NewDeviceKeepsConnected(devices: map<DeviceId, Entry>, active: map<Ip, DeviceId>, device: DeviceId, e: Entry)
    requires ConnectedIffActive(devices, active)
    requires device !in devices && !e.connected
    ensures ConnectedIffActive(devices[device := e], active)
  {
  }

  // ---------- registration ----------

  lemma AttachKeepsLinked(t: Topology, s: State, s1: State, device: DeviceId, grant: Grant, link: LinkId,
                          instance: InstanceId, ct: ClientType)
    requires Linked(s) && Exclusive(s.configured, s.active) && Granted(t, s, s1, device, grant, ct)
    ensures device in s1.devices && Linked(Attach(s1, device, grant, link, instance))
  {
    var s2 := Attach(s1, device, grant, link, instance);
    assert s2.active == Takeover(s.active, device, grant.ip);
    hide ConnectedIffActive, TrafficFollows;
    TakeoverKeepsConnected(s.devices, s.active, device, s1.devices[device], grant.ip);
    AttachKeepsTraffic(t, s, s1, device, grant, link, instance, ct);
  }

  lemma RegisterKeepsLinked(t: Topology, s: State, req: Request, link: LinkId, ct: ClientType, instance: InstanceId)
    requires Inv(t, s)
    ensures Linked(Register(t, s, req, link, ct, instance).0)
  {
    hide ConfiguredInverse, ConnectedConfigured, OneActive, AllUsable, Attachments, ConnectedIffActive, TrafficFollows,
      AllocateIp, Attach, Granted, Exclusive, ConflictingOwner;
    AllocateIpGrants(t, s, req, link, ct);
    var (s1, r) := AllocateIp(t, s, req, link, ct);
    if r.Ok? {
      AttachKeepsLinked(t, s, s1, req.device, r.value, link, instance, ct);
    }
  }

  lemma OnlyLiveAt(t: Topology, s: State, device: DeviceId, ip: Ip, other: Ip)
    requires Core(t, s) && Get(s.active, ip) == Some(device) && ip != other
    requires ConflictingOwner(s.configured, s.active, other, device).None?
    ensures other !in s.active && ip in s.senders && ip in s.traffic
    ensures StaleAddresses(s.active, device, other) == {ip}
  {
    hide ConfiguredInverse, ConnectedConfigured, Exclusive, AllUsable, OwnCounters, LinksIssued, PoolsBelow,
      DrainsOwned, Stamped;
  }

  lemma ReaddressKeepsLinked(t: Topology, s: State, device: DeviceId, oldIp: Ip, newIp: Ip)
    requires Inv(t, s) && device in s.devices && s.devices[device].connected
    requires ConflictingOwner(s.configured, s.active, newIp, device).None?
    requires Get(s.active, oldIp) == Some(device) && oldIp != newIp
    ensures oldIp in s.senders && Linked(Readdress(s, device, oldIp, newIp))
  {
    hide Core, ConnectedIffActive, TrafficFollows;
    OnlyLiveAt(t, s, device, oldIp, newIp);
    var s2 := Readdress(s, device, oldIp, newIp);
    assert s2.active == Takeover(s.active, device, newIp);
    hide StaleAddresses;
    TakeoverKeepsConnected(s.devices, s.active, device, s2.devices[device], newIp);
    MoveKeepsTraffic(s.devices, s.active, s.traffic, oldIp, newIp);
    ReplaceKeepsTraffic(s.devices, s2.active, s2.traffic, device, s2.devices[device]);
  }

  lemma FastRegisterKeepsLinked(t: Topology, s: State, device: DeviceId, oldIp: Ip, newIp: Ip, link: LinkId,
                                instance: InstanceId)
    requires Inv(t, s)
    ensures Linked(FastRegister(t, s, device, oldIp, newIp, link, instance).0)
  {
    hide Core, Linked, Readdress;
    if FastRegister(t, s, device, oldIp, newIp, link, instance).0 != s {
      ReaddressKeepsLinked(t, s, device, oldIp, newIp);
    }
  }

  // ---------- disconnect and management ----------

  lemma RemoveLinkKeepsLinked(s: State, device: DeviceId, ip: Ip, h: PoolId, link: LinkId, instance: InstanceId)
    requires Linked(s)
    ensures Linked(RemoveLink(s, device, ip, h, link, instance).0)
  {
    hide ConnectedIffActive, TrafficFollows;
  }

  lemma FinalizeKeepsLinked(t: Topology, s: State, device: DeviceId, ip: Ip, pool: PoolId, now: nat)
    requires Inv(t, s) && Drain(device, ip, pool) in s.draining
    ensures Linked(FinalizeOffline(s, device, ip, pool, now).0)
  {
    hide Core, ConnectedIffActive, TrafficFollows;
    var (s2, done) := FinalizeOffline(s, device, ip, pool, now);
    if done {
      DrainedAddress(t, s, device, ip, pool);
      LeaveKeepsConnected(s.devices, s.active, device, {ip}, s2.devices);
      DetachKeepsTraffic(s.devices, s.active, s.traffic, {ip});
      ReplaceKeepsTraffic(s.devices, s2.active, s2.traffic, device, s2.devices[device]);
    }
  }

  /** Replacing or creating an entry without touching its connection. */
  lemma PutKeepsLinked(s: State, s2: State, device: DeviceId, e: Entry)
    requires Linked(s)
    requires if device in s.devices
             then e.connected == s.devices[device].connected && e.stats == s.devices[device].stats
             else !e.connected
    requires s2.devices == s.devices[device := e] && s2.active == s.active && s2.traffic == s.traffic
    ensures Linked(s2)
  {
    hide ConnectedIffActive, TrafficFollows;
    if device in s.devices {
      ReplaceKeepsConnected(s.devices, s.active, device, e);
    } else {
      NewDeviceKeepsConnected(s.devices, s.active, device, e);
    }
    ReplaceKeepsTraffic(s.devices, s.active, s.traffic, device, e);
  }

  lemma TouchKeepsLinked(s: State, device: DeviceId, subnets: seq<Net>)
    requires Linked(s)
    ensures Linked(Confirm(s, device)) && Linked(UpdateRuntime(s, device, subnets))
  {
    hide Linked;
    if device in s.devices {
      var s1, s2 := Confirm(s, device), UpdateRuntime(s, device, subnets);
      if s1 != s {
        PutKeepsLinked(s, s1, device, s1.devices[device]);
      }
      if s2 != s {
        PutKeepsLinked(s, s2, device, s2.devices[device]);
      }
    }
  }

  lemma UpsertKeepsLinked(s: State, edit: Edit, ct: ClientType, now: nat)
    requires Linked(s)
    ensures Linked(Upsert(s, edit, ct, now).0)
  {
    hide Linked;
    var (s2, r) := Upsert(s, edit, ct, now);
    if r.Ok? {
      PutKeepsLinked(s, s2, edit.device, s2.devices[edit.device]);
    }
  }

  lemma UpsertDeviceKeepsLinked(t: Topology, s: State, mutation: Mutation, edit: Edit, now: nat)
    requires Linked(s)
    ensures Linked(UpsertDevice(t, s, mutation, edit, now).0)
  {
    hide Linked, Upsert;
    if mutation.Update? ==> edit.device in s.devices {
      var ct := if mutation.Create? then mutation.clientType else s.devices[edit.device].clientType;
      UpsertKeepsLinked(s, if ct.Wireguard? then edit.(ipType := Static) else edit, ct, now);
    }
  }

  lemma {:induction false} ExpireAllKeepsLinked(s: State, devices: seq<DeviceId>)
    requires Linked(s)
    ensures Linked(ExpireAll(s, devices).0)
    decreases |devices|
  {
    hide Linked;
    if devices != [] {
      var d := devices[|devices| - 1];
      ExpireAllKeepsLinked(s, devices[..|devices| - 1]);
      var s1, s2 := ExpireAll(s, devices[..|devices| - 1]).0, ExpireAll(s, devices).0;
      if s2 != s1 {
        PutKeepsLinked(s1, s2, d, s2.devices[d]);
      }
    }
  }

  lemma ExpireKeepsLinked(s: State, devices: seq<DeviceId>)
    requires Linked(s)
    ensures Linked(Expire(s, devices).0)
  {
    hide ConnectedIffActive, TrafficFollows, ExpireAll;
    ExpireAllKeepsLinked(s.(dataVersion := s.dataVersion + 1), devices);
  }

  /** Deleting a device together with exactly its live addresses. */
  lemma DeleteKeepsLinked(s: State, device: DeviceId, gone: set<Ip>)
    requires Linked(s) && device in s.devices
    requires forall ip :: ip in s.active ==> (ip in gone <==> s.active[ip] == device)
    ensures Linked(Deleted(s, device, gone))
  {
    LeaveKeepsConnected(s.devices, s.active, device, gone, s.devices - {device});
    DetachKeepsTraffic(s.devices, s.active, s.traffic, gone);
  }

  lemma RemoveDeviceKeepsLinked(s: State, device: DeviceId)
    requires Linked(s)
    ensures Linked(RemoveDevice(s, device))
  {
    hide Linked;
    if device in s.devices {
      DeleteKeepsLinked(s, device, set a | a in s.active && s.active[a] == device);
    }
  }

  // ---------- the release of a pre-registration ----------

  /** The device is live nowhere but, possibly, at `ip`. */
  ghost predicate LiveOnlyAt(s: State, device: DeviceId, ip: Ip) {
    forall a :: a in s.active && s.active[a] == device ==> a == ip
  }

  /**
   Releasing a pre-registration keeps entries and sessions together exactly when
   it does not delete a device that is live at some other address.
   */
  lemma ReleaseKeepsLinkedIff(t: Topology, s: State, device: DeviceId, ip: Ip, link: LinkId, instance: InstanceId)
    requires Inv(t, s)
    ensures Linked(Release(s, device, ip, link, instance)) <==>
            (Releases(s, device, ip, link, instance) ==> LiveOnlyAt(s, device, ip))
  {
    hide Core, ConnectedIffActive, TrafficFollows;
    var s1, s2 := Unlink(s, ip, link, instance).0, Release(s, device, ip, link, instance);
    if Releases(s, device, ip, link, instance) {
      if LiveOnlyAt(s, device, ip) {
        ConfiguredNotForeign(t, s, device, ip);
        DeleteKeepsLinked(s1, device, {ip});
      } else {
        var a :| a in s.active && s.active[a] == device && a != ip;
        assert s2.active[a] == device && device !in s2.devices;
        OrphanIsNotLinked(s2, a);
      }
    }
  }

  lemma OrphanIsNotLinked(s: State, ip: Ip)
    requires ip in s.active && s.active[ip] !in s.devices
    ensures !Linked(s)
  {
  }

  // ---------- start ----------

  lemma LoadIsLinked(t: Topology, records: seq<Record>, now: nat)
    requires SoundRecords(t, records)
    ensures Inv(t, Load(t, records, now))
  {
    hide Core, SoundRecords;
    LoadSatisfiesCore(t, records, now);
    NobodyConnected(t, records, now);
  }

  lemma {:induction false} NobodyConnected(t: Topology, records: seq<Record>, now: nat)
    ensures forall d <- Load(t, records, now).devices :: !Load(t, records, now).devices[d].connected
    ensures Load(t, records, now).active == map[] && Load(t, records, now).traffic == map[]
    decreases |records|
  {
    if records != [] {
      NobodyConnected(t, records[..|records| - 1], now);
    }
  }
}
