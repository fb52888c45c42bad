/** The lease table as the object that the server mutates; each method is one lock region. */
module NetworkStates {
  import opened Wrappers
  import opened Ipv4
  import opened LeaseModel
  import opened LeaseInvariant
  import opened LeaseLinked
  import opened LeaseProperties
  import opened SplitRelease

  class NetworkState {
    const topology: Topology
    var dataVersion: nat
    var fullSyncVersion: nat
    var deviceMap: map<DeviceId, Entry>
    var deviceIpMap: map<Ip, DeviceId>
    var activeIpMap: map<Ip, DeviceId>
    var senderMap: map<Ip, PoolId>
    var trafficStatsMap: map<Ip, StatsId>
    var pools: map<PoolId, Pool>
    var nextPool: PoolId
    var nextStats: StatsId
    ghost var issued: map<LinkId, Ticket>
    ghost var draining: set<Drain>

    ghost function View(): State
      reads this
    {
      State(dataVersion, fullSyncVersion, deviceMap, deviceIpMap, activeIpMap, senderMap, trafficStatsMap, pools,
            nextPool, nextStats, issued, draining)
    }

    ghost predicate Valid()
      reads this
    {
      Core(topology, View())
    }

    constructor (t: Topology, records: seq<Record>, now: nat)
      ensures topology == t && View() == Load(t, records, now)
      ensures SoundRecords(t, records) ==> Valid()
    {
      topology := t;
      dataVersion, fullSyncVersion := 0, 0;
      deviceMap, deviceIpMap, activeIpMap := map[], map[], map[];
      senderMap, trafficStatsMap := map[], map[];
      pools, nextPool, nextStats := map[], 0, 0;
      issued, draining := map[], {};
      new;
      for i := 0 to |records|
        invariant topology == t
        invariant View() == Load(t, records[..i], now)
      {
        assert records[..i + 1][..i] == records[..i];
        var r := records[i];
        if r.ip.Some? && topology.Usable(r.ip.value) {
          deviceIpMap := deviceIpMap[r.ip.value := r.device];
        }
        deviceMap := deviceMap[r.device := Entry(r.ip, r.ipType, r.clientType, 0, false, false, Some(now), 0, nextStats,
                                                 r.subnets, r.wgRoutes)];
        nextStats := nextStats + 1;
      }
      assert records[..|records|] == records;
      if SoundRecords(t, records) {
        LoadSatisfiesCore(t, records, now);
      }
    }

    /** The device has the address configured or live. */
    ghost predicate HasAddress(device: DeviceId, ip: Ip)
      reads this
    {
      Get(deviceIpMap, ip) == Some(device) || Get(activeIpMap, ip) == Some(device)
    }

    /** Another device that has the address, or none if there is no such device. */
    method ConflictingIpOwner(ip: Ip, device: DeviceId) returns (owner: Option<DeviceId>)
      ensures owner == ConflictingOwner(deviceIpMap, activeIpMap, ip, device)
      ensures owner.Some? ==> owner.value != device && HasAddress(owner.value, ip)
      ensures owner.None? ==> forall d :: HasAddress(d, ip) ==> d == device
    {
      if ip in deviceIpMap && deviceIpMap[ip] != device {
        return Some(deviceIpMap[ip]);
      }
      if ip in activeIpMap && activeIpMap[ip] != device {
        return Some(activeIpMap[ip]);
      }
      owner := None;
    }

    /** Scans the host range upwards for the first address that nobody has configured or live. */
    method FindAvailableIp() returns (r: Result<Ip, Refusal>)
      ensures r == FindAvailable(topology, Taken(View()))
    {
      if topology.net.network + 1 >= ADDRESS_COUNT {
        return Err(InvalidNetwork);
      }
      var i, end := topology.net.network + 1, topology.net.Broadcast();
      while i < end
        invariant FirstFree(Taken(View()), topology.gateway, i, end) ==
                  FirstFree(Taken(View()), topology.gateway, topology.net.network + 1, end)
        decreases if i < end then end - i else 0
      {
        if i != topology.gateway && i !in deviceIpMap && i !in activeIpMap {
          return Ok(i);
        }
        i := i + 1;
      }
      r := Err(Exhausted);
    }

    method AllocateIpAs(req: Request, link: LinkId, ct: ClientType) returns (r: Result<Grant, Refusal>)
      modifies this
      ensures (View(), r) == AllocateIp(topology, old(View()), req, link, ct)
    {
      var existing := Get(deviceMap, req.device);
      var wanted := req.ip;
      if existing.Some? {
        if existing.value.ipType.Fixed? {
          if existing.value.ip.None? {
            return Err(FixedWithoutAddress);
          }
          wanted := existing.value.ip;
        } else if req.ip.None? {
          wanted := existing.value.ip;
        }
      }
      if existing.Some? && (wanted.None? || existing.value.ip == wanted) {
        r := KeepAddress(req, link, ct);
        return;
      }
      var prior := if existing.Some? then existing.value.ip else None;
      if wanted.Some? {
        var refusal := RefuseAddress(wanted.value, req.device);
        if refusal.None? {
          Move(req, link, ct, wanted.value, prior);
          return Ok(Grant(wanted.value, prior));
        }
        if (existing.Some? && existing.value.ipType.Fixed?) || !req.ipVariable {
          return Err(refusal.value);
        }
      }
      var free := FindAvailableIp();
      if free.Err? {
        return Err(free.error);
      }
      Move(req, link, ct, free.value, prior);
      r := Ok(Grant(free.value, prior));
    }

    /** Updates the entry first and checks ownership of the address afterwards. */
    method KeepAddress(req: Request, link: LinkId, ct: ClientType) returns (r: Result<Grant, Refusal>)
      requires req.device in deviceMap
      modifies this
      ensures (View(), r) == Keep(topology, old(View()), req, link, ct)
    {
      var entry := deviceMap[req.device];
      var newIp := None;
      if entry.ip.None? {
        var free := FindAvailableIp();
        if free.Err? {
          return Err(free.error);
        }
        newIp := Some(free.value);
      }
      dataVersion := dataVersion + 1;
      entry := entry.(connected := true, disconnectedAt := None, randomId := link, stamp := dataVersion,
                      clientType := ct, subnets := req.subnets, advertising := req.mode.Normal?);
      if newIp.Some? {
        deviceMap := deviceMap[req.device := entry.(ip := newIp)];
        deviceIpMap := deviceIpMap[newIp.value := req.device];
        return Ok(Grant(newIp.value, None));
      }
      deviceMap := deviceMap[req.device := entry];
      var owner := ConflictingIpOwner(entry.ip.value, req.device);
      if owner.Some? {
        return Err(AddressTaken(owner.value));
      }
      r := Ok(Grant(entry.ip.value, None));
    }

    method RefuseAddress(ip: Ip, device: DeviceId) returns (refusal: Option<Refusal>)
      ensures refusal == AddressRefusal(topology, View(), ip, device)
    {
      if ip == topology.gateway {
        return Some(GatewayAddress);
      }
      if !topology.net.Contains(ip) {
        return Some(OutsideNet);
      }
      if ip == topology.net.network || ip == topology.net.Broadcast() {
        return Some(NetworkOrBroadcast);
      }
      var owner := ConflictingIpOwner(ip, device);
      refusal := if owner.Some? then Some(AddressTaken(owner.value)) else None;
    }

    method Move(req: Request, link: LinkId, ct: ClientType, ip: Ip, prior: Option<Ip>)
      modifies this
      ensures View() == Adopt(old(View()), req, link, ct, ip, prior)
    {
      hide Without, AdoptedEntry;
      deviceIpMap := Without(deviceIpMap, prior);
      dataVersion := dataVersion + 1;
      if prior.Some? && prior.value != ip {
        fullSyncVersion := dataVersion;
      }
      deviceIpMap := deviceIpMap[ip := req.device];
      WriteGranted(req, link, ct, ip);
    }

    method WriteGranted(req: Request, link: LinkId, ct: ClientType, ip: Ip)
      modifies this`deviceMap, this`nextStats
      ensures deviceMap ==
              old(deviceMap)[req.device := AdoptedEntry(old(deviceMap), req, link, ct, ip, dataVersion, old(nextStats))]
      ensures nextStats == if req.device in old(deviceMap) then old(nextStats) else old(nextStats) + 1
    {
      var entry;
      if req.device in deviceMap {
        entry := deviceMap[req.device].(ip := Some(ip), connected := true, disconnectedAt := None, randomId := link,
                                        stamp := dataVersion, clientType := ct, subnets := req.subnets,
                                        advertising := req.mode.Normal?);
      } else {
        entry := NewEntry(req, link, ct, ip, dataVersion, nextStats);
        nextStats := nextStats + 1;
      }
      deviceMap := deviceMap[req.device := entry];
    }

    /** Registration of a session under the lease lock. */
    method AllocateIpAndGetEntryAs(req: Request, link: LinkId, ct: ClientType, instance: InstanceId)
      returns (r: Result<Grant, Refusal>)
      requires Valid() && link !in issued
      requires req.device in deviceMap ==> deviceMap[req.device].clientType == ct
      requires req.device !in deviceMap ==> ct.Vnt? && !topology.isPrivate
      modifies this
      ensures Valid()
      ensures (View(), r) == Register(topology, old(View()), req, link, ct, instance)
      ensures r.Err? ==> View() == old(View())
    {
      hide Core, AllocateIp, Attach;
      ghost var s := View();
      RegisterKeepsCore(topology, s, req, link, ct, instance);
      RefusedRegistrationChangesNothing(topology, s, req, link, ct, instance);
      if instance != [] && req.device in deviceMap {
        var existing := deviceMap[req.device];
        if existing.ip.Some? && req.ip == existing.ip && existing.ip.value in senderMap {
          var h := senderMap[existing.ip.value];
          if h in pools && pools[h].SameInstance(instance) {
            pools := pools[h := pools[h].WithLink(link)];
            issued := issued[link := Ticket(req.device, instance)];
            assert View() == AddLink(s, req.device, existing.ip.value, link, instance);
            return Ok(Grant(existing.ip.value, None));
          }
        }
      }
      r := AllocateIpAs(req, link, ct);
      if r.Err? {
        return;
      }
      AllocateEntryExists(topology, s, req, link, ct);
      AttachPool(req.device, r.value, link, instance);
    }

    method AttachPool(device: DeviceId, grant: Grant, link: LinkId, instance: InstanceId)
      requires device in deviceMap
      modifies this
      ensures View() == Attach(old(View()), device, grant, link, instance)
    {
      hide Detach, Install;
      DetachStale(device, grant);
      InstallPool(device, grant.ip, link, instance);
    }

    method InstallPool(device: DeviceId, ip: Ip, link: LinkId, instance: InstanceId)
      requires device in deviceMap
      modifies this
      ensures View() == Install(old(View()), device, ip, link, instance)
    {
      senderMap := senderMap[ip := nextPool];
      pools := pools[nextPool := Pool(device, instance, map[link := None])];
      nextPool := nextPool + 1;
      activeIpMap := activeIpMap[ip := device];
      trafficStatsMap := trafficStatsMap[ip := deviceMap[device].stats];
      issued := issued[link := Ticket(device, instance)];
    }

    method DetachStale(device: DeviceId, grant: Grant)
      modifies this
      ensures View() == Detach(old(View()), device, grant) && deviceMap == old(deviceMap)
    {
      hide AddressSet;
      DropReplaced(grant.prior);
      var stale := StaleAddresses(activeIpMap, device, grant.ip);
      hide StaleAddresses;
      if stale != {} {
        fullSyncVersion := dataVersion;
      }
      DropAddresses(stale);
      MinusTwice(old(senderMap), AddressSet(grant.prior), stale);
      MinusTwice(old(trafficStatsMap), AddressSet(grant.prior), stale);
    }

    method DropReplaced(prior: Option<Ip>)
      modifies this`senderMap, this`trafficStatsMap
      ensures senderMap == old(senderMap) - AddressSet(prior)
      ensures trafficStatsMap == old(trafficStatsMap) - AddressSet(prior)
    {
      if prior.Some? {
        senderMap := senderMap - {prior.value};
        trafficStatsMap := trafficStatsMap - {prior.value};
      }
    }

    method DropAddresses(ips: set<Ip>)
      modifies this`activeIpMap, this`senderMap, this`trafficStatsMap
      ensures activeIpMap == old(activeIpMap) - ips
      ensures senderMap == old(senderMap) - ips
      ensures trafficStatsMap == old(trafficStatsMap) - ips
    {
      var left := ips;
      while left != {}
        invariant left <= ips
        invariant activeIpMap == old(activeIpMap) - (ips - left)
        invariant senderMap == old(senderMap) - (ips - left)
        invariant trafficStatsMap == old(trafficStatsMap) - (ips - left)
        decreases left
      {
        var ip :| ip in left;
        activeIpMap := activeIpMap - {ip};
        senderMap := senderMap - {ip};
        trafficStatsMap := trafficStatsMap - {ip};
        left := left - {ip};
      }
      assert ips - left == ips;
    }

    method PoolOwning(ip: Ip, instance: InstanceId, link: LinkId) returns (owns: bool)
      ensures owns <==> PoolAt(View(), ip).Some? && PoolAt(View(), ip).value.OwnsLink(instance, link)
    {
      owns := ip in senderMap && senderMap[ip] in pools && pools[senderMap[ip]].OwnsLink(instance, link);
    }

    /** A live session takes up a new address. */
    method FastRegister(device: DeviceId, oldIp: Ip, newIp: Ip, link: LinkId, instance: InstanceId)
      returns (r: Result<(), Refusal>)
      requires Valid()
      modifies this
      ensures Valid()
      ensures (View(), r) == LeaseModel.FastRegister(topology, old(View()), device, oldIp, newIp, link, instance)
      ensures r.Err? ==> View() == old(View())
    {
      hide Core, Readdress, LeaseModel.FastRegister;
      FastRegisterKeepsCore(topology, View(), device, oldIp, newIp, link, instance);
      var refusal, done := CheckMove(device, oldIp, newIp, link, instance);
      if refusal.Some? {
        return Err(refusal.value);
      }
      if !done {
        MoveSession(device, oldIp, newIp);
      }
      r := Ok(());
    }

    /** The checks of fast re-addressing in their order; `done` if the link is already at the new address. */
    method CheckMove(device: DeviceId, oldIp: Ip, newIp: Ip, link: LinkId, instance: InstanceId)
      returns (refusal: Option<Refusal>, done: bool)
      ensures refusal.None? && !done ==> device in deviceMap && oldIp in senderMap
      ensures LeaseModel.FastRegister(topology, View(), device, oldIp, newIp, link, instance) ==
              if refusal.Some? then (View(), Err(refusal.value))
              else if done then (View(), Ok(()))
              else (Readdress(View(), device, oldIp, newIp), Ok(()))
    {
      hide Readdress, ConflictingOwner;
      done := false;
      if device !in deviceMap {
        return Some(UnknownDevice), false;
      }
      var entry := deviceMap[device];
      if !entry.connected {
        return Some(SessionEnded), false;
      }
      done := PoolOwning(newIp, instance, link);
      if done {
        return None, true;
      }
      if entry.ipType.Fixed? && entry.ip != Some(newIp) {
        return Some(FixedMismatch), false;
      }
      if !topology.Usable(newIp) {
        return Some(OutsideNet), false;
      }
      var owner := ConflictingIpOwner(newIp, device);
      if owner.Some? {
        return Some(AddressTaken(owner.value)), false;
      }
      if Get(activeIpMap, oldIp) != Some(device) {
        return Some(SessionMismatch), false;
      }
      var sends := PoolOwning(oldIp, instance, link);
      if !sends {
        return Some(NoSender), false;
      }
      refusal := None;
    }

    method MoveSession(device: DeviceId, oldIp: Ip, newIp: Ip)
      requires device in deviceMap && oldIp in senderMap
      modifies this
      ensures View() == Readdress(old(View()), device, oldIp, newIp)
    {
      hide Moved, Reconfigured;
      MoveLiveAddress(device, oldIp, newIp);
      dataVersion := dataVersion + 1;
      if oldIp != newIp {
        fullSyncVersion := dataVersion;
      }
      MoveConfiguredAddress(device, newIp);
    }

    method MoveLiveAddress(device: DeviceId, oldIp: Ip, newIp: Ip)
      requires oldIp in senderMap
      modifies this`activeIpMap, this`senderMap, this`trafficStatsMap
      ensures activeIpMap == Moved(old(activeIpMap), oldIp, newIp, device)
      ensures senderMap == Moved(old(senderMap), oldIp, newIp, old(senderMap[oldIp]))
      ensures trafficStatsMap ==
              if oldIp in old(trafficStatsMap)
                then Moved(old(trafficStatsMap), oldIp, newIp, old(trafficStatsMap)[oldIp])
              else old(trafficStatsMap)
    {
      var pool := senderMap[oldIp];
      var stats := Get(trafficStatsMap, oldIp);
      activeIpMap := activeIpMap - {oldIp};
      activeIpMap := activeIpMap[newIp := device];
      senderMap := senderMap - {oldIp};
      senderMap := senderMap[newIp := pool];
      if stats.Some? {
        trafficStatsMap := trafficStatsMap - {oldIp};
        trafficStatsMap := trafficStatsMap[newIp := stats.value];
      }
    }

    method MoveConfiguredAddress(device: DeviceId, newIp: Ip)
      requires device in deviceMap
      modifies this`deviceIpMap, this`deviceMap
      ensures deviceIpMap == Reconfigured(old(deviceIpMap), old(deviceMap[device].ip), newIp, device)
      ensures deviceMap == old(deviceMap)[device := old(deviceMap[device]).(ip := Some(newIp), stamp := dataVersion)]
    {
      var configuredIp := deviceMap[device].ip;
      if configuredIp != Some(newIp) {
        if configuredIp.Some? {
          deviceIpMap := deviceIpMap - {configuredIp.value};
        }
        deviceIpMap := deviceIpMap[newIp := device];
      }
      deviceMap := deviceMap[device := deviceMap[device].(ip := Some(newIp), stamp := dataVersion)];
    }

    /** What a disconnect looks up before anything else; the answer may be outdated when it is used. */
    method PoolHandle(ip: Ip) returns (pool: Option<PoolId>)
      requires Valid()
      ensures pool == Get(senderMap, ip)
      ensures pool.Some? ==> pool.value in pools && pools[pool.value].owner == activeIpMap[ip]
    {
      assert SendersFollow(activeIpMap, senderMap, pools) by {
        hide Addresses, SendersFollow, TrafficKeys, OwnCounters, LinksIssued, PoolsBelow, DrainsOwned, Stamped;
      }
      hide Core;
      pool := if ip in senderMap then Some(senderMap[ip]) else None;
    }

    /** First stage of a disconnect, on a handle found earlier; the pool is returned if this was its last link. */
    method OfflineRemoveLink(device: DeviceId, ip: Ip, h: PoolId, link: LinkId, instance: InstanceId)
      returns (pool: Option<PoolId>)
      requires Valid() && Get(issued, link) == Some(Ticket(device, instance))
      modifies this`pools, this`draining
      ensures Valid()
      ensures (View(), pool) == RemoveLink(old(View()), device, ip, h, link, instance)
    {
      hide Core;
      RemoveLinkKeepsCore(topology, View(), device, ip, h, link, instance);
      if h !in pools || !pools[h].OwnsLink(instance, link) {
        return None;
      }
      pools := pools[h := pools[h].WithoutLink(link)];
      if pools[h].links != map[] {
        return None;
      }
      draining := draining + {Drain(device, ip, h)};
      pool := Some(h);
    }

    /** Second stage; links may have been added and sessions replaced since the first. */
    method FinalizeOffline(device: DeviceId, ip: Ip, pool: PoolId, now: nat) returns (done: bool)
      requires Valid() && Drain(device, ip, pool) in draining
      modifies this
      ensures Valid()
      ensures (View(), done) == LeaseModel.FinalizeOffline(old(View()), device, ip, pool, now)
    {
      hide Core;
      FinalizeKeepsCore(topology, View(), device, ip, pool, now);
      draining := draining - {Drain(device, ip, pool)};
      var drained := ip in senderMap && senderMap[ip] == pool && pool in pools && pools[pool].links == map[];
      if !drained || device !in deviceMap {
        return false;
      }
      MarkOffline(device, ip, now);
      senderMap := senderMap - {ip};
      trafficStatsMap := trafficStatsMap - {ip};
      done := true;
    }

    method MarkOffline(device: DeviceId, ip: Ip, now: nat)
      requires device in deviceMap
      modifies this`dataVersion, this`fullSyncVersion, this`deviceMap, this`activeIpMap
      ensures dataVersion == old(dataVersion) + 1
      ensures fullSyncVersion == if old(deviceMap[device].ip) != Some(ip) then dataVersion else old(fullSyncVersion)
      ensures deviceMap ==
              old(deviceMap)[device := old(deviceMap[device]).(stamp := dataVersion, connected := false,
                                                              advertising := false, disconnectedAt := Some(now))]
      ensures activeIpMap == old(activeIpMap) - {ip}
    {
      var entry := deviceMap[device];
      dataVersion := dataVersion + 1;
      deviceMap := deviceMap[device := entry.(stamp := dataVersion, connected := false, advertising := false,
                                              disconnectedAt := Some(now))];
      activeIpMap := activeIpMap - {ip};
      if entry.ip != Some(ip) {
        fullSyncVersion := dataVersion;
      }
    }

    /** A management edit of an address that the service found usable. */
    method UpsertDeviceConfig(edit: Edit, ct: ClientType, now: nat) returns (r: Result<(), Refusal>)
      requires Valid() && topology.Usable(edit.ip)
      modifies this
      ensures Valid()
      ensures (View(), r) == Upsert(old(View()), edit, ct, now)
      ensures r.Err? ==> View() == old(View())
    {
      hide Core, PublishNow, NeedsFullSync, EditedEntry, Without;
      UpsertKeepsCore(topology, View(), edit, ct, now);
      var owner := ConflictingIpOwner(edit.ip, edit.device);
      if owner.Some? {
        return Err(AddressTaken(owner.value));
      }
      ApplyEdit(edit, ct, now);
      r := Ok(());
    }

    method ApplyEdit(edit: Edit, ct: ClientType, now: nat)
      requires ConflictingOwner(deviceIpMap, activeIpMap, edit.ip, edit.device).None?
      modifies this
      ensures View() == Upsert(old(View()), edit, ct, now).0
    {
      hide PublishNow, NeedsFullSync, EditedEntry, Reindexed, ConflictingOwner;
      var previous := Get(deviceMap, edit.device);
      PublishEdit(previous, edit);
      WriteEntry(previous, edit, ct, now);
      Reindex(previous, edit);
    }

    method Reindex(previous: Option<Entry>, edit: Edit)
      modifies this`deviceIpMap
      ensures deviceIpMap == Reindexed(old(deviceIpMap), previous, edit)
    {
      if previous.Some? && previous.value.ip != Some(edit.ip) && previous.value.ip.Some? {
        deviceIpMap := deviceIpMap - {previous.value.ip.value};
      }
      deviceIpMap := deviceIpMap[edit.ip := edit.device];
    }

    method PublishEdit(previous: Option<Entry>, edit: Edit)
      modifies this`dataVersion, this`fullSyncVersion
      ensures dataVersion == old(dataVersion) + (if PublishNow(previous, edit) then 1 else 0)
      ensures fullSyncVersion ==
              if PublishNow(previous, edit) && NeedsFullSync(previous, edit) then dataVersion else old(fullSyncVersion)
    {
      if PublishNow(previous, edit) {
        dataVersion := dataVersion + 1;
        if NeedsFullSync(previous, edit) {
          fullSyncVersion := dataVersion;
        }
      }
    }

    method WriteEntry(previous: Option<Entry>, edit: Edit, ct: ClientType, now: nat)
      requires previous == Get(deviceMap, edit.device)
      modifies this`deviceMap, this`nextStats
      ensures deviceMap ==
              old(deviceMap)[edit.device := EditedEntry(previous, edit, ct, now, dataVersion, old(nextStats))]
      ensures nextStats == if previous.None? then old(nextStats) + 1 else old(nextStats)
    {
      if previous.Some? {
        var stamp := if PublishNow(previous, edit) then dataVersion else previous.value.stamp;
        deviceMap := deviceMap[edit.device :=
          previous.value.(ip := Some(edit.ip), ipType := edit.ipType, clientType := ct, subnets := Outputs(edit, ct),
                          wgRoutes := edit.wgRoutes, stamp := stamp)];
      } else {
        deviceMap := deviceMap[edit.device :=
          Entry(Some(edit.ip), edit.ipType, ct, 0, false, false, Some(now), dataVersion, nextStats,
                Outputs(edit, ct), edit.wgRoutes)];
        nextStats := nextStats + 1;
      }
    }

    /** Lease expiry; returns the devices that gave up an address. */
    method RemoveDevices(devices: seq<DeviceId>) returns (released: seq<DeviceId>)
      requires Valid()
      modifies this
      ensures Valid()
      ensures (View(), released) == Expire(old(View()), devices)
    {
      hide Core;
      ExpireKeepsCore(topology, View(), devices);
      released := [];
      if devices == [] {
        return;
      }
      dataVersion := dataVersion + 1;
      ghost var s := View();
      for i := 0 to |devices|
        invariant (View(), released) == ExpireAll(s, devices[..i])
        invariant dataVersion == s.dataVersion
      {
        assert devices[..i + 1][..i] == devices[..i];
        var d := devices[i];
        if d in deviceMap && !deviceMap[d].connected && deviceMap[d].ipType.Dynamic? {
          var entry := deviceMap[d];
          if entry.ip.Some? {
            deviceIpMap := deviceIpMap - {entry.ip.value};
            released := released + [d];
          }
          deviceMap := deviceMap[d := entry.(ip := None, stamp := dataVersion)];
        }
      }
      assert devices[..|devices|] == devices;
      if released != [] {
        fullSyncVersion := dataVersion;
      }
    }

    method RemoveDeviceFromMemory(device: DeviceId)
      requires Valid()
      modifies this
      ensures Valid()
      ensures View() == RemoveDevice(old(View()), device)
    {
      hide Core;
      RemoveDeviceKeepsCore(topology, View(), device);
      if device in deviceMap {
        ForgetDevice(device, deviceMap[device].ip);
        var live := set a | a in activeIpMap && activeIpMap[a] == device;
        DropAddresses(live);
      }
    }

    method ForgetDevice(device: DeviceId, ip: Option<Ip>)
      modifies this`deviceMap, this`deviceIpMap, this`dataVersion, this`fullSyncVersion
      ensures deviceMap == old(deviceMap) - {device}
      ensures deviceIpMap == Without(old(deviceIpMap), ip)
      ensures dataVersion == old(dataVersion) + 1 == fullSyncVersion
    {
      deviceMap := deviceMap - {device};
      if ip.Some? {
        deviceIpMap := deviceIpMap - {ip.value};
      }
      dataVersion := dataVersion + 1;
      fullSyncVersion := dataVersion;
    }

    /** Drops the link of an unconfirmed session; entries and sessions stay together exactly under the guard. */
    method ReleasePreRegisteredIp(device: DeviceId, ip: Ip, link: LinkId, instance: InstanceId)
      requires Valid()
      modifies this
      ensures Valid()
      ensures View() == Release(old(View()), device, ip, link, instance)
      ensures old(Linked(View())) ==>
                (Linked(View()) <==>
                 old(Releases(View(), device, ip, link, instance) ==> LiveOnlyAt(View(), device, ip)))
    {
      hide Core, LiveOnlyAt, Linked, Releases, ReleaseLocked, Sweep;
      ReleaseKeepsInv(topology, View(), device, ip, link, instance);
      var shouldRemove := ReleaseUnderLock(device, ip, link, instance);
      if shouldRemove {
        SweepReleased(ip);
      }
    }

    /** The part under the lease lock; the answer says whether the removals are still to be made. */
    method ReleaseUnderLock(device: DeviceId, ip: Ip, link: LinkId, instance: InstanceId) returns (shouldRemove: bool)
      modifies this
      ensures View() == ReleaseLocked(old(View()), device, ip, link, instance)
      ensures shouldRemove == Releases(old(View()), device, ip, link, instance)
    {
      var poolDrained := UnlinkSession(ip, link, instance);
      shouldRemove :=
        poolDrained && device in deviceMap && deviceMap[device].randomId == link && deviceMap[device].ip == Some(ip);
      if shouldRemove {
        ForgetDevice(device, Some(ip));
        activeIpMap := activeIpMap - {ip};
      }
    }

    /** The part after it: the table stays valid exactly if nobody has become live at the address meanwhile. */
    method SweepReleased(ip: Ip)
      modifies this`senderMap, this`trafficStatsMap
      ensures View() == Sweep(old(View()), ip)
      ensures old(Valid()) ==> (Valid() <==> ip !in activeIpMap)
    {
      hide Core;
      if Valid() {
        SweepKeepsCoreIff(topology, View(), ip);
      }
      senderMap := senderMap - {ip};
      trafficStatsMap := trafficStatsMap - {ip};
    }

    method UnlinkSession(ip: Ip, link: LinkId, instance: InstanceId) returns (drained: bool)
      modifies this`pools
      ensures (View(), drained) == Unlink(old(View()), ip, link, instance)
    {
      drained := true;
      if ip in senderMap && senderMap[ip] in pools {
        var h := senderMap[ip];
        drained := false;
        if pools[h].OwnsLink(instance, link) {
          pools := pools[h := pools[h].WithoutLink(link)];
          drained := pools[h].links == map[];
        }
      }
    }

    method UpdateManagedRuntimeMetadata(device: DeviceId, subnets: seq<Net>)
      requires Valid()
      modifies this
      ensures Valid()
      ensures View() == UpdateRuntime(old(View()), device, subnets)
    {
      hide Core;
      UpdateRuntimeKeepsCore(topology, View(), device, subnets);
      if device in deviceMap && deviceMap[device].connected && deviceMap[device].clientType.Vnt? {
        dataVersion := dataVersion + 1;
        deviceMap := deviceMap[device := deviceMap[device].(subnets := subnets, stamp := dataVersion)];
      }
    }

    method ConfirmRegistration(device: DeviceId)
      requires Valid()
      modifies this
      ensures Valid()
      ensures View() == Confirm(old(View()), device)
    {
      hide Core;
      ConfirmKeepsCore(topology, View(), device);
      var version := dataVersion + 1;
      if device in deviceMap && !deviceMap[device].advertising {
        deviceMap := deviceMap[device := deviceMap[device].(advertising := true, stamp := version)];
        dataVersion := version;
      }
    }
  }

  lemma ReleaseKeepsInv(t: Topology, s: State, device: DeviceId, ip: Ip, link: LinkId, instance: InstanceId)
    requires Core(t, s)
    ensures var s' := Release(s, device, ip, link, instance);
            && Core(t, s')
            && (Linked(s) ==>
                  (Linked(s') <==> (Releases(s, device, ip, link, instance) ==> LiveOnlyAt(s, device, ip))))
  {
    hide Core, LiveOnlyAt, Linked, Release, Releases;
    ReleaseKeepsCore(t, s, device, ip, link, instance);
    if Linked(s) {
      ReleaseKeepsLinkedIff(t, s, device, ip, link, instance);
    }
  }

  lemma MinusTwice<K, V>(m: map<K, V>, a: set<K>, b: set<K>)
    ensures m - a - b == m - (b + a)
  {
  }
}
