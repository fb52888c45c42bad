/** What each step achieves, said without reference to how it is carried out. */
module LeaseEffects {
  import opened Wrappers
  import opened Ipv4
  import opened LeaseModel
  import opened LeaseInvariant
  import opened LeaseLinked
  import opened LeaseRuns
  import opened LeaseProperties

  // ---------- registration ----------

  /** The service lets a client of this type try to register. */
  predicate Admitted(t: Topology, s: State, req: Request, ct: ClientType) {
    if req.device in s.devices then s.devices[req.device].clientType == ct else ct.Vnt? && !t.isPrivate
  }

  /** A usable host that no other device occupies. */
  ghost predicate Obtainable(t: Topology, s: State, device: DeviceId, ip: Ip) {
    t.Usable(ip) && forall d :: Occupies(s, d, ip) ==> d == device
  }

  ghost predicate IsFree(t: Topology, s: State, ip: Ip) {
    t.Usable(ip) && forall d :: !Occupies(s, d, ip)
  }

  ghost predicate IsLeastFree(t: Topology, s: State, ip: Ip) {
    IsFree(t, s, ip) && forall j :: IsFree(t, s, j) ==> ip <= j
  }

  /** Only a device that is not Fixed may be given another address than the expected one. */
  predicate MayVary(s: State, req: Request, wanted: Option<Ip>) {
    wanted.None? || (req.ipVariable && (req.device in s.devices ==> !s.devices[req.device].ipType.Fixed?))
  }

  ghost predicate Grantable(t: Topology, s: State, req: Request) {
    && Expected(s, req).Ok?
    && var wanted := Expected(s, req).value;
       || (wanted.Some? && Obtainable(t, s, req.device, wanted.value))
       || (MayVary(s, req, wanted) && exists ip :: IsFree(t, s, ip))
  }

  ghost predicate RightAddress(t: Topology, s: State, req: Request, ip: Ip) {
    && Expected(s, req).Ok?
    && var wanted := Expected(s, req).value;
       if wanted.Some? && Obtainable(t, s, req.device, wanted.value) then wanted == Some(ip)
       else MayVary(s, req, wanted) && IsLeastFree(t, s, ip)
  }

  lemma NoConflictIffObtainable(t: Topology, s: State, device: DeviceId, ip: Ip)
    requires ConfiguredInverse(s.devices, s.configured) && Exclusive(s.configured, s.active)
    ensures AddressRefusal(t, s, ip, device).None? <==> Obtainable(t, s, device, ip)
  {
    if ip in s.configured {
      assert Occupies(s, s.configured[ip], ip);
    }
    if ip in s.active {
      assert Occupies(s, s.active[ip], ip);
    }
  }

  /** In every reachable state the owner in conflict is exactly the other device that occupies the address. */
  lemma ConflictingOwnerIsTheOther(t: Topology, s: State, ip: Ip, device: DeviceId, d: DeviceId)
    requires Core(t, s)
    ensures ConflictingOwner(s.configured, s.active, ip, device) == Some(d) <==> d != device && Occupies(s, d, ip)
  {
    hide ConnectedConfigured, OneActive, AllUsable, Attachments, Stamped;
  }

  lemma FreeIffNotTaken(t: Topology, s: State, ip: Ip)
    requires ConfiguredInverse(s.devices, s.configured)
    ensures IsFree(t, s, ip) <==> t.Usable(ip) && ip !in Taken(s)
  {
    if ip in s.configured {
      assert Occupies(s, s.configured[ip], ip);
    }
    if ip in s.active {
      assert Occupies(s, s.active[ip], ip);
    }
  }

  lemma FindsLeastFree(t: Topology, s: State)
    requires GoodTopology(t) && ConfiguredInverse(s.devices, s.configured)
    ensures match FindAvailable(t, Taken(s))
            case Ok(ip) => IsLeastFree(t, s, ip)
            case Err(_) => forall ip :: !IsFree(t, s, ip)
  {
    hide ConfiguredInverse, Taken, GoodTopology, FindAvailable, IsFree;
    AllocationIsLeast(t, Taken(s));
    forall ip
      ensures IsFree(t, s, ip) <==> t.Usable(ip) && ip !in Taken(s)
    {
      FreeIffNotTaken(t, s, ip);
    }
  }

  lemma OwnAddressObtainable(t: Topology, s: State, device: DeviceId)
    requires Addresses(t, s) && device in s.devices && s.devices[device].ip.Some?
    ensures Obtainable(t, s, device, s.devices[device].ip.value)
  {
    hide ConnectedConfigured, OneActive;
    assert s.configured[s.devices[device].ip.value] == device;
  }

  lemma KeepSucceedsIff(t: Topology, s: State, req: Request, link: LinkId, ct: ClientType)
    requires Addresses(t, s) && req.device in s.devices
    ensures var r := Keep(t, s, req, link, ct).1;
            match s.devices[req.device].ip
            case Some(ip) => r.Ok? && r.value.ip == ip
            case None =>
              var free := FindAvailable(t, Taken(s));
              r.Ok? == free.Ok? && (r.Ok? ==> r.value.ip == free.value)
  {
    hide ConnectedConfigured, OneActive, AllUsable, FindAvailable, Reconnected, Taken;
    var e := s.devices[req.device];
    assert e.ip.Some? ==> s.configured[e.ip.value] == req.device;
  }

  lemma AllocationSucceedsIff(t: Topology, s: State, req: Request, link: LinkId, ct: ClientType)
    requires GoodTopology(t) && Addresses(t, s)
    ensures var r := AllocateIp(t, s, req, link, ct).1;
            && (r.Ok? <==> Grantable(t, s, req))
            && (r.Ok? ==> RightAddress(t, s, req, r.value.ip))
  {
    hide GoodTopology, ConfiguredInverse, ConnectedConfigured, OneActive, Exclusive, AllUsable, Obtainable, IsFree,
      Adopt, FindAvailable, AddressRefusal, Keep, Taken;
    FindsLeastFree(t, s);
    if req.device in s.devices {
      KeepSucceedsIff(t, s, req, link, ct);
    }
    var wanted := Expected(s, req);
    if wanted.Ok? && wanted.value.Some? {
      NoConflictIffObtainable(t, s, req.device, wanted.value.value);
      if req.device in s.devices && s.devices[req.device].ip == wanted.value {
        OwnAddressObtainable(t, s, req.device);
      }
    }
  }

  /**
   A registration succeeds exactly when the client is admitted and either the
   expected address can be had or, where the address may vary, some host is free;
   it is granted the expected address if that can be had and otherwise the
   lowest free host.
   */
  lemma RegistrationSucceedsIff(t: Topology, s: State, req: Request, link: LinkId, ct: ClientType, instance: InstanceId)
    requires GoodTopology(t) && Core(t, s)
    ensures var r := Register(t, s, req, link, ct, instance).1;
            && (r.Ok? <==> Admitted(t, s, req, ct) && Grantable(t, s, req))
            && (r.Ok? ==> RightAddress(t, s, req, r.value.ip))
  {
    hide Addresses, Attachments, GoodTopology, Obtainable, IsFree, AllocateIp, Attach;
    AllocationSucceedsIff(t, s, req, link, ct);
    if JoinsPool(s, req, instance) {
      OwnAddressObtainable(t, s, req.device);
    }
  }

  // ---------- fast re-addressing ----------

  /** Away from the given addresses, `s'` has the same live sessions as `s`. */
  ghost predicate SameSessionsElsewhere(s: State, s': State, ips: set<Ip>) {
    forall a :: a !in ips ==>
      && Get(s'.active, a) == Get(s.active, a)
      && Get(s'.senders, a) == Get(s.senders, a)
      && Get(s'.traffic, a) == Get(s.traffic, a)
  }

  ghost predicate SameEntriesElsewhere(s: State, s': State, device: DeviceId) {
    forall d :: d != device ==> Get(s'.devices, d) == Get(s.devices, d)
  }

  lemma OwnedLinkIsLive(t: Topology, s: State, device: DeviceId, ip: Ip, link: LinkId, instance: InstanceId)
    requires Core(t, s) && Get(s.issued, link) == Some(Ticket(device, instance))
    requires PoolAt(s, ip).Some? && PoolAt(s, ip).value.OwnsLink(instance, link)
    ensures Get(s.active, ip) == Some(device)
  {
    hide Addresses, TrafficKeys, OwnCounters, PoolsBelow, DrainsOwned, Stamped;
    assert LinksOf(s.pools[s.senders[ip]], s.issued);
  }

  /**
   A session that moves takes its whole pool and its byte counters from the old
   to the new address, which becomes its configured one; nobody else notices.
   A refused move changes nothing.
   */
  lemma FastRegisterMovesSession(t: Topology, s: State, device: DeviceId, oldIp: Ip, newIp: Ip, link: LinkId,
                                 instance: InstanceId)
    requires Core(t, s) && Get(s.issued, link) == Some(Ticket(device, instance))
    ensures var (s', r) := FastRegister(t, s, device, oldIp, newIp, link, instance);
            if r.Err? then s' == s
            else
              && Get(s'.active, newIp) == Some(device)
              && PoolAt(s', newIp).Some? && PoolAt(s', newIp).value.OwnsLink(instance, link)
              && (s' != s ==>
                    && oldIp != newIp && oldIp !in s'.active && oldIp !in s'.senders && oldIp !in s'.traffic
                    && Get(s'.senders, newIp) == Get(s.senders, oldIp) && s'.pools == s.pools
                    && Get(s'.traffic, newIp) == Get(s.traffic, oldIp)
                    && device in s'.devices && s'.devices[device].ip == Some(newIp))
              && SameSessionsElsewhere(s, s', {oldIp, newIp}) && SameEntriesElsewhere(s, s', device)
  {
    hide Core;
    var (s', r) := FastRegister(t, s, device, oldIp, newIp, link, instance);
    if r.Ok? {
      if s' == s {
        OwnedLinkIsLive(t, s, device, newIp, link, instance);
      } else {
        OnlyLiveAt(t, s, device, oldIp, newIp);
      }
    }
  }

  // ---------- management ----------

  /**
   An edit is accepted exactly when its address can be had by the device, which
   exists or not as the request demands; it then configures that address and
   leaves every live session where it is. A refused edit changes nothing.
   */
  lemma EditSucceedsIff(t: Topology, s: State, mutation: Mutation, edit: Edit, now: nat)
    requires Core(t, s)
    ensures var (s', r) := UpsertDevice(t, s, mutation, edit, now);
            && (r.Ok? <==> (edit.device in s.devices <==> mutation.Update?) && Obtainable(t, s, edit.device, edit.ip))
            && (r.Err? ==> s' == s)
            && (r.Ok? ==>
                  && edit.device in s'.devices && s'.devices[edit.device].ip == Some(edit.ip)
                  && (s'.devices[edit.device].connected <==>
                        edit.device in s.devices && s.devices[edit.device].connected)
                  && s'.active == s.active && s'.senders == s.senders && s'.traffic == s.traffic && s'.pools == s.pools)
  {
    NoConflictIffObtainable(t, s, edit.device, edit.ip);
    hide Core, Obtainable, Without, PublishNow, NeedsFullSync;
  }

  predicate Lapses(s: State, devices: seq<DeviceId>, d: DeviceId) {
    d in devices && d in s.devices && !s.devices[d].connected && s.devices[d].ipType.Dynamic?
  }

  lemma {:induction false} ExpireAllIsExact(s: State, devices: seq<DeviceId>, d: DeviceId)
    ensures var (s', released) := ExpireAll(s, devices);
            && s'.devices.Keys == s.devices.Keys && s'.dataVersion == s.dataVersion
            && (d in s.devices ==>
                  s'.devices[d] ==
                  if Lapses(s, devices, d) then s.devices[d].(ip := None, stamp := s.dataVersion) else s.devices[d])
            && (d in released <==> Lapses(s, devices, d) && s.devices[d].ip.Some?)
            && (forall i, j :: 0 <= i < j < |released| ==> released[i] != released[j])
    decreases |devices|
  {
    hide Without;
    if devices != [] {
      var front, last := devices[..|devices| - 1], devices[|devices| - 1];
      ExpireAllIsExact(s, front, d);
      ExpireAllIsExact(s, front, last);
      assert devices == front + [last];
    }
  }

  /**
   Expiry takes the address from exactly the listed Dynamic devices that are not
   connected, and reports each one that had an address, once.
   */
  lemma ExpiryIsExact(s: State, devices: seq<DeviceId>, d: DeviceId)
    requires d in s.devices
    ensures var (s', released) := Expire(s, devices);
            && s'.devices.Keys == s.devices.Keys
            && s'.devices[d].ip == (if Lapses(s, devices, d) then None else s.devices[d].ip)
            && (d in released <==> Lapses(s, devices, d) && s.devices[d].ip.Some?)
            && (forall i, j :: 0 <= i < j < |released| ==> released[i] != released[j])
  {
    hide ExpireAll;
    ExpireAllIsExact(s.(dataVersion := s.dataVersion + 1), devices, d);
  }

  /**
   Nothing is left of a removed device exactly when it had an entry or no live
   address: without an entry the removal does nothing.
   */
  lemma RemovalIsComplete(t: Topology, s: State, device: DeviceId)
    requires Core(t, s)
    ensures var s' := RemoveDevice(s, device);
            && device !in s'.devices
            && ((forall ip :: !Occupies(s', device, ip)) <==>
                  device in s.devices || forall a :: Get(s.active, a) != Some(device))
  {
    var s' := RemoveDevice(s, device);
    if device in s.devices {
      hide Core;
      forall ip
        ensures !Occupies(s', device, ip)
      {
        RemovedOccupiesNothing(t, s, device, ip);
      }
    } else {
      assert forall a :: Get(s.active, a) == Some(device) ==> Occupies(s', device, a);
      hide ConnectedConfigured, OneActive, Exclusive, AllUsable, Attachments, Stamped;
    }
  }

  lemma RemovedOccupiesNothing(t: Topology, s: State, device: DeviceId, ip: Ip)
    requires Core(t, s) && device in s.devices
    ensures !Occupies(RemoveDevice(s, device), device, ip)
  {
    hide ConnectedConfigured, OneActive, Exclusive, AllUsable, Attachments, Stamped;
  }
}
