/** What the steps write into entries and pools, field by field, and exactly when they take effect. */
module LeaseEntries {
  import opened Wrappers
  import opened Ipv4
  import opened LeaseModel
  import opened LeaseInvariant
  import opened LeaseRuns
  import opened LeaseProperties
  import opened LeaseEffects

  // ---------- registration ----------

  /** The entry of a device that has just registered. */
  ghost predicate Written(s: State, e: Entry, req: Request, link: LinkId, ct: ClientType) {
    && e.randomId == link && e.subnets == req.subnets && e.clientType == ct
    && e.connected && e.disconnectedAt.None? && (e.advertising <==> req.mode.Normal?)
    && (if req.device in s.devices then
          && e.ipType == s.devices[req.device].ipType && e.wgRoutes == s.devices[req.device].wgRoutes
          && e.stats == s.devices[req.device].stats
        else e.ipType.Dynamic? && e.wgRoutes == [] && e.stats == s.nextStats)
  }

  lemma KeepWrites(t: Topology, s: State, req: Request, link: LinkId, ct: ClientType)
    requires req.device in s.devices
    ensures var (s1, r) := Keep(t, s, req, link, ct);
            r.Ok? ==> req.device in s1.devices && Written(s, s1.devices[req.device], req, link, ct)
  {
    hide FindAvailable, ConflictingOwner;
  }

  lemma AdoptWrites(s: State, req: Request, link: LinkId, ct: ClientType, ip: Ip, prior: Option<Ip>)
    ensures var s1 := Adopt(s, req, link, ct, ip, prior);
            req.device in s1.devices && Written(s, s1.devices[req.device], req, link, ct)
  {
    hide Without;
  }

  lemma AllocateWrites(t: Topology, s: State, req: Request, link: LinkId, ct: ClientType)
    ensures var (s1, r) := AllocateIp(t, s, req, link, ct);
            r.Ok? ==> req.device in s1.devices && Written(s, s1.devices[req.device], req, link, ct)
  {
    hide Keep, Adopt, FindAvailable, AddressRefusal, Written;
    if req.device in s.devices {
      KeepWrites(t, s, req, link, ct);
    }
    var prior := if req.device in s.devices then s.devices[req.device].ip else None;
    forall ip
      ensures var s1 := Adopt(s, req, link, ct, ip, prior);
              req.device in s1.devices && Written(s, s1.devices[req.device], req, link, ct)
    {
      AdoptWrites(s, req, link, ct, ip, prior);
    }
  }

  /** The client run, named by a non-empty instance id, already has a pool at the address it asks for, its own. */
  ghost predicate RunHasPool(s: State, req: Request, instance: InstanceId) {
    && instance != [] && req.ip.Some?
    && req.device in s.devices && s.devices[req.device].ip == req.ip
    && PoolAt(s, req.ip.value).Some? && PoolAt(s, req.ip.value).value.instance == instance
  }

  /**
   A granted registration adds its link to the pool of its client run, leaving the
   entries and the other links alone; if there is none, it opens a pool with this
   one link and writes the request into the device's entry.
   */
  lemma GrantedRegistrationWrites(t: Topology, s: State, req: Request, link: LinkId, ct: ClientType,
                                  instance: InstanceId)
    requires Core(t, s)
    ensures var (s', r) := Register(t, s, req, link, ct, instance);
            r.Ok? ==>
              && PoolAt(s', r.value.ip).Some? && PoolAt(s', r.value.ip).value.instance == instance
              && (if RunHasPool(s, req, instance) then
                    && s'.devices == s.devices && r.value == Grant(req.ip.value, None)
                    && PoolAt(s', r.value.ip).value.links == PoolAt(s, r.value.ip).value.links[link := None]
                  else
                    && req.device in s'.devices && Written(s, s'.devices[req.device], req, link, ct)
                    && PoolAt(s', r.value.ip).value.links == map[link := None])
  {
    hide Core, AllocateIp, Written;
    if !JoinsPool(s, req, instance) {
      AllocateWrites(t, s, req, link, ct);
      var (s1, r) := AllocateIp(t, s, req, link, ct);
      if r.Ok? && Admitted(t, s, req, ct) {
        AttachOpensPool(s1, req.device, r.value, link, instance);
      }
    }
    hide Attach;
  }

  lemma AttachOpensPool(s: State, d: DeviceId, grant: Grant, link: LinkId, instance: InstanceId)
    requires d in s.devices
    ensures var s' := Attach(s, d, grant, link, instance);
            && s'.devices == s.devices && PoolAt(s', grant.ip) == Some(Pool(d, instance, map[link := None]))
  {
  }

  // ---------- which address ----------

  /** The address that the device has configured. */
  function OwnAddress(s: State, d: DeviceId): Option<Ip> {
    if d in s.devices then s.devices[d].ip else None
  }

  predicate IsFixed(s: State, d: DeviceId) {
    d in s.devices && s.devices[d].ipType.Fixed?
  }

  /**
   An admitted Fixed device is granted its own address if it has one. Any other is
   granted the address it asks for if that can be had, its own if it asks for none
   and has one, and otherwise, unless it insists, the lowest free host.
   */
  lemma RegistrationAddress(t: Topology, s: State, req: Request, link: LinkId, ct: ClientType, instance: InstanceId)
    requires GoodTopology(t) && Core(t, s)
    ensures var r := Register(t, s, req, link, ct, instance).1;
            var own := OwnAddress(s, req.device);
            if !Admitted(t, s, req, ct) then r.Err?
            else if IsFixed(s, req.device) then
              (r.Ok? <==> own.Some?) && (r.Ok? ==> own == Some(r.value.ip))
            else if req.ip.Some? && Obtainable(t, s, req.device, req.ip.value) then
              r.Ok? && req.ip == Some(r.value.ip)
            else if req.ip.None? && own.Some? then
              r.Ok? && own == Some(r.value.ip)
            else
              && (r.Ok? <==> (req.ip.Some? ==> req.ipVariable) && exists ip :: IsFree(t, s, ip))
              && (r.Ok? ==> IsLeastFree(t, s, r.value.ip))
  {
    assert Addresses(t, s) by {
      hide Addresses, Attachments;
    }
    hide GoodTopology, Core, Obtainable, IsFree, IsLeastFree, Register, Addresses;
    RegistrationSucceedsIff(t, s, req, link, ct, instance);
    if req.device in s.devices && s.devices[req.device].ip.Some? {
      OwnAddressObtainable(t, s, req.device);
    }
  }

  /** The address a refusal is about: a Fixed device's own, else the one asked for. */
  function ContestedAddress(s: State, req: Request): Option<Ip> {
    if IsFixed(s, req.device) then OwnAddress(s, req.device) else req.ip
  }

  /** Why an address, or any address, cannot be had. */
  ghost predicate AddressReason(t: Topology, s: State, d: DeviceId, ip: Option<Ip>, why: Refusal) {
    match why
    case GatewayAddress => ip == Some(t.gateway)
    case OutsideNet => ip.Some? && !t.net.Contains(ip.value)
    case NetworkOrBroadcast => ip == Some(t.net.network) || ip == Some(t.net.Broadcast())
    case AddressTaken(owner) => ip.Some? && owner != d && Occupies(s, owner, ip.value)
    case Exhausted => forall free :: !IsFree(t, s, free)
    case _ => false
  }

  lemma AddressRefusalIsTrue(t: Topology, s: State, ip: Ip, d: DeviceId)
    ensures AddressRefusal(t, s, ip, d).Some? ==> AddressReason(t, s, d, Some(ip), AddressRefusal(t, s, ip, d).value)
  {
  }

  lemma KeepRefusal(t: Topology, s: State, req: Request, link: LinkId, ct: ClientType)
    requires GoodTopology(t) && Core(t, s) && req.device in s.devices
    ensures var r := Keep(t, s, req, link, ct).1;
            r.Err? ==> AddressReason(t, s, req.device, req.ip, r.error)
  {
    if s.devices[req.device].ip.Some? {
      LateOwnershipCheckPasses(t, s, req, link, ct);
    } else {
      NoneFreeIsExhausted(t, s, req.device, req.ip);
      hide Core, GoodTopology, FindAvailable, AddressReason, Taken;
    }
  }

  lemma NoneFreeIsExhausted(t: Topology, s: State, d: DeviceId, ip: Option<Ip>)
    requires GoodTopology(t) && Core(t, s)
    ensures var r := FindAvailable(t, Taken(s));
            r.Err? ==> AddressReason(t, s, d, ip, r.error)
  {
    assert ConfiguredInverse(s.devices, s.configured) by {
      hide ConfiguredInverse, ConnectedConfigured, OneActive, Exclusive, AllUsable, Attachments, Stamped;
    }
    hide Core, ConfiguredInverse;
    FindsSomething(t, s);
    FindsLeastFree(t, s);
    hide FindAvailable, Taken, IsFree, GoodTopology;
  }

  lemma AllocationRefusalIsTrue(t: Topology, s: State, req: Request, link: LinkId, ct: ClientType)
    requires GoodTopology(t) && Core(t, s)
    ensures var r := AllocateIp(t, s, req, link, ct).1;
            r.Err? ==>
              || (r.error.FixedWithoutAddress? && IsFixed(s, req.device) && OwnAddress(s, req.device).None?)
              || AddressReason(t, s, req.device, ContestedAddress(s, req), r.error)
  {
    hide GoodTopology, Core, AddressReason, AddressRefusal, Keep, Adopt, FindAvailable, Taken;
    NoneFreeIsExhausted(t, s, req.device, ContestedAddress(s, req));
    if req.device in s.devices {
      KeepRefusal(t, s, req, link, ct);
      KeepFails(t, s, req, link, ct);
    }
    if req.ip.Some? {
      AddressRefusalIsTrue(t, s, req.ip.value, req.device);
    }
  }

  /** An unchanged address is never refused. */
  lemma KeepFails(t: Topology, s: State, req: Request, link: LinkId, ct: ClientType)
    requires Core(t, s) && req.device in s.devices
    ensures s.devices[req.device].ip.Some? ==> Keep(t, s, req, link, ct).1.Ok?
  {
    if s.devices[req.device].ip.Some? {
      LateOwnershipCheckPasses(t, s, req, link, ct);
    }
  }

  /** A refused registration names the true reason. */
  lemma RefusalIsTrue(t: Topology, s: State, req: Request, link: LinkId, ct: ClientType, instance: InstanceId)
    requires GoodTopology(t) && Core(t, s)
    ensures var r := Register(t, s, req, link, ct, instance).1;
            r.Err? ==>
              match r.error
              case OtherClientType => req.device in s.devices && s.devices[req.device].clientType != ct
              case NotProvisioned => req.device !in s.devices && (ct != Vnt || t.isPrivate)
              case FixedWithoutAddress => IsFixed(s, req.device) && OwnAddress(s, req.device).None?
              case why => AddressReason(t, s, req.device, ContestedAddress(s, req), why)
  {
    hide GoodTopology, Core, AddressReason, AllocateIp, Attach;
    AllocationRefusalIsTrue(t, s, req, link, ct);
    NotAnAddressReason(t, s, req);
  }

  lemma NotAnAddressReason(t: Topology, s: State, req: Request)
    ensures !AddressReason(t, s, req.device, ContestedAddress(s, req), OtherClientType)
    ensures !AddressReason(t, s, req.device, ContestedAddress(s, req), NotProvisioned)
    ensures !AddressReason(t, s, req.device, ContestedAddress(s, req), FixedWithoutAddress)
  {
  }

  lemma FindsSomething(t: Topology, s: State)
    requires GoodTopology(t)
    ensures FindAvailable(t, Taken(s)).Err? ==> FindAvailable(t, Taken(s)).error == Exhausted
  {
    BroadcastFits(t.net);
  }

  // ---------- release ----------

  /** No link but, possibly, this one of the client run is in a pool at the address. */
  ghost predicate OnlyLinkAt(s: State, ip: Ip, link: LinkId, instance: InstanceId) {
    PoolAt(s, ip).Some? ==>
      && PoolAt(s, ip).value.instance == instance && PoolAt(s, ip).value.links.Keys == {link}
  }

  /**
   The release of a session deletes its device exactly if that session registered
   the device last, the device still has the session's address configured, and no
   other link is in a pool there. It never touches another device's entry.
   */
  lemma ReleaseDeletesIff(s: State, d: DeviceId, ip: Ip, link: LinkId, instance: InstanceId, other: DeviceId)
    requires d in s.devices
    ensures var s' := Release(s, d, ip, link, instance);
            && (d !in s'.devices <==>
                  && s.devices[d].randomId == link && s.devices[d].ip == Some(ip)
                  && OnlyLinkAt(s, ip, link, instance))
            && (d in s'.devices ==> s'.devices[d] == s.devices[d])
            && (other != d ==> Get(s'.devices, other) == Get(s.devices, other))
  {
    if PoolAt(s, ip).Some? && PoolAt(s, ip).value.OwnsLink(instance, link) {
      LastLink(PoolAt(s, ip).value.links, link);
    }
  }

  lemma LastLink(links: map<LinkId, Option<nat>>, link: LinkId)
    requires link in links
    ensures links - {link} == map[] <==> links.Keys == {link}
  {
    if links - {link} == map[] {
      forall k | k in links
        ensures k == link
      {
        assert k != link ==> k in links - {link};
      }
      assert links.Keys == {link};
    }
  }

  /** The release of a registration that opened its own pool undoes it completely. */
  lemma ReleaseUndoesRegistration(t: Topology, s: State, req: Request, link: LinkId, ct: ClientType,
                                  instance: InstanceId)
    requires Core(t, s) && link !in s.issued && !RunHasPool(s, req, instance)
    ensures var (s', r) := Register(t, s, req, link, ct, instance);
            r.Ok? ==>
              var s2 := Release(s', req.device, r.value.ip, link, instance);
              && req.device !in s2.devices && (forall ip :: !Occupies(s2, req.device, ip))
              && r.value.ip !in s2.configured && r.value.ip !in s2.active
              && r.value.ip !in s2.senders && r.value.ip !in s2.traffic
  {
    var (s', r) := Register(t, s, req, link, ct, instance);
    if r.Ok? {
      var ip := r.value.ip;
      RegisterKeepsCore(t, s, req, link, ct, instance);
      GrantedRegistrationWrites(t, s, req, link, ct, instance);
      GrantedRegistrationIsLive(t, s, req, link, ct, instance);
      hide Register;
      ReleaseDeletesIff(s', req.device, ip, link, instance, req.device);
      ReleaseKeepsCore(t, s', req.device, ip, link, instance);
      ReleaseEmpties(t, s', req.device, ip, link, instance);
    }
  }

  lemma ReleaseFrees(s: State, d: DeviceId, ip: Ip, link: LinkId, instance: InstanceId)
    requires d in s.devices && d !in Release(s, d, ip, link, instance).devices
    ensures var s2 := Release(s, d, ip, link, instance);
            && s.devices[d].ip == Some(ip)
            && s2.configured == s.configured - {ip} && s2.active == s.active - {ip}
            && ip !in s2.senders && ip !in s2.traffic
  {
    hide Unlink;
    UnlinkKeepsDevices(s, ip, link, instance);
  }

  lemma UnlinkKeepsDevices(s: State, ip: Ip, link: LinkId, instance: InstanceId)
    ensures Unlink(s, ip, link, instance).0 == s.(pools := Unlink(s, ip, link, instance).0.pools)
  {
  }

  lemma ReleaseEmpties(t: Topology, s: State, d: DeviceId, ip: Ip, link: LinkId, instance: InstanceId)
    requires Core(t, s) && d in s.devices && d !in Release(s, d, ip, link, instance).devices
    requires Get(s.active, ip) == Some(d)
    ensures var s2 := Release(s, d, ip, link, instance);
            && ip !in s2.configured && ip !in s2.active && ip !in s2.senders && ip !in s2.traffic
            && forall a :: !Occupies(s2, d, a)
  {
    hide Core, Release;
    ReleaseFrees(s, d, ip, link, instance);
    var s2 := Release(s, d, ip, link, instance);
    forall a
      ensures !Occupies(s2, d, a)
    {
      OneAddress(t, s, d, ip, a);
    }
  }

  lemma OneAddress(t: Topology, s: State, d: DeviceId, ip: Ip, a: Ip)
    requires Core(t, s) && d in s.devices && s.devices[d].ip == Some(ip) && Get(s.active, ip) == Some(d)
    ensures Get(s.configured, a) == Some(d) ==> a == ip
    ensures Get(s.active, a) == Some(d) ==> a == ip
  {
    hide ConnectedConfigured, Exclusive, AllUsable, Attachments, Stamped;
  }

  /** Once the device has registered again, the release of an earlier session leaves its entry alone. */
  lemma SupersededReleaseIsHarmless(t: Topology, s: State, req: Request, link: LinkId, ct: ClientType,
                                    instance: InstanceId, ip: Ip, older: LinkId, olderInstance: InstanceId)
    requires Core(t, s) && !RunHasPool(s, req, instance) && older != link
    ensures var (s', r) := Register(t, s, req, link, ct, instance);
            r.Ok? ==>
              Get(Release(s', req.device, ip, older, olderInstance).devices, req.device) == Get(s'.devices, req.device)
  {
    var (s', r) := Register(t, s, req, link, ct, instance);
    if r.Ok? {
      GrantedRegistrationWrites(t, s, req, link, ct, instance);
      hide Register, Core;
      ReleaseDeletesIff(s', req.device, ip, older, olderInstance, req.device);
    }
  }

  // ---------- fast re-addressing ----------

  /**
   A move succeeds exactly if the device is connected and either its link is
   already at the new address, or it is at the old one, the new one can be had,
   and a Fixed device asks for its own address.
   */
  lemma FastRegisterSucceedsIff(t: Topology, s: State, d: DeviceId, oldIp: Ip, newIp: Ip, link: LinkId,
                                instance: InstanceId)
    requires Core(t, s) && Get(s.issued, link) == Some(Ticket(d, instance))
    ensures FastRegister(t, s, d, oldIp, newIp, link, instance).1.Ok? <==>
            && d in s.devices && s.devices[d].connected
            && (|| LinkIsAt(s, newIp, link, instance)
                || (&& LinkIsAt(s, oldIp, link, instance) && Obtainable(t, s, d, newIp)
                    && (s.devices[d].ipType.Fixed? ==> s.devices[d].ip == Some(newIp))))
  {
    assert ConfiguredInverse(s.devices, s.configured) && Exclusive(s.configured, s.active) by {
      hide ConfiguredInverse, ConnectedConfigured, OneActive, Exclusive, AllUsable, Attachments, Stamped;
    }
    NoConflictIffObtainable(t, s, d, newIp);
    if LinkIsAt(s, oldIp, link, instance) {
      OwnedLinkIsLive(t, s, d, oldIp, link, instance);
    }
    hide Core, ConfiguredInverse, Exclusive, Obtainable, Readdress, ConflictingOwner;
  }

  ghost predicate LinkIsAt(s: State, ip: Ip, link: LinkId, instance: InstanceId) {
    PoolAt(s, ip).Some? && PoolAt(s, ip).value.instance == instance && link in PoolAt(s, ip).value.links
  }

  /** A refused move names the true reason. */
  lemma MoveRefusalIsTrue(t: Topology, s: State, d: DeviceId, oldIp: Ip, newIp: Ip, link: LinkId, instance: InstanceId)
    requires Core(t, s)
    ensures var r := FastRegister(t, s, d, oldIp, newIp, link, instance).1;
            r.Err? ==>
              match r.error
              case UnknownDevice => d !in s.devices
              case SessionEnded => d in s.devices && !s.devices[d].connected
              case FixedMismatch => IsFixed(s, d) && s.devices[d].ip != Some(newIp)
              case OutsideNet => !t.Usable(newIp)
              case AddressTaken(owner) => owner != d && Occupies(s, owner, newIp)
              case SessionMismatch => Get(s.active, oldIp) != Some(d)
              case NoSender => !LinkIsAt(s, oldIp, link, instance)
              case _ => false
  {
    hide Core, Readdress, UsableHost;
  }

  /** A move writes the address and a stamp, and nothing else, into the entry. */
  lemma MoveWrites(t: Topology, s: State, d: DeviceId, oldIp: Ip, newIp: Ip, link: LinkId, instance: InstanceId)
    ensures var s' := FastRegister(t, s, d, oldIp, newIp, link, instance).0;
            s' != s ==>
              && d in s.devices && d in s'.devices
              && s'.devices[d] == s.devices[d].(ip := Some(newIp), stamp := s'.dataVersion)
  {
    hide UsableHost, ConflictingOwner, Reconfigured, Moved;
  }

  // ---------- management ----------

  /**
   The entry `e'` is what the edit says for a device of this type; the rest is
   what it was, or that of a new device.
   */
  ghost predicate EditWritten(s: State, edit: Edit, ct: ClientType, now: nat, e': Entry) {
    && e'.ip == Some(edit.ip) && e'.ipType == edit.ipType && e'.wgRoutes == edit.wgRoutes && e'.clientType == ct
    && (match ct
        case Ikev2 => e'.subnets == edit.ikeOutputs
        case Wireguard => e'.subnets == edit.wgOutputs
        case Vnt => e'.subnets == [])
    && (if edit.device in s.devices then
          var e := s.devices[edit.device];
          && e'.randomId == e.randomId && e'.connected == e.connected && e'.stats == e.stats
          && e'.advertising == e.advertising && e'.disconnectedAt == e.disconnectedAt
        else
          && e'.randomId == 0 && !e'.connected && e'.stats == s.nextStats
          && !e'.advertising && e'.disconnectedAt == Some(now))
  }

  lemma UpsertWrites(s: State, edit: Edit, ct: ClientType, now: nat)
    ensures var (s', r) := Upsert(s, edit, ct, now);
            r.Ok? ==> edit.device in s'.devices && EditWritten(s, edit, ct, now, s'.devices[edit.device])
  {
    hide Reindexed, ConflictingOwner, PublishNow, NeedsFullSync;
  }

  /**
   An accepted edit is written in full: for a device of the created or previous
   type, and with the address type Static for WireGuard whatever it says.
   */
  lemma EditWrites(t: Topology, s: State, mutation: Mutation, edit: Edit, now: nat)
    ensures var (s', r) := UpsertDevice(t, s, mutation, edit, now);
            r.Ok? ==>
              && edit.device in s'.devices
              && var ct := s'.devices[edit.device].clientType;
              && (if mutation.Create? then ct == mutation.clientType
                  else edit.device in s.devices && ct == s.devices[edit.device].clientType)
              && EditWritten(s, if ct.Wireguard? then edit.(ipType :=
                Static) else edit, ct, now, s'.devices[edit.device])
  {
    hide Upsert;
    if mutation.Update? ==> edit.device in s.devices {
      var ct := if mutation.Create? then mutation.clientType else s.devices[edit.device].clientType;
      UpsertWrites(s, if ct.Wireguard? then edit.(ipType := Static) else edit, ct, now);
    }
  }

  /** A refused edit names the true reason. */
  lemma EditRefusalIsTrue(t: Topology, s: State, mutation: Mutation, edit: Edit, now: nat)
    ensures var r := UpsertDevice(t, s, mutation, edit, now).1;
            r.Err? ==>
              match r.error
              case OutsideNet => !t.net.Contains(edit.ip)
              case GatewayAddress => edit.ip == t.gateway
              case NetworkOrBroadcast => edit.ip == t.net.network || edit.ip == t.net.Broadcast()
              case DeviceExists => mutation.Create? && edit.device in s.devices
              case UnknownDevice => mutation.Update? && edit.device !in s.devices
              case AddressTaken(owner) => owner != edit.device && Occupies(s, owner, edit.ip)
              case _ => false
  {
    hide Reindexed, EditedEntry, PublishNow, NeedsFullSync;
  }

  /** The versions after an edit that turned `s` into `s'`, told from the change itself. */
  ghost predicate PublishedRight(s: State, s': State, d: DeviceId, ip: Ip) {
    && d in s'.devices
    && var e' := s'.devices[d];
    if d in s.devices && s.devices[d].connected then
      var e := s.devices[d];
      if e.clientType.Wireguard? && (e'.subnets != e.subnets || e'.wgRoutes != e.wgRoutes) then
        s'.dataVersion == s'.fullSyncVersion == e'.stamp == s.dataVersion + 1
      else
        s'.dataVersion == s.dataVersion && s'.fullSyncVersion == s.fullSyncVersion && e'.stamp == e.stamp
    else
      var moves := d in s.devices && s.devices[d].ip.Some? && s.devices[d].ip != Some(ip);
      && s'.dataVersion == e'.stamp == s.dataVersion + 1
      && s'.fullSyncVersion == (if moves then s'.dataVersion else s.fullSyncVersion)
  }

  lemma UpsertPublishes(s: State, edit: Edit, ct: ClientType, now: nat)
    requires edit.device in s.devices ==> s.devices[edit.device].clientType == ct
    ensures var (s', r) := Upsert(s, edit, ct, now);
            r.Ok? ==> PublishedRight(s, s', edit.device, edit.ip)
  {
    hide Reindexed, ConflictingOwner;
  }

  /**
   An accepted edit of a connected device is published exactly if it changes the
   routes of a WireGuard one, and then forces a full list. Any other accepted edit
   is published, with a full list exactly if it takes a published address away.
   */
  lemma EditPublishedIff(t: Topology, s: State, mutation: Mutation, edit: Edit, now: nat)
    ensures var (s', r) := UpsertDevice(t, s, mutation, edit, now);
            r.Ok? ==> PublishedRight(s, s', edit.device, edit.ip)
  {
    hide Upsert, PublishedRight;
    if mutation.Create? <==> edit.device !in s.devices {
      var ct := if mutation.Create? then mutation.clientType else s.devices[edit.device].clientType;
      UpsertPublishes(s, if ct.Wireguard? then edit.(ipType := Static) else edit, ct, now);
    }
  }

  /** The first confirmation makes a device advertise; later ones change nothing. */
  lemma ConfirmAdvertises(s: State, d: DeviceId)
    requires d in s.devices
    ensures var s' := Confirm(s, d);
            && Confirm(s', d) == s'
            && (if s.devices[d].advertising then s' == s
                else
                  && s'.dataVersion == s.dataVersion + 1
                  && s'.devices == s.devices[d := s.devices[d].(advertising := true, stamp := s'.dataVersion)])
  {
  }

  /** A report of a connected VNT device replaces its advertised subnets; any other is ignored. */
  lemma ReportWrites(s: State, d: DeviceId, subnets: seq<Net>)
    ensures var s' := UpdateRuntime(s, d, subnets);
            if d in s.devices && s.devices[d].connected && s.devices[d].clientType.Vnt? then
              && d in s'.devices && s'.devices[d] == s.devices[d].(subnets := subnets, stamp := s.dataVersion + 1)
              && s'.dataVersion == s.dataVersion + 1
            else s' == s
  {
  }

  // ---------- disconnect ----------

  /**
   A disconnect is finalised exactly if the device has an entry and the pool is
   still at the address and empty. It marks the entry and keeps everything else of
   it, above all its address.
   */
  lemma OfflineWrites(s: State, d: DeviceId, ip: Ip, pool: PoolId, now: nat)
    ensures var (s', done) := FinalizeOffline(s, d, ip, pool, now);
            && (done <==>
                  && d in s.devices && Get(s.senders, ip) == Some(pool)
                  && PoolAt(s, ip).Some? && PoolAt(s, ip).value.links.Keys == {})
            && (done ==>
              && d in s.devices && d in s'.devices
              && s'.devices[d] == s.devices[d].(connected := false, advertising := false, disconnectedAt := Some(now),
                                                stamp := s.dataVersion + 1)
              && s'.dataVersion == s.dataVersion + 1)
  {
  }

  /**
   Dropping a link takes out that link alone. If it was the last one at the live
   address of a device, the disconnect can be finalised at once and marks it.
   */
  lemma DropTakesLinkOut(t: Topology, s: State, d: DeviceId, ip: Ip, link: LinkId, instance: InstanceId, now: nat)
    requires Core(t, s) && LinkIsAt(s, ip, link, instance)
    ensures var (s1, pool) := RemoveLink(s, d, ip, s.senders[ip], link, instance);
            && PoolAt(s1, ip).Some? && PoolAt(s1, ip).value.links == PoolAt(s, ip).value.links - {link}
            && s1.devices == s.devices && s1.active == s.active
            && (pool.Some? <==> PoolAt(s, ip).value.links.Keys == {link})
            && (pool.Some? ==>
                  && pool == Some(s.senders[ip]) && Drain(d, ip, pool.value) in s1.draining
                  && (d in s.devices ==> FinalizeOffline(s1, d, ip, pool.value, now).1))
  {
    hide Core;
    LastLink(PoolAt(s, ip).value.links, link);
  }

  // ---------- start ----------

  /** The entry is the record, with nobody connected. */
  ghost predicate LoadedEntry(e: Entry, r: Record, now: nat) {
    && e.ip == r.ip && e.ipType == r.ipType && e.clientType == r.clientType
    && e.subnets == r.subnets && e.wgRoutes == r.wgRoutes
    && !e.connected && !e.advertising && e.disconnectedAt == Some(now) && e.stamp == 0 && e.randomId == 0
  }

  /** Loading keeps every record, and adds no device. */
  lemma {:induction false} LoadKeepsRecords(t: Topology, records: seq<Record>, now: nat, d: DeviceId)
    requires forall i, j :: 0 <= i < j < |records| ==> records[i].device != records[j].device
    ensures var s := Load(t, records, now);
            && (d in s.devices <==> exists i :: 0 <= i < |records| && records[i].device == d)
            && (forall i :: 0 <= i < |records| && records[i].device == d ==> LoadedEntry(s.devices[d], records[i], now))
    decreases |records|
  {
    if records != [] {
      var k := |records| - 1;
      LoadKeepsRecords(t, records[..k], now, d);
      assert forall i :: 0 <= i < k ==> records[..k][i] == records[i];
      var before := Load(t, records[..k], now);
      if d in before.devices {
        var i :| 0 <= i < k && records[..k][i].device == d;
        assert records[i].device == d;
      }
    }
  }
}
