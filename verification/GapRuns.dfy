/** Whole runs between the two parts of the release of a pre-registration. */
module GapRuns {
  import opened Wrappers
  import opened Ipv4
  import opened LeaseModel
  import opened LeaseInvariant
  import opened LeaseRuns
  import opened LeaseProperties
  import opened LeaseEffects
  import opened LeaseWitnesses
  import opened SplitRelease

  /** What is left at `ip`, if anything, is a pool of the released session. */
  ghost predicate Leftover(g: State, ip: Ip, was: Ticket) {
    ip in g.senders ==>
      && g.senders[ip] in g.pools
      && g.pools[g.senders[ip]].owner == was.device && g.pools[g.senders[ip]].instance == was.instance
  }

  /** The table is consistent, or is so but for what the sweep will remove. */
  ghost predicate GapInv(t: Topology, g: State, ip: Ip, was: Ticket) {
    Core(t, g) || (Core(t, Sweep(g, ip)) && Leftover(g, ip, was))
  }

  /** Another device presents the instance id of the released session and so joins what is left of it. */
  ghost predicate ForeignJoin(g: State, e: Event, ip: Ip, was: Ticket) {
    && e.Registered? && ip !in g.active
    && JoinsPool(g, e.req, e.instance) && e.req.ip == Some(ip) && e.req.device != was.device
  }

  ghost predicate ForeignJoins(t: Topology, g: State, events: seq<Event>, ip: Ip, was: Ticket)
    decreases |events|
  {
    events != [] &&
      (ForeignJoin(g, events[0], ip, was) || ForeignJoins(t, Step(t, g, events[0]), events[1..], ip, was))
  }

  lemma CoreIffNotLive(t: Topology, g: State, ip: Ip, was: Ticket)
    requires GapInv(t, g, ip, was)
    ensures Core(t, Sweep(g, ip)) <==> ip !in g.active
  {
    if Core(t, g) {
      hide Core;
      SweepKeepsCoreIff(t, g, ip);
    } else {
      SweptIsNotLive(t, g, ip);
    }
  }

  lemma SweptIsNotLive(t: Topology, g: State, ip: Ip)
    requires Core(t, Sweep(g, ip))
    ensures ip !in g.active
  {
    hide Addresses, TrafficKeys, OwnCounters, LinksIssued, PoolsBelow, DrainsOwned, Stamped;
    assert ip !in Sweep(g, ip).senders;
  }

  // ---------- steps that the sweep commutes with ----------

  /** `s'` and `c'` are reached from `g` before and after the sweep; the leftover pool is still there or gone. */
  ghost predicate Alike(g: State, s': State, c': State, ip: Ip) {
    && Sweep(s', ip) == c'
    && (ip in s'.senders ==> Get(g.senders, ip) == Some(s'.senders[ip]))
    && PoolsStay(g.pools, s'.pools)
  }

  /** No pool changes its owner or instance. */
  ghost predicate PoolsStay(pools: map<PoolId, Pool>, pools': map<PoolId, Pool>) {
    forall h <- pools :: h in pools' && pools'[h].owner == pools[h].owner && pools'[h].instance == pools[h].instance
  }

  lemma AlikeKeepsGap(t: Topology, g: State, e: Event, ip: Ip, was: Ticket)
    requires Core(t, Sweep(g, ip)) && Leftover(g, ip, was) && Possible(g, e)
    requires Alike(g, Step(t, g, e), Step(t, Sweep(g, ip), e), ip)
    ensures GapInv(t, Step(t, g, e), ip, was)
  {
    hide Step, Core;
    assert Possible(Sweep(g, ip), e);
    StepKeepsCore(t, Sweep(g, ip), e);
  }

  lemma NothingIsAlike(g: State, ip: Ip)
    ensures Alike(g, g, Sweep(g, ip), ip)
  {
  }

  lemma RemoveLinkIgnoresSenders(g: State, d: DeviceId, at: Ip, h: PoolId, link: LinkId, instance: InstanceId, ip: Ip)
    ensures RemoveLink(Sweep(g, ip), d, at, h, link, instance).0 == Sweep(RemoveLink(g, d, at, h, link, instance).0, ip)
  {
    hide Pool.IsEmpty, Pool.OwnsLink, Pool.WithoutLink;
  }

  lemma RemoveLinkFrame(g: State, d: DeviceId, at: Ip, h: PoolId, link: LinkId, instance: InstanceId)
    ensures RemoveLink(g, d, at, h, link, instance).0.senders == g.senders
    ensures PoolsStay(g.pools, RemoveLink(g, d, at, h, link, instance).0.pools)
  {
    hide Pool.IsEmpty, Pool.OwnsLink;
  }

  lemma RemoveLinkIsAlike(g: State, d: DeviceId, at: Ip, h: PoolId, link: LinkId, instance: InstanceId, ip: Ip)
    ensures Alike(g, RemoveLink(g, d, at, h, link, instance).0,
                  RemoveLink(Sweep(g, ip), d, at, h, link, instance).0, ip)
  {
    hide RemoveLink, PoolsStay, Sweep;
    RemoveLinkIgnoresSenders(g, d, at, h, link, instance, ip);
    RemoveLinkFrame(g, d, at, h, link, instance);
  }

  lemma FinalizeIsAlike(g: State, d: DeviceId, at: Ip, pool: PoolId, now: nat, ip: Ip)
    requires at == ip ==> !FinalizeOffline(g, d, at, pool, now).1
    ensures Alike(g, FinalizeOffline(g, d, at, pool, now).0, FinalizeOffline(Sweep(g, ip), d, at, pool, now).0, ip)
  {
    MinusCommutes(g.senders, {at}, ip);
    MinusCommutes(g.traffic, {at}, ip);
  }

  lemma MinusCommutes<V>(m: map<Ip, V>, a: set<Ip>, b: Ip)
    ensures m - a - {b} == m - {b} - a
  {
  }

  lemma UpsertIsAlike(g: State, edit: Edit, ct: ClientType, now: nat, ip: Ip)
    ensures Alike(g, Upsert(g, edit, ct, now).0, Upsert(Sweep(g, ip), edit, ct, now).0, ip)
  {
    hide Reindexed, ConflictingOwner, EditedEntry, PublishNow, NeedsFullSync;
  }

  lemma EditIsAlike(t: Topology, g: State, mutation: Mutation, edit: Edit, now: nat, ip: Ip)
    ensures Alike(g, UpsertDevice(t, g, mutation, edit, now).0,
                  UpsertDevice(t, Sweep(g, ip), mutation, edit, now).0, ip)
  {
    NothingIsAlike(g, ip);
    hide Alike, Upsert;
    if mutation.Update? ==> edit.device in g.devices {
      var ct := if mutation.Create? then mutation.clientType else g.devices[edit.device].clientType;
      UpsertIsAlike(g, if ct.Wireguard? then edit.(ipType := Static) else edit, ct, now, ip);
    }
  }

  lemma {:induction false} ExpireAllIsAlike(g: State, devices: seq<DeviceId>, ip: Ip)
    ensures var (s', released) := ExpireAll(g, devices);
            && ExpireAll(Sweep(g, ip), devices) == (Sweep(s', ip), released)
            && s'.senders == g.senders && s'.pools == g.pools
    decreases |devices|
  {
    hide Without;
    if devices != [] {
      ExpireAllIsAlike(g, devices[..|devices| - 1], ip);
    }
  }

  lemma ExpireIsAlike(g: State, devices: seq<DeviceId>, ip: Ip)
    ensures Alike(g, Expire(g, devices).0, Expire(Sweep(g, ip), devices).0, ip)
  {
    hide ExpireAll;
    var g0 := g.(dataVersion := g.dataVersion + 1);
    ExpireAllIsAlike(g0, devices, ip);
    assert Sweep(g0, ip) == Sweep(g, ip).(dataVersion := g.dataVersion + 1);
  }

  lemma RemoveIsAlike(g: State, d: DeviceId, ip: Ip)
    ensures Alike(g, RemoveDevice(g, d), RemoveDevice(Sweep(g, ip), d), ip)
  {
    hide Without;
    var live := set a | a in g.active && g.active[a] == d;
    MinusCommutes(g.senders, live, ip);
    MinusCommutes(g.traffic, live, ip);
  }

  lemma ConfirmIsAlike(g: State, d: DeviceId, ip: Ip)
    ensures Alike(g, Confirm(g, d), Confirm(Sweep(g, ip), d), ip)
  {
  }

  lemma ReportIsAlike(g: State, d: DeviceId, subnets: seq<Net>, ip: Ip)
    ensures Alike(g, UpdateRuntime(g, d, subnets), UpdateRuntime(Sweep(g, ip), d, subnets), ip)
  {
  }

  lemma UnlinkIsAlike(g: State, at: Ip, link: LinkId, instance: InstanceId, ip: Ip)
    requires at != ip
    ensures Unlink(Sweep(g, ip), at, link, instance) ==
            (Sweep(Unlink(g, at, link, instance).0, ip), Unlink(g, at, link, instance).1)
    ensures PoolsStay(g.pools, Unlink(g, at, link, instance).0.pools)
    ensures Unlink(g, at, link, instance).0 == g.(pools := Unlink(g, at, link, instance).0.pools)
  {
  }

  lemma ReleaseIsAlike(g: State, d: DeviceId, at: Ip, link: LinkId, instance: InstanceId, ip: Ip)
    requires at != ip
    ensures Alike(g, Release(g, d, at, link, instance), Release(Sweep(g, ip), d, at, link, instance), ip)
  {
    UnlinkIsAlike(g, at, link, instance, ip);
    hide Unlink, PoolsStay;
    MinusCommutes(g.senders, {at}, ip);
    MinusCommutes(g.traffic, {at}, ip);
  }

  lemma MoveIsAlike(t: Topology, g: State, d: DeviceId, oldIp: Ip, newIp: Ip, ip: Ip)
    requires d in g.devices && oldIp in g.senders && oldIp in g.traffic && oldIp != ip
    ensures newIp != ip ==> Alike(g, Readdress(g, d, oldIp, newIp), Readdress(Sweep(g, ip), d, oldIp, newIp), ip)
    ensures newIp == ip ==> Readdress(g, d, oldIp, newIp) == Readdress(Sweep(g, ip), d, oldIp, newIp)
  {
    hide Reconfigured;
    OverwriteForgets(g.senders, {oldIp}, newIp, g.senders[oldIp], ip);
    OverwriteForgets(g.traffic, {oldIp}, newIp, g.traffic[oldIp], ip);
  }

  lemma FastRegisterKeepsGap(t: Topology, g: State, e: Event, ip: Ip, was: Ticket)
    requires Core(t, Sweep(g, ip)) && Leftover(g, ip, was) && Possible(g, e) && e.FastRegistered?
    ensures GapInv(t, Step(t, g, e), ip, was)
  {
    hide Core;
    var s' := Step(t, g, e);
    if s' != g {
      SweptIsNotLive(t, g, ip);
      MovedIsLive(t, g, e.device, e.oldIp, e.newIp, ip);
      MoveIsAlike(t, g, e.device, e.oldIp, e.newIp, ip);
      assert s' == Readdress(g, e.device, e.oldIp, e.newIp);
      assert Step(t, Sweep(g, ip), e) == Readdress(Sweep(g, ip), e.device, e.oldIp, e.newIp) by {
        hide Readdress, Alike;
      }
      hide Step, Readdress;
      if e.newIp == ip {
        StepKeepsCore(t, Sweep(g, ip), e);
      } else {
        AlikeKeepsGap(t, g, e, ip, was);
      }
    }
  }

  lemma MovedIsLive(t: Topology, g: State, d: DeviceId, oldIp: Ip, newIp: Ip, ip: Ip)
    requires Core(t, Sweep(g, ip)) && Get(g.active, oldIp) == Some(d) && oldIp != ip
    ensures oldIp in g.senders && oldIp in g.traffic
  {
    hide Addresses, OwnCounters, LinksIssued, PoolsBelow, DrainsOwned, Stamped;
    assert oldIp in Sweep(g, ip).senders && oldIp in Sweep(g, ip).traffic;
  }

  // ---------- steps that meet the leftover pool ----------

  lemma LinkKeepsCore(t: Topology, c: State, h: PoolId, link: LinkId)
    requires Core(t, c) && h in c.pools && link !in c.issued
    ensures Core(t, c.(pools := c.pools[h := c.pools[h].WithLink(link)],
                       issued := c.issued[link := Ticket(c.pools[h].owner, c.pools[h].instance)]))
  {
    hide ConfiguredInverse, ConnectedConfigured, OneActive, Exclusive, AllUsable, TrafficKeys, OwnCounters, Stamped;
  }

  /** A registration may join the leftover pool, or any other step of `Register` may be taken before the sweep. */
  lemma RegisterKeepsGap(t: Topology, g: State, e: Event, ip: Ip, was: Ticket)
    requires Core(t, Sweep(g, ip)) && Leftover(g, ip, was) && Possible(g, e) && e.Registered?
    requires !ForeignJoin(g, e, ip, was)
    ensures GapInv(t, Step(t, g, e), ip, was)
  {
    var (s', r) := Register(t, g, e.req, e.link, e.clientType, e.instance);
    SweptIsNotLive(t, g, ip);
    if JoinsPool(g, e.req, e.instance) && e.req.ip == Some(ip) {
      hide Core, AllocateIp, Attach;
      LinkKeepsCore(t, Sweep(g, ip), g.senders[ip], e.link);
    } else {
      hide Core, Register, JoinsPool;
      RegisterThenSweep(t, g, e.req, e.link, e.clientType, e.instance, ip);
      RegisterKeepsCore(t, Sweep(g, ip), e.req, e.link, e.clientType, e.instance);
      RegisterKeepsLeftover(t, g, e.req, e.link, e.clientType, e.instance, ip, was);
    }
  }

  lemma RegisterKeepsLeftover(t: Topology, g: State, req: Request, link: LinkId, ct: ClientType, instance: InstanceId,
                              ip: Ip, was: Ticket)
    requires Core(t, Sweep(g, ip)) && Leftover(g, ip, was)
    ensures var (s', r) := Register(t, g, req, link, ct, instance);
            !(r.Ok? && r.value.ip == ip) ==> Leftover(s', ip, was)
  {
    assert PoolsBelow(g.pools, g.nextPool) by {
      hide Addresses, SendersFollow, TrafficKeys, OwnCounters, LinksIssued, PoolsBelow, DrainsOwned, Stamped;
    }
    AllocateKeepsPools(t, g, req, link, ct, ip);
    SendersUntouched(t, g, req, link, ct);
    hide Core, AllocateIp, Attach, Leftover, PoolsBelow;
    var (s1, r) := AllocateIp(t, g, req, link, ct);
    SameLeftover(g, s1, ip, was);
    if r.Ok? && req.device in s1.devices && r.value.ip != ip {
      AttachKeepsLeftover(s1, req.device, r.value, link, instance, ip, was);
    }
    if JoinsPool(g, req, instance) {
      AddLinkKeepsLeftover(g, req, link, instance, ip, was);
    }
  }

  lemma SameLeftover(g: State, s1: State, ip: Ip, was: Ticket)
    requires Leftover(g, ip, was) && s1.senders == g.senders && s1.pools == g.pools
    ensures Leftover(s1, ip, was)
  {
  }

  lemma AttachKeepsLeftover(s: State, d: DeviceId, grant: Grant, link: LinkId, instance: InstanceId, ip: Ip,
                            was: Ticket)
    requires d in s.devices && grant.ip != ip && Leftover(s, ip, was) && PoolsBelow(s.pools, s.nextPool)
    ensures Leftover(Attach(s, d, grant, link, instance), ip, was)
  {
  }

  lemma AddLinkKeepsLeftover(g: State, req: Request, link: LinkId, instance: InstanceId, ip: Ip, was: Ticket)
    requires Leftover(g, ip, was) && JoinsPool(g, req, instance)
    ensures Leftover(AddLink(g, req.device, req.ip.value, link, instance), ip, was)
  {
  }

  lemma AllocateKeepsPools(t: Topology, g: State, req: Request, link: LinkId, ct: ClientType, ip: Ip)
    requires Core(t, Sweep(g, ip))
    ensures var s1 := AllocateIp(t, g, req, link, ct).0;
            s1.pools == g.pools && s1.nextPool == g.nextPool
  {
    hide Addresses, Attachments, AllocateIp;
    AllocateThenSweep(t, g, req, link, ct, ip);
    AllocateIpGrants(t, Sweep(g, ip), req, link, ct);
  }

  lemma OfflineEntryKeepsCore(t: Topology, c: State, d: DeviceId, e: Entry, version: nat, sync: nat,
                              draining: set<Drain>)
    requires Core(t, c) && d in c.devices && draining <= c.draining
    requires e.ip == c.devices[d].ip && e.stats == c.devices[d].stats && !e.connected
    requires c.dataVersion <= version && e.stamp <= version && (sync == c.fullSyncVersion || sync == version)
    ensures Core(t, c.(devices := c.devices[d := e], dataVersion := version, fullSyncVersion := sync,
                       draining := draining))
  {
    assert DrainsOwned(c.pools, draining) by {
      hide Addresses, SendersFollow, TrafficKeys, OwnCounters, LinksIssued, PoolsBelow, Stamped;
    }
    hide ConfiguredInverse, ConnectedConfigured, OneActive, Exclusive, AllUsable, SendersFollow, TrafficKeys,
      OwnCounters, LinksIssued, PoolsBelow, DrainsOwned, Stamped;
    ReplaceKeepsConfigured(c.devices, c.configured, d, e);
    PutKeepsConnected(c.devices, d, e);
    PutKeepsCounters(c.devices, c.nextStats, d, e, c.nextStats);
    StampKeepsStamped(c.devices, c.dataVersion, c.fullSyncVersion, d, e, version, sync);
  }

  lemma FinalizeKeepsGap(t: Topology, g: State, e: Event, ip: Ip, was: Ticket)
    requires Core(t, Sweep(g, ip)) && Leftover(g, ip, was) && Possible(g, e) && e.OfflineFinalized?
    ensures GapInv(t, Step(t, g, e), ip, was)
  {
    if e.ip == ip && FinalizeOffline(g, e.device, e.ip, e.pool, e.now).1 {
      hide Core;
      FinalizeTakesLeftover(t, g, e.device, ip, e.pool, e.now);
    } else {
      hide Core;
      FinalizeIsAlike(g, e.device, e.ip, e.pool, e.now, ip);
      hide Alike, FinalizeOffline;
      AlikeKeepsGap(t, g, e, ip, was);
    }
  }

  /** A disconnect of the released session that was still in flight takes the leftover pool away itself. */
  lemma FinalizeTakesLeftover(t: Topology, g: State, d: DeviceId, ip: Ip, pool: PoolId, now: nat)
    requires Core(t, Sweep(g, ip)) && FinalizeOffline(g, d, ip, pool, now).1
    ensures var s' := FinalizeOffline(g, d, ip, pool, now).0;
            Core(t, Sweep(s', ip)) && ip !in s'.senders
  {
    SweptIsNotLive(t, g, ip);
    hide Core;
    LeftoverFinalized(g, d, ip, pool, now);
    hide FinalizeOffline, Sweep;
    var s' := FinalizeOffline(g, d, ip, pool, now).0;
    OfflineEntryKeepsCore(t, Sweep(g, ip), d, s'.devices[d], s'.dataVersion, s'.fullSyncVersion, s'.draining);
  }

  lemma LeftoverFinalized(g: State, d: DeviceId, ip: Ip, pool: PoolId, now: nat)
    requires FinalizeOffline(g, d, ip, pool, now).1 && ip !in g.active
    ensures var s', c := FinalizeOffline(g, d, ip, pool, now).0, Sweep(g, ip);
            && d in c.devices && d in s'.devices && s'.devices == c.devices[d := s'.devices[d]]
            && s'.devices[d].ip == c.devices[d].ip && s'.devices[d].stats == c.devices[d].stats
            && !s'.devices[d].connected && s'.devices[d].stamp <= s'.dataVersion
            && c.dataVersion <= s'.dataVersion && s'.draining <= c.draining
            && (s'.fullSyncVersion == c.fullSyncVersion || s'.fullSyncVersion == s'.dataVersion)
            && ip !in s'.senders
            && Sweep(s', ip) == c.(devices := s'.devices, dataVersion := s'.dataVersion,
                                   fullSyncVersion := s'.fullSyncVersion, draining := s'.draining)
  {
    var s' := FinalizeOffline(g, d, ip, pool, now).0;
    assert s'.active == g.active;
    assert g.senders - {ip} - {ip} == g.senders - {ip} && g.traffic - {ip} - {ip} == g.traffic - {ip};
  }

  lemma ReleaseKeepsGap(t: Topology, g: State, e: Event, ip: Ip, was: Ticket)
    requires Core(t, Sweep(g, ip)) && Leftover(g, ip, was) && Possible(g, e) && e.PreRegistrationReleased?
    ensures GapInv(t, Step(t, g, e), ip, was)
  {
    hide Core;
    if e.ip != ip {
      ReleaseIsAlike(g, e.device, e.ip, e.link, e.instance, ip);
      hide Alike, Release;
      AlikeKeepsGap(t, g, e, ip, was);
    } else {
      UnlinkKeepsSwept(t, g, e.link, e.instance, ip, was);
      var g1 := Unlink(g, ip, e.link, e.instance).0;
      hide Unlink;
      if Releases(g, e.device, ip, e.link, e.instance) {
        DeleteKeepsCore(t, Sweep(g1, ip), e.device, {ip});
        ReleaseDeletes(g, g1, e.device, ip, e.link, e.instance);
      }
    }
  }

  lemma UnlinkKeepsSwept(t: Topology, g: State, link: LinkId, instance: InstanceId, ip: Ip, was: Ticket)
    requires Core(t, Sweep(g, ip)) && Leftover(g, ip, was)
    ensures var g1 := Unlink(g, ip, link, instance).0;
            Core(t, Sweep(g1, ip)) && Leftover(g1, ip, was) && g1 == g.(pools := g1.pools)
  {
    hide Core;
    if PoolAt(g, ip).Some? {
      UnlinkKeepsCore(t, Sweep(g, ip), g.senders[ip], link);
    }
  }

  lemma ReleaseDeletes(g: State, g1: State, d: DeviceId, ip: Ip, link: LinkId, instance: InstanceId)
    requires g1 == Unlink(g, ip, link, instance).0 && g1 == g.(pools := g1.pools)
    requires Releases(g, d, ip, link, instance)
    ensures Release(g, d, ip, link, instance) == Deleted(Sweep(g1, ip), d, {ip})
    ensures Sweep(Release(g, d, ip, link, instance), ip) == Release(g, d, ip, link, instance)
    ensures ip !in Release(g, d, ip, link, instance).senders
  {
    hide Unlink;
    assert g.senders - {ip} - {ip} == g.senders - {ip} && g.traffic - {ip} - {ip} == g.traffic - {ip};
  }

  // ---------- whole runs ----------

  lemma GapStep(t: Topology, g: State, e: Event, ip: Ip, was: Ticket)
    requires GapInv(t, g, ip, was) && Possible(g, e) && !ForeignJoin(g, e, ip, was)
    ensures GapInv(t, Step(t, g, e), ip, was)
  {
    hide Core, Alike, Leftover, Possible, ForeignJoin;
    if Core(t, g) {
      hide Step;
      StepKeepsCore(t, g, e);
    } else {
      hide Register, FastRegister, RemoveLink, FinalizeOffline, UpsertDevice, Expire, RemoveDevice, Release, Confirm,
        UpdateRuntime;
      match e
      case Registered(_, _, _, _) => RegisterKeepsGap(t, g, e, ip, was);
      case FastRegistered(_, _, _, _, _) => FastRegisterKeepsGap(t, g, e, ip, was);
      case OfflineFinalized(_, _, _, _) => FinalizeKeepsGap(t, g, e, ip, was);
      case PreRegistrationReleased(_, _, _, _) => ReleaseKeepsGap(t, g, e, ip, was);
      case LinkDropped(d, at, h, link, instance) =>
        RemoveLinkIsAlike(g, d, at, h, link, instance, ip);
        AlikeKeepsGap(t, g, e, ip, was);
      case Edited(mutation, edit, now) =>
        EditIsAlike(t, g, mutation, edit, now, ip);
        AlikeKeepsGap(t, g, e, ip, was);
      case LeasesExpired(devices) =>
        ExpireIsAlike(g, devices, ip);
        AlikeKeepsGap(t, g, e, ip, was);
      case DeviceRemoved(d) =>
        RemoveIsAlike(g, d, ip);
        AlikeKeepsGap(t, g, e, ip, was);
      case RegistrationConfirmed(d) =>
        ConfirmIsAlike(g, d, ip);
        AlikeKeepsGap(t, g, e, ip, was);
      case RuntimeReported(d, subnets) =>
        ReportIsAlike(g, d, subnets, ip);
        AlikeKeepsGap(t, g, e, ip, was);
    }
  }

  lemma {:induction false} GapRun(t: Topology, g: State, events: seq<Event>, ip: Ip, was: Ticket)
    requires GapInv(t, g, ip, was) && PossibleRun(t, g, events) && !ForeignJoins(t, g, events, ip, was)
    ensures GapInv(t, Exec(t, g, events), ip, was)
    decreases |events|
  {
    hide GapInv, Step, ForeignJoin;
    if events != [] {
      GapStep(t, g, events[0], ip, was);
      GapRun(t, Step(t, g, events[0]), events[1..], ip, was);
    }
  }

  /**
   Whatever runs between the two parts of a release, as long as no other device
   joins what is left of the session: the removals leave a consistent table if
   and only if nobody is live at the address just before them.
   */
  lemma ReleaseGapIff(t: Topology, s: State, device: DeviceId, ip: Ip, link: LinkId, instance: InstanceId,
                      events: seq<Event>)
    requires Core(t, s) && Releases(s, device, ip, link, instance)
    requires Get(s.issued, link) == Some(Ticket(device, instance))
    requires PossibleRun(t, ReleaseLocked(s, device, ip, link, instance), events)
    requires !ForeignJoins(t, ReleaseLocked(s, device, ip, link, instance), events, ip, Ticket(device, instance))
    ensures var g := Exec(t, ReleaseLocked(s, device, ip, link, instance), events);
            Core(t, Sweep(g, ip)) <==> ip !in g.active
  {
    var g := ReleaseLocked(s, device, ip, link, instance);
    var was := Ticket(device, instance);
    ReleaseKeepsCore(t, s, device, ip, link, instance);
    ReleasedLeftover(t, s, device, ip, link, instance);
    hide Core, ReleaseLocked, Exec, PossibleRun, ForeignJoins;
    GapRun(t, g, events, ip, was);
    CoreIffNotLive(t, Exec(t, g, events), ip, was);
  }

  lemma ReleasedLeftover(t: Topology, s: State, device: DeviceId, ip: Ip, link: LinkId, instance: InstanceId)
    requires Core(t, s) && Releases(s, device, ip, link, instance)
    requires Get(s.issued, link) == Some(Ticket(device, instance))
    ensures Leftover(ReleaseLocked(s, device, ip, link, instance), ip, Ticket(device, instance))
  {
    ConfiguredNotForeign(t, s, device, ip);
    hide Addresses, TrafficKeys, OwnCounters, LinksIssued, PoolsBelow, DrainsOwned, Stamped;
  }

  // ---------- registrations in the gap ----------

  /** Which registration is granted the freed address can be told from the table after the release. */
  lemma RacingRegistrationIff(t: Topology, s: State, device: DeviceId, ip: Ip, link: LinkId, instance: InstanceId,
                              req: Request, newLink: LinkId, ct: ClientType, newInstance: InstanceId)
    requires GoodTopology(t) && Core(t, s) && Releases(s, device, ip, link, instance) && newLink !in s.issued
    ensures var s' := Register(t, ReleaseLocked(s, device, ip, link, instance), req, newLink, ct, newInstance).0;
            var clean := Release(s, device, ip, link, instance);
            Core(t, Sweep(s', ip)) <==>
              !(Admitted(t, clean, req, ct) && Grantable(t, clean, req) && RightAddress(t, clean, req, ip))
  {
    hide GoodTopology, Core, Releases, ReleaseLocked, Register, Release, Grantable, RightAddress, Admitted;
    var g, clean := ReleaseLocked(s, device, ip, link, instance), Release(s, device, ip, link, instance);
    ReleaseRacesRegistrationIff(t, s, device, ip, link, instance, req, newLink, ct, newInstance);
    ReleaseKeepsCore(t, s, device, ip, link, instance);
    Freed(t, s, device, ip, link, instance, req.device);
    JoinNeedsAddress(g, req, newInstance, ip);
    RegisterThenSweep(t, g, req, newLink, ct, newInstance, ip);
    RegistrationSucceedsIff(t, clean, req, newLink, ct, newInstance);
    var r := Register(t, g, req, newLink, ct, newInstance).1;
    if r.Ok? && RightAddress(t, clean, req, ip) {
      RightAddressIsUnique(t, clean, req, ip, r.value.ip);
    }
  }

  lemma JoinNeedsAddress(g: State, req: Request, instance: InstanceId, ip: Ip)
    requires req.device in g.devices ==> g.devices[req.device].ip != Some(ip)
    ensures JoinsPool(g, req, instance) ==> req.ip != Some(ip)
  {
  }

  lemma RightAddressIsUnique(t: Topology, s: State, req: Request, a: Ip, b: Ip)
    requires RightAddress(t, s, req, a) && RightAddress(t, s, req, b)
    ensures a == b
  {
    hide Obtainable, IsFree;
  }

  /** In the gap a granted registration makes its device live exactly if it did not join the leftover pool. */
  lemma GapGrantIsLiveIff(t: Topology, g: State, req: Request, link: LinkId, ct: ClientType, instance: InstanceId,
                          ip: Ip)
    requires Core(t, Sweep(g, ip))
    ensures var (s', r) := Register(t, g, req, link, ct, instance);
            var joins := JoinsPool(g, req, instance) && req.ip == Some(ip);
            r.Ok? ==>
              && (Get(s'.active, r.value.ip) == Some(req.device) <==> !joins)
              && (joins ==> r.value.ip == ip && PoolAt(s', ip).Some? && PoolAt(Sweep(s', ip), ip).None?)
  {
    if JoinsPool(g, req, instance) && req.ip == Some(ip) {
      SweptIsNotLive(t, g, ip);
      hide Core, AllocateIp, Attach;
    } else {
      hide Core, Register, JoinsPool;
      RegisterThenSweep(t, g, req, link, ct, instance, ip);
      GrantedRegistrationIsLive(t, Sweep(g, ip), req, link, ct, instance);
    }
  }

  /** A foreign join puts the link of one device into a pool of another, which the sweep does not mend. */
  lemma ForeignJoinBreaksGap(t: Topology, g: State, req: Request, link: LinkId, instance: InstanceId, ip: Ip,
                             was: Ticket)
    requires Leftover(g, ip, was) && JoinsPool(g, req, instance) && req.ip == Some(ip) && req.device != was.device
    ensures !Core(t, Sweep(AddLink(g, req.device, ip, link, instance), ip))
  {
    var s' := Sweep(AddLink(g, req.device, ip, link, instance), ip);
    var h := g.senders[ip];
    assert link in s'.pools[h].links && !LinksOf(s'.pools[h], s'.issued);
    hide Addresses, SendersFollow, TrafficKeys, OwnCounters, PoolsBelow, DrainsOwned, Stamped;
  }

  /** The released device is created again at its address and the same client registers before the sweep. */
  function GapRejoin(d: DeviceId): seq<Event> {
    [ Edited(Create(Vnt), Edit(d, 2, Static, [], [], []), 0),
      Registered(Request(d, Some(2), false, Normal, []), 2, Vnt, LIVE) ]
  }

  function GapStart(d: DeviceId): State {
    State(2, 2, map[], map[], map[], map[2 := 0], map[2 := 0], map[0 := Pool(d, LIVE, map[])], 1, 1, Tickets(d, 1), {})
  }

  function GapCreated(d: DeviceId): State {
    GapStart(d).(dataVersion := 3, nextStats := 2, configured := map[2 := d],
                 devices := map[d := Entry(Some(2), Static, Vnt, 0, false, false, Some(0), 3, 1, [], [])])
  }

  function GapRejoined(d: DeviceId): State {
    GapCreated(d).(pools := map[0 := Pool(d, LIVE, map[2 := None])], issued := Tickets(d, 2))
  }

  lemma GapStartStep(d: DeviceId)
    ensures Releases(Joined(d, 1), d, 2, 1, LIVE) && ReleaseLocked(Joined(d, 1), d, 2, 1, LIVE) == GapStart(d)
  {
    Unfolded(d);
    hide Tickets, Links;
    var one: map<LinkId, Option<nat>> := map[1 := None];
    assert one - {1} == map[];
  }

  lemma GapCreateStep(d: DeviceId)
    ensures Step(T0, GapStart(d), GapRejoin(d)[0]) == GapCreated(d)
  {
    hide Tickets;
  }

  lemma GapJoinStep(d: DeviceId)
    ensures Register(T0, GapCreated(d), GapRejoin(d)[1].req, 2, Vnt, LIVE) == (GapRejoined(d), Ok(Grant(2, None)))
  {
    hide AllocateIp, Attach;
    var s := AddLink(GapCreated(d), d, 2, 2, LIVE);
    assert s.pools == map[0 := Pool(d, LIVE, map[2 := None])];
    assert s.issued == Tickets(d, 2);
  }

  /** It is granted the address without being live, and the sweep then drops its pool. */
  lemma RejoinInGapIsLost(d: DeviceId)
    ensures Releases(Joined(d, 1), d, 2, 1, LIVE) && ReleaseLocked(Joined(d, 1), d, 2, 1, LIVE) == GapStart(d)
    ensures PossibleRun(T0, GapStart(d), GapRejoin(d)) && Exec(T0, GapStart(d), GapRejoin(d)) == GapRejoined(d)
    ensures Register(T0, GapCreated(d), GapRejoin(d)[1].req, 2, Vnt, LIVE).1 == Ok(Grant(2, None))
    ensures 2 !in GapRejoined(d).active && PoolAt(GapRejoined(d), 2).Some? && PoolAt(Sweep(GapRejoined(d), 2), 2).None?
  {
    GapStartStep(d);
    GapCreateStep(d);
    GapJoinStep(d);
    Unfolded(d);
    var es := GapRejoin(d);
    assert es == [es[0]] + [es[1]];
    hide Step, Register, ReleaseLocked, Releases, Tickets;
    ExecOne(T0, GapStart(d), es[0]);
    StepIsRegister(d);
    ExecOne(T0, GapCreated(d), es[1]);
    ExecAppend(T0, GapStart(d), [es[0]], [es[1]]);
  }

  lemma StepIsRegister(d: DeviceId)
    ensures Step(T0, GapCreated(d), GapRejoin(d)[1]) == Register(T0, GapCreated(d), GapRejoin(d)[1].req, 2, Vnt, LIVE).0
  {
    hide Register;
  }
}
