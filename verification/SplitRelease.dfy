/** The release of a pre-registration, whose last removals are made after the lease lock has been given up. */
module SplitRelease {
  import opened Wrappers
  import opened Ipv4
  import opened LeaseModel
  import opened LeaseInvariant
  import opened LeaseRuns
  import opened LeaseProperties
  import opened LeaseWitnesses

  /** The late removals keep the invariant exactly when nobody is live at the address by then. */
  lemma SweepKeepsCoreIff(t: Topology, s: State, ip: Ip)
    requires Core(t, s)
    ensures Core(t, Sweep(s, ip)) <==> ip !in s.active
    ensures ip in s.active ==> PoolAt(Sweep(s, ip), ip).None? && Get(Sweep(s, ip).active, ip) == Some(s.active[ip])
  {
    hide ConfiguredInverse, ConnectedConfigured, OneActive, Exclusive, AllUsable, OwnCounters, LinksIssued, PoolsBelow,
      DrainsOwned, Stamped;
    if ip !in s.active {
      assert s.senders - {ip} == s.senders && s.traffic - {ip} == s.traffic;
      assert Sweep(s, ip) == s;
    }
  }

  /** The same holds of the end of a subscription session, which removes only the sender at its recorded address. */
  lemma SenderRemovalKeepsCoreIff(t: Topology, s: State, ip: Ip)
    requires Core(t, s)
    ensures Core(t, s.(senders := s.senders - {ip})) <==> ip !in s.active
  {
    hide ConfiguredInverse, ConnectedConfigured, OneActive, Exclusive, AllUsable, OwnCounters, LinksIssued, PoolsBelow,
      DrainsOwned, Stamped;
    if ip !in s.active {
      assert s.senders - {ip} == s.senders;
      assert s.(senders := s.senders) == s;
    }
  }

  // ---------- a registration in between ----------

  /** `s'` is `s` with other sender and traffic maps. */
  function Dress(s: State, senders: map<Ip, PoolId>, traffic: map<Ip, StatsId>): State {
    s.(senders := senders, traffic := traffic)
  }

  lemma AllocationIgnoresSenders(t: Topology, s: State, req: Request, link: LinkId, ct: ClientType,
                                 senders: map<Ip, PoolId>, traffic: map<Ip, StatsId>)
    ensures var (s1, r) := AllocateIp(t, s, req, link, ct);
            AllocateIp(t, Dress(s, senders, traffic), req, link, ct) == (Dress(s1, senders, traffic), r)
  {
    hide FindAvailable, AddressRefusal, Keep, Adopt;
    var d := Dress(s, senders, traffic);
    RefusalIgnoresSenders(t, s, req.device, senders, traffic);
    if req.device in s.devices {
      KeepIgnoresSenders(t, s, req, link, ct, senders, traffic);
    }
    forall ip, prior
      ensures Adopt(d, req, link, ct, ip, prior) == Dress(Adopt(s, req, link, ct, ip, prior), senders, traffic)
    {
      AdoptIgnoresSenders(s, req, link, ct, ip, prior, senders, traffic);
    }
  }

  lemma RefusalIgnoresSenders(t: Topology, s: State, device: DeviceId, senders: map<Ip, PoolId>,
                              traffic: map<Ip, StatsId>)
    ensures Taken(Dress(s, senders, traffic)) == Taken(s)
    ensures forall ip :: AddressRefusal(t, Dress(s, senders, traffic), ip, device) == AddressRefusal(t, s, ip, device)
  {
  }

  lemma KeepIgnoresSenders(t: Topology, s: State, req: Request, link: LinkId, ct: ClientType,
                           senders: map<Ip, PoolId>, traffic: map<Ip, StatsId>)
    requires req.device in s.devices
    ensures var (s1, r) := Keep(t, s, req, link, ct);
            Keep(t, Dress(s, senders, traffic), req, link, ct) == (Dress(s1, senders, traffic), r)
  {
    hide FindAvailable, ConflictingOwner, Reconnected;
  }

  lemma AdoptIgnoresSenders(s: State, req: Request, link: LinkId, ct: ClientType, ip: Ip, prior: Option<Ip>,
                            senders: map<Ip, PoolId>, traffic: map<Ip, StatsId>)
    ensures Adopt(Dress(s, senders, traffic), req, link, ct, ip, prior) ==
            Dress(Adopt(s, req, link, ct, ip, prior), senders, traffic)
  {
    hide Without, AdoptedEntry;
  }

  /** Attaching at the swept address hides the leftovers; attaching elsewhere leaves them to the sweep. */
  lemma AttachThenSweep(s: State, device: DeviceId, grant: Grant, link: LinkId, instance: InstanceId, ip: Ip)
    requires device in s.devices
    ensures var swept := Attach(Sweep(s, ip), device, grant, link, instance);
            var s' := Attach(s, device, grant, link, instance);
            if grant.ip == ip then s' == swept else Sweep(s', ip) == swept
  {
    var gone := StaleAddresses(s.active, device, grant.ip) + AddressSet(grant.prior);
    hide StaleAddresses, AddressSet;
    OverwriteForgets(s.senders, gone, grant.ip, s.nextPool, ip);
    OverwriteForgets(s.traffic, gone, grant.ip, s.devices[device].stats, ip);
  }

  lemma OverwriteForgets<V>(m: map<Ip, V>, gone: set<Ip>, at: Ip, v: V, ip: Ip)
    ensures at == ip ==> (m - gone)[at := v] == (m - {ip} - gone)[at := v]
    ensures at != ip ==> (m - gone)[at := v] - {ip} == (m - {ip} - gone)[at := v]
  {
  }

  lemma JoinIgnoresSwept(s: State, req: Request, link: LinkId, instance: InstanceId, ip: Ip)
    requires JoinsPool(s, req, instance) ==> req.ip != Some(ip)
    ensures JoinsPool(s, req, instance) <==> JoinsPool(Sweep(s, ip), req, instance)
    ensures JoinsPool(s, req, instance) ==>
              && req.ip.Some? && req.ip.value != ip
              && Sweep(AddLink(s, req.device, req.ip.value, link, instance), ip) ==
                 AddLink(Sweep(s, ip), req.device, req.ip.value, link, instance)
  {
  }

  lemma AllocateThenSweep(t: Topology, s: State, req: Request, link: LinkId, ct: ClientType, ip: Ip)
    ensures var (s1, r) := AllocateIp(t, s, req, link, ct);
            AllocateIp(t, Sweep(s, ip), req, link, ct) == (Sweep(s1, ip), r)
  {
    hide AllocateIp;
    AllocationIgnoresSenders(t, s, req, link, ct, s.senders - {ip}, s.traffic - {ip});
    SendersUntouched(t, s, req, link, ct);
  }

  /** What the sweep makes of a result reached before it, compared with the one reached after it. */
  ghost predicate SweptAlike(before: (State, Result<Grant, Refusal>), after: (State, Result<Grant, Refusal>), ip: Ip) {
    && before.1 == after.1
    && (if before.1.Ok? && before.1.value.ip == ip then before.0 == after.0 else Sweep(before.0, ip) == after.0)
  }

  lemma AttachedAlike(t: Topology, s: State, req: Request, link: LinkId, ct: ClientType, instance: InstanceId, ip: Ip)
    requires Core(t, Sweep(s, ip))
    requires !JoinsPool(s, req, instance) && !JoinsPool(Sweep(s, ip), req, instance)
    ensures SweptAlike(Allocate(t, s, req, link, ct, instance), Allocate(t, Sweep(s, ip), req, link, ct, instance), ip)
  {
    hide Core, AllocateIp, Attach, JoinsPool;
    AllocateThenSweep(t, s, req, link, ct, ip);
    AllocateEntryExists(t, Sweep(s, ip), req, link, ct);
    var (s1, r1) := AllocateIp(t, s, req, link, ct);
    if r1.Ok? {
      AttachThenSweep(s1, req.device, r1.value, link, instance, ip);
    }
  }

  lemma JoinedAlike(t: Topology, s: State, req: Request, link: LinkId, ct: ClientType, instance: InstanceId, ip: Ip)
    requires JoinsPool(s, req, instance) && req.ip != Some(ip)
    ensures SweptAlike(Allocate(t, s, req, link, ct, instance), Allocate(t, Sweep(s, ip), req, link, ct, instance), ip)
  {
    JoinIgnoresSwept(s, req, link, instance, ip);
    hide AllocateIp, Attach, AddLink, JoinsPool, Sweep;
  }

  /** A registration before the sweep is the registration after it, but for what is swept away. */
  lemma RegisterThenSweep(t: Topology, s: State, req: Request, link: LinkId, ct: ClientType, instance: InstanceId,
                          ip: Ip)
    requires Core(t, Sweep(s, ip)) && (JoinsPool(s, req, instance) ==> req.ip != Some(ip))
    ensures SweptAlike(Register(t, s, req, link, ct, instance), Register(t, Sweep(s, ip), req, link, ct, instance), ip)
  {
    hide Allocate, Core;
    JoinIgnoresSwept(s, req, link, instance, ip);
    if JoinsPool(s, req, instance) {
      JoinedAlike(t, s, req, link, ct, instance, ip);
    } else {
      AttachedAlike(t, s, req, link, ct, instance, ip);
    }
  }

  lemma SendersUntouched(t: Topology, s: State, req: Request, link: LinkId, ct: ClientType)
    ensures AllocateIp(t, s, req, link, ct).0.senders == s.senders
    ensures AllocateIp(t, s, req, link, ct).0.traffic == s.traffic
  {
    AllocationIgnoresSenders(t, s, req, link, ct, s.senders, s.traffic);
    hide AllocateIp;
    assert Dress(s, s.senders, s.traffic) == s;
  }

  /**
   If one registration comes between the two parts of a release, the removals
   leave a consistent table exactly when it was not granted the freed address.
   The newcomer at that address is live with its pool until the removals take it.
   */
  lemma ReleaseRacesRegistrationIff(t: Topology, s: State, device: DeviceId, ip: Ip, link: LinkId, instance: InstanceId,
                                    req: Request, newLink: LinkId, ct: ClientType, newInstance: InstanceId)
    requires Core(t, s) && Releases(s, device, ip, link, instance) && newLink !in s.issued
    ensures var (s', r) := Register(t, ReleaseLocked(s, device, ip, link, instance), req, newLink, ct, newInstance);
            && (Core(t, Sweep(s', ip)) <==> !(r.Ok? && r.value.ip == ip))
            && (r.Ok? && r.value.ip == ip ==>
                  && Core(t, s') && Get(s'.active, ip) == Some(req.device) && PoolAt(s', ip).Some?
                  && Get(Sweep(s', ip).active, ip) == Some(req.device) && PoolAt(Sweep(s', ip), ip).None?)
  {
    hide Core, Releases, ReleaseLocked, Register;
    var s1 := ReleaseLocked(s, device, ip, link, instance);
    var clean := Sweep(s1, ip);
    ReleaseKeepsCore(t, s, device, ip, link, instance);
    Freed(t, s, device, ip, link, instance, req.device);
    RegisterThenSweep(t, s1, req, newLink, ct, newInstance, ip);
    RegisterKeepsCore(t, clean, req, newLink, ct, newInstance);
    var (s', r) := Register(t, s1, req, newLink, ct, newInstance);
    if r.Ok? && r.value.ip == ip {
      GrantedRegistrationIsLive(t, clean, req, newLink, ct, newInstance);
      SweepKeepsCoreIff(t, s', ip);
    }
  }

  lemma Freed(t: Topology, s: State, device: DeviceId, ip: Ip, link: LinkId, instance: InstanceId, other: DeviceId)
    requires Core(t, s) && Releases(s, device, ip, link, instance)
    ensures var s1 := ReleaseLocked(s, device, ip, link, instance);
            && s1.issued == s.issued
            && (other in s1.devices ==> s1.devices[other].ip != Some(ip))
            && Release(s, device, ip, link, instance) == Sweep(s1, ip)
  {
    hide ConnectedConfigured, OneActive, Exclusive, AllUsable, Attachments, Stamped;
  }

  // ---------- a newcomer that loses its pool ----------

  /** After one device pre-registered at 2, its release races with the registration of another at 2. */
  lemma NewcomerLosesPool(d: DeviceId, e: DeviceId)
    requires d != e
    ensures Exec(T0, EMPTY, Approach(d)[..1]) == Joined(d, 1) && PossibleRun(T0, EMPTY, Approach(d)[..1])
    ensures var req := Request(e, Some(2), false, Normal, []);
            var (s', r) := Register(T0, ReleaseLocked(Joined(d, 1), d, 2, 1, LIVE), req, 2, Vnt, [8]);
            && r == Ok(Grant(2, None))
            && Get(Sweep(s', 2).active, 2) == Some(e) && PoolAt(Sweep(s', 2), 2).None?
  {
    var s := Joined(d, 1);
    assert Approach(d)[..1] == [Approach(d)[0]];
    FirstJoin(d);
    ExecOne(T0, EMPTY, Approach(d)[0]);
    NewcomerIsGranted(d, e);
    hide Register, ReleaseLocked, Step, AllocateIp;
    LoadSatisfiesCore(T0, [], 0);
    RunKeepsCore(T0, EMPTY, Approach(d)[..1]);
    ReleaseRacesRegistrationIff(T0, s, d, 2, 1, LIVE, Request(e, Some(2), false, Normal, []), 2, Vnt, [8]);
  }

  lemma NewcomerIsGranted(d: DeviceId, e: DeviceId)
    requires d != e
    ensures Releases(Joined(d, 1), d, 2, 1, LIVE) && 2 !in Joined(d, 1).issued
    ensures var req := Request(e, Some(2), false, Normal, []);
            Register(T0, ReleaseLocked(Joined(d, 1), d, 2, 1, LIVE), req, 2, Vnt, [8]).1 == Ok(Grant(2, None))
  {
    Unfolded(d);
    assert Links(1) - {1} == map[];
    hide Attach, Adopt;
  }
}
