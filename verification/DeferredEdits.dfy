/** Address edits of connected devices: missed by incremental lists, and published when the session takes them up. */
module DeferredEdits {
  import opened Wrappers
  import opened Ipv4
  import opened LeaseModel
  import opened LeaseInvariant
  import opened LeaseLinked
  import opened LeaseRuns
  import opened LeaseProperties
  import opened LeaseEffects
  import opened LeaseIsolation
  import opened LiveReadings
  import opened LeaseWitnesses
  import opened DeltaSync

  // ---------- a missed edit ----------

  /** A possible run whose last step leaves an up-to-date client with a list that is not the full one. */
  lemma EditCanBeMissed(d: DeviceId)
    ensures var v, s := Viewer(5, false, false), Exec(T0, EMPTY, Approach(d));
            var s' := Exec(T0, EMPTY, Approach(d) + [BackEdit(d)]);
            && PossibleRun(T0, EMPTY, Approach(d) + [BackEdit(d)])
            && s' == Step(T0, s, BackEdit(d))
            && MissedEdit(T0, s, BackEdit(d), v)
            && Current(s, v).Receive(ChangedClientList(s', v, s.dataVersion)) != Current(s', v)
  {
    hide Approach, Step, MissedEdit, Core, Linked;
    ApproachRuns(d);
    BackEditRuns(d);
    var s := Exec(T0, EMPTY, Approach(d));
    ExecOne(T0, s, BackEdit(d));
    ExecAppend(T0, EMPTY, Approach(d), [BackEdit(d)]);
    BackEditIsMissed(d);
    EmptyIsCore();
    RunKeepsCore(T0, EMPTY, Approach(d));
    StepIsConveyedIff(T0, s, BackEdit(d), Viewer(5, false, false));
  }

  lemma EmptyIsCore()
    ensures Core(T0, EMPTY)
  {
  }

  lemma BackEditIsMissed(d: DeviceId)
    ensures MissedEdit(T0, MovedTo(d, Member(3, Dynamic, 2), 3), BackEdit(d), Viewer(5, false, false))
  {
    hide Links, Tickets;
  }

  // ---------- when it is published ----------

  /** The connected device is live at `a` and has another address configured. */
  ghost predicate Deferred(s: State, d: DeviceId, a: Ip) {
    && d in s.devices && s.devices[d].connected
    && Get(s.active, a) == Some(d) && s.devices[d].ip != Some(a)
  }

  /** The step forces a full list on everyone, or the edit is still deferred. */
  ghost predicate PublishedOrDeferred(s: State, s': State, d: DeviceId, a: Ip) {
    s'.fullSyncVersion > s.dataVersion || Deferred(s', d, a)
  }

  lemma ElsewhereDeferred(s: State, s': State, d: DeviceId, a: Ip)
    requires Deferred(s, d, a) && Undisturbed(s, s', d)
    ensures Deferred(s', d, a)
  {
  }

  lemma RegistrationPublishes(t: Topology, s: State, req: Request, link: LinkId, ct: ClientType, instance: InstanceId,
                              a: Ip)
    requires Core(t, s) && Deferred(s, req.device, a)
    ensures PublishedOrDeferred(s, Register(t, s, req, link, ct, instance).0, req.device, a)
  {
    assert s.devices[req.device].ip.Some? by {
      hide ConfiguredInverse, OneActive, Exclusive, AllUsable, Attachments, Stamped;
    }
    hide Addresses, Attachments, AllocateIp;
    var e := s.devices[req.device];
    LiveOnce(t, s, req.device, a);
    ConfiguredNotForeign(t, s, req.device, e.ip.value);
    if JoinsPool(s, req, instance) {
      SendersAreLive(t, s, e.ip.value);
      assert false;
    }
    AllocateIpGrants(t, s, req, link, ct);
    var (s1, r) := AllocateIp(t, s, req, link, ct);
    if r.Ok? {
      AttachPublishes(t, s, s1, req.device, r.value, link, instance, ct, a);
    }
    hide Granted, Attach, Core;
  }

  lemma LiveOnce(t: Topology, s: State, d: DeviceId, a: Ip)
    requires Core(t, s) && Get(s.active, a) == Some(d)
    ensures forall b :: b in s.active && s.active[b] == d ==> b == a
  {
    hide ConfiguredInverse, ConnectedConfigured, Exclusive, AllUsable, Attachments, Stamped;
  }

  lemma AttachPublishes(t: Topology, s: State, s1: State, d: DeviceId, grant: Grant, link: LinkId, instance: InstanceId,
                        ct: ClientType, a: Ip)
    requires Granted(t, s, s1, d, grant, ct)
    requires Deferred(s, d, a) && s.devices[d].ip.Some?
    ensures d in s1.devices && Attach(s1, d, grant, link, instance).fullSyncVersion > s.dataVersion
  {
    if grant.ip != a {
      assert a in StaleAddresses(s1.active, d, grant.ip);
    }
    hide UsableHost, Without, ConflictingOwner;
  }

  lemma EditPublishes(t: Topology, s: State, mutation: Mutation, edit: Edit, now: nat, a: Ip)
    requires Deferred(s, edit.device, a)
    requires var e, r := s.devices[edit.device], UpsertDevice(t, s, mutation, edit, now).1;
             r.Ok? ==> e.ip == Some(edit.ip) || LiveRouteChange(e, edit)
    ensures PublishedOrDeferred(s, UpsertDevice(t, s, mutation, edit, now).0, edit.device, a)
  {
    hide Without, ConflictingOwner, UsableHost;
  }

  lemma DisconnectPublishes(t: Topology, s: State, d: DeviceId, ip: Ip, pool: PoolId, now: nat, a: Ip)
    requires Core(t, s) && Deferred(s, d, a) && Drain(d, ip, pool) in s.draining
    ensures PublishedOrDeferred(s, FinalizeOffline(s, d, ip, pool, now).0, d, a)
  {
    hide Core;
    if FinalizeOffline(s, d, ip, pool, now).1 {
      DrainedAddress(t, s, d, ip, pool);
    }
  }

  lemma ExpiryKeepsDeferred(s: State, devices: seq<DeviceId>, d: DeviceId, a: Ip)
    requires Deferred(s, d, a)
    ensures Deferred(Expire(s, devices).0, d, a)
  {
    hide ExpireAll;
    var s0 := s.(dataVersion := s.dataVersion + 1);
    ExpireAllFrame(s0, devices, d);
    ExpireAllKeepsActive(s0, devices);
  }

  lemma ReleasePublishes(s: State, d: DeviceId, ip: Ip, link: LinkId, instance: InstanceId, a: Ip)
    requires Deferred(s, d, a)
    ensures PublishedOrDeferred(s, Release(s, d, ip, link, instance), d, a)
    ensures PublishedOrDeferred(s, RemoveDevice(s, d), d, a)
  {
  }

  lemma MovePublishes(t: Topology, s: State, d: DeviceId, oldIp: Ip, newIp: Ip, link: LinkId, instance: InstanceId,
                      a: Ip)
    requires Deferred(s, d, a)
    ensures PublishedOrDeferred(s, FastRegister(t, s, d, oldIp, newIp, link, instance).0, d, a)
  {
    hide UsableHost, Reconfigured;
  }

  lemma ReportKeepsDeferred(s: State, d: DeviceId, subnets: seq<Net>, a: Ip)
    requires Deferred(s, d, a)
    ensures Deferred(Confirm(s, d), d, a) && Deferred(UpdateRuntime(s, d, subnets), d, a)
  {
  }

  /** Whatever takes a deferred edit up, or ends the session, forces a full list; only another silent edit does not. */
  lemma SettlingIsPublished(t: Topology, s: State, e: Event, d: DeviceId, a: Ip)
    requires Core(t, s) && Possible(s, e) && Deferred(s, d, a)
    requires !(SilentEdit(t, s, e) && e.edit.device == d)
    ensures PublishedOrDeferred(s, Step(t, s, e), d, a)
  {
    if !Concerns(e, d) {
      hide Core, Step, Undisturbed, Deferred;
      StepLeavesOthersUndisturbed(t, s, e, d);
      ElsewhereDeferred(s, Step(t, s, e), d, a);
    } else {
      hide Core, PublishedOrDeferred, Register, FastRegister, FinalizeOffline, UpsertDevice, Expire, RemoveDevice,
        Release, Confirm, UpdateRuntime, Obtainable;
      match e
      case Registered(req, link, ct, instance) => RegistrationPublishes(t, s, req, link, ct, instance, a);
      case FastRegistered(device, oldIp, newIp, link, instance) =>
        MovePublishes(t, s, d, oldIp, newIp, link, instance, a);
      case LinkDropped(device, ip, h, link, instance) => DropKeepsDeferred(s, device, ip, h, link, instance, a);
      case OfflineFinalized(device, ip, pool, now) => DisconnectPublishes(t, s, d, ip, pool, now, a);
      case Edited(mutation, edit, now) =>
        EditSucceedsIff(t, s, mutation, edit, now);
        EditPublishes(t, s, mutation, edit, now, a);
      case LeasesExpired(devices) =>
        ExpiryKeepsDeferred(s, devices, d, a);
        StillDeferred(s, Expire(s, devices).0, d, a);
      case DeviceRemoved(device) => ReleasePublishes(s, d, 0, 0, [], a);
      case PreRegistrationReleased(device, ip, link, instance) => ReleasePublishes(s, d, ip, link, instance, a);
      case RegistrationConfirmed(device) => ReportKeepsDeferred(s, d, [], a); StillDeferred(s, Confirm(s, d), d, a);
      case RuntimeReported(device, subnets) =>
        ReportKeepsDeferred(s, d, subnets, a);
        StillDeferred(s, UpdateRuntime(s, d, subnets), d, a);
    }
  }

  lemma StillDeferred(s: State, s': State, d: DeviceId, a: Ip)
    requires Deferred(s', d, a)
    ensures PublishedOrDeferred(s, s', d, a)
  {
  }

  lemma DropKeepsDeferred(s: State, d: DeviceId, ip: Ip, h: PoolId, link: LinkId, instance: InstanceId, a: Ip)
    requires Deferred(s, d, a)
    ensures PublishedOrDeferred(s, RemoveLink(s, d, ip, h, link, instance).0, d, a)
  {
  }

  // ---------- whole runs ----------

  ghost predicate VersionsGrow(s: State, s': State) {
    s.dataVersion <= s'.dataVersion && s.fullSyncVersion <= s'.fullSyncVersion
  }

  lemma StepVersionsGrow(t: Topology, s: State, e: Event)
    requires Core(t, s) && Possible(s, e)
    ensures VersionsGrow(s, Step(t, s, e))
  {
    assert s.fullSyncVersion <= s.dataVersion by {
      hide Addresses, Attachments;
    }
    hide Core;
    if !e.Edited? {
      hide Step, Quiet;
      StepConveyed(t, s, e, Viewer(0, false, false));
    } else {
      hide Without, ConflictingOwner, UsableHost, EditedEntry;
    }
  }

  /** Some step of the run is a silent edit of `d`. */
  ghost predicate EditsSilently(t: Topology, s: State, events: seq<Event>, d: DeviceId)
    decreases |events|
  {
    events != [] &&
      ((SilentEdit(t, s, events[0]) && events[0].edit.device == d) ||
       EditsSilently(t, Step(t, s, events[0]), events[1..], d))
  }

  lemma {:induction false} RunVersionsGrow(t: Topology, s: State, events: seq<Event>)
    requires Core(t, s) && PossibleRun(t, s, events)
    ensures VersionsGrow(s, Exec(t, s, events))
    decreases |events|
  {
    hide Core, Step;
    if events != [] {
      StepKeepsCore(t, s, events[0]);
      StepVersionsGrow(t, s, events[0]);
      RunVersionsGrow(t, Step(t, s, events[0]), events[1..]);
    }
  }

  lemma {:induction false} RunSettlesPublished(t: Topology, s: State, events: seq<Event>, d: DeviceId, a: Ip)
    requires Core(t, s) && PossibleRun(t, s, events) && Deferred(s, d, a) && !EditsSilently(t, s, events, d)
    ensures PublishedOrDeferred(s, Exec(t, s, events), d, a)
    decreases |events|
  {
    hide Core, Step, Deferred, SilentEdit;
    if events != [] {
      var s1 := Step(t, s, events[0]);
      StepKeepsCore(t, s, events[0]);
      StepVersionsGrow(t, s, events[0]);
      SettlingIsPublished(t, s, events[0], d, a);
      if Deferred(s1, d, a) {
        RunSettlesPublished(t, s1, events[1..], d, a);
      } else {
        RunVersionsGrow(t, s1, events[1..]);
      }
    }
  }
}
