/** Whole runs of the lease table: every interleaving of its steps. */
module LeaseRuns {
  import opened Wrappers
  import opened Ipv4
  import opened LeaseModel
  import opened LeaseInvariant
  import opened LeaseLinked

  datatype Event =
    | Registered(req: Request, link: LinkId, clientType: ClientType, instance: InstanceId)
    | FastRegistered(device: DeviceId, oldIp: Ip, newIp: Ip, link: LinkId, instance: InstanceId)
    | LinkDropped(device: DeviceId, ip: Ip, pool: PoolId, link: LinkId, instance: InstanceId)
    | OfflineFinalized(device: DeviceId, ip: Ip, pool: PoolId, now: nat)
    | Edited(mutation: Mutation, edit: Edit, now: nat)
    | LeasesExpired(devices: seq<DeviceId>)
    | DeviceRemoved(device: DeviceId)
    | PreRegistrationReleased(device: DeviceId, ip: Ip, link: LinkId, instance: InstanceId)
    | RegistrationConfirmed(device: DeviceId)
    | RuntimeReported(device: DeviceId, subnets: seq<Net>)

  function Step(t: Topology, s: State, e: Event): State {
    match e
    case Registered(req, link, ct, instance) => Register(t, s, req, link, ct, instance).0
    case FastRegistered(device, oldIp, newIp, link, instance) =>
      FastRegister(t, s, device, oldIp, newIp, link, instance).0
    case LinkDropped(device, ip, h, link, instance) => RemoveLink(s, device, ip, h, link, instance).0
    case OfflineFinalized(device, ip, pool, now) => FinalizeOffline(s, device, ip, pool, now).0
    case Edited(mutation, edit, now) => UpsertDevice(t, s, mutation, edit, now).0
    case LeasesExpired(devices) => Expire(s, devices).0
    case DeviceRemoved(device) => RemoveDevice(s, device)
    case PreRegistrationReleased(device, ip, link, instance) => Release(s, device, ip, link, instance)
    case RegistrationConfirmed(device) => Confirm(s, device)
    case RuntimeReported(device, subnets) => UpdateRuntime(s, device, subnets)
  }

  /** The event is one the server can see: new sessions get new ids, and only issued sessions act. */
  ghost predicate Possible(s: State, e: Event) {
    match e
    case Registered(_, link, _, _) => link !in s.issued
    case FastRegistered(device, _, _, link, instance) => Get(s.issued, link) == Some(Ticket(device, instance))
    case LinkDropped(device, _, _, link, instance) => Get(s.issued, link) == Some(Ticket(device, instance))
    case OfflineFinalized(device, ip, pool, _) => Drain(device, ip, pool) in s.draining
    case PreRegistrationReleased(device, _, link, instance) => Get(s.issued, link) == Some(Ticket(device, instance))
    case _ => true
  }

  /** The one guard that the release of a pre-registration lacks. */
  ghost predicate ReleaseGuard(s: State, e: Event) {
    e.PreRegistrationReleased? && Releases(s, e.device, e.ip, e.link, e.instance) ==> LiveOnlyAt(s, e.device, e.ip)
  }

  function Exec(t: Topology, s: State, events: seq<Event>): State
    decreases |events|
  {
    if events == [] then s else Exec(t, Step(t, s, events[0]), events[1..])
  }

  ghost predicate PossibleRun(t: Topology, s: State, events: seq<Event>)
    decreases |events|
  {
    events != [] ==> Possible(s, events[0]) && PossibleRun(t, Step(t, s, events[0]), events[1..])
  }

  lemma {:induction false} ExecAppend(t: Topology, s: State, a: seq<Event>, b: seq<Event>)
    ensures Exec(t, s, a + b) == Exec(t, Exec(t, s, a), b)
    ensures PossibleRun(t, s, a + b) <==> PossibleRun(t, s, a) && PossibleRun(t, Exec(t, s, a), b)
    decreases |a|
  {
    hide Step, Possible;
    if a == [] {
      assert a + b == b;
    } else {
      assert (a + b)[0] == a[0] && (a + b)[1..] == a[1..] + b;
      ExecAppend(t, Step(t, s, a[0]), a[1..], b);
    }
  }

  lemma ExecOne(t: Topology, s: State, e: Event)
    ensures Exec(t, s, [e]) == Step(t, s, e)
    ensures PossibleRun(t, s, [e]) <==> Possible(s, e)
  {
    hide Step, Possible;
    assert [e][1..] == [];
    assert Exec(t, Step(t, s, e), []) == Step(t, s, e);
  }

  /** A possible run whose releases all meet the guard. */
  ghost predicate Guarded(t: Topology, s: State, events: seq<Event>)
    decreases |events|
  {
    events != [] ==>
      && Possible(s, events[0])
      && ReleaseGuard(s, events[0])
      && Guarded(t, Step(t, s, events[0]), events[1..])
  }

  /** Every possible step keeps the core invariant. */
  lemma StepKeepsCore(t: Topology, s: State, e: Event)
    requires Core(t, s) && Possible(s, e)
    ensures Core(t, Step(t, s, e))
  {
    hide Core, Register, FastRegister, RemoveLink, FinalizeOffline, UpsertDevice, Expire, RemoveDevice, Release,
      Confirm, UpdateRuntime;
    match e
    case Registered(req, link, ct, instance) => RegisterKeepsCore(t, s, req, link, ct, instance);
    case FastRegistered(device, oldIp, newIp, link, instance) =>
      FastRegisterKeepsCore(t, s, device, oldIp, newIp, link, instance);
    case LinkDropped(device, ip, h, link, instance) => RemoveLinkKeepsCore(t, s, device, ip, h, link, instance);
    case OfflineFinalized(device, ip, pool, now) => FinalizeKeepsCore(t, s, device, ip, pool, now);
    case Edited(mutation, edit, now) => UpsertDeviceKeepsCore(t, s, mutation, edit, now);
    case LeasesExpired(devices) => ExpireKeepsCore(t, s, devices);
    case DeviceRemoved(device) => RemoveDeviceKeepsCore(t, s, device);
    case PreRegistrationReleased(device, ip, link, instance) => ReleaseKeepsCore(t, s, device, ip, link, instance);
    case RegistrationConfirmed(device) => ConfirmKeepsCore(t, s, device);
    case RuntimeReported(device, subnets) => UpdateRuntimeKeepsCore(t, s, device, subnets);
  }

  /** A possible step keeps entries and sessions together exactly when it meets the release guard. */
  lemma StepKeepsLinkedIff(t: Topology, s: State, e: Event)
    requires Inv(t, s) && Possible(s, e)
    ensures Linked(Step(t, s, e)) <==> ReleaseGuard(s, e)
  {
    hide Core, Linked, Register, FastRegister, FinalizeOffline, UpsertDevice, Expire, RemoveDevice, Release, Confirm,
      UpdateRuntime;
    match e
    case Registered(req, link, ct, instance) => RegisterKeepsLinked(t, s, req, link, ct, instance);
    case FastRegistered(device, oldIp, newIp, link, instance) =>
      FastRegisterKeepsLinked(t, s, device, oldIp, newIp, link, instance);
    case LinkDropped(device, ip, h, link, instance) => RemoveLinkKeepsLinked(s, device, ip, h, link, instance);
    case OfflineFinalized(device, ip, pool, now) => FinalizeKeepsLinked(t, s, device, ip, pool, now);
    case Edited(mutation, edit, now) => UpsertDeviceKeepsLinked(t, s, mutation, edit, now);
    case LeasesExpired(devices) => ExpireKeepsLinked(s, devices);
    case DeviceRemoved(device) => RemoveDeviceKeepsLinked(s, device);
    case PreRegistrationReleased(device, ip, link, instance) => ReleaseKeepsLinkedIff(t, s, device, ip, link, instance);
    case RegistrationConfirmed(device) => TouchKeepsLinked(s, device, []);
    case RuntimeReported(device, subnets) => TouchKeepsLinked(s, device, subnets);
  }

  lemma {:induction false} RunKeepsCore(t: Topology, s: State, events: seq<Event>)
    requires Core(t, s) && PossibleRun(t, s, events)
    ensures Core(t, Exec(t, s, events))
    decreases |events|
  {
    hide Core, Step;
    if events != [] {
      StepKeepsCore(t, s, events[0]);
      RunKeepsCore(t, Step(t, s, events[0]), events[1..]);
    }
  }

  lemma {:induction false} RunKeepsInv(t: Topology, s: State, events: seq<Event>)
    requires Inv(t, s) && Guarded(t, s, events)
    ensures Inv(t, Exec(t, s, events))
    decreases |events|
  {
    hide Core, Linked, Step;
    if events != [] {
      StepKeepsCore(t, s, events[0]);
      StepKeepsLinkedIff(t, s, events[0]);
      RunKeepsInv(t, Step(t, s, events[0]), events[1..]);
    }
  }

  /** In every state of the run entries and live sessions agree. */
  ghost predicate LinkedThroughout(t: Topology, s: State, events: seq<Event>)
    decreases |events|
  {
    Linked(s) && (events != [] ==> LinkedThroughout(t, Step(t, s, events[0]), events[1..]))
  }

  /** The guard on releases is exactly what keeps entries and sessions together throughout a run. */
  lemma {:induction false} LinkedThroughoutIff(t: Topology, s: State, events: seq<Event>)
    requires Inv(t, s) && PossibleRun(t, s, events)
    ensures LinkedThroughout(t, s, events) <==> Guarded(t, s, events)
    decreases |events|
  {
    hide Core, Linked, Step;
    if events != [] {
      StepKeepsCore(t, s, events[0]);
      StepKeepsLinkedIff(t, s, events[0]);
      if Linked(Step(t, s, events[0])) {
        LinkedThroughoutIff(t, Step(t, s, events[0]), events[1..]);
      }
    }
  }

  // ---------- address exclusivity ----------

  /** `device` has `ip` configured, by its entry or in the index, or is live at it. */
  predicate Occupies(s: State, device: DeviceId, ip: Ip) {
    || (device in s.devices && s.devices[device].ip == Some(ip))
    || Get(s.configured, ip) == Some(device)
    || Get(s.active, ip) == Some(device)
  }

  /**
   From sound records, no possible run lets two devices occupy one address or
   one device be live at two, and only usable hosts are ever occupied.
   */
  lemma AddressExclusivity(t: Topology, records: seq<Record>, now: nat, events: seq<Event>, ip: Ip, c: DeviceId,
                           d: DeviceId)
    requires SoundRecords(t, records) && PossibleRun(t, Load(t, records, now), events)
    ensures var s := Exec(t, Load(t, records, now), events);
            && (Occupies(s, c, ip) && Occupies(s, d, ip) ==> c == d)
            && (Occupies(s, c, ip) ==> t.Usable(ip))
            && (Get(s.configured, ip) == Some(c) <==> c in s.devices && s.devices[c].ip == Some(ip))
            && (forall a, b :: Get(s.active, a) == Some(c) && Get(s.active, b) == Some(c) ==> a == b)
  {
    var s := Exec(t, Load(t, records, now), events);
    assert Core(t, s) by {
      hide Core;
      LoadSatisfiesCore(t, records, now);
      RunKeepsCore(t, Load(t, records, now), events);
    }
    OccupiesOnce(t, s, ip, c, d);
  }

  lemma OccupiesOnce(t: Topology, s: State, ip: Ip, c: DeviceId, d: DeviceId)
    requires Addresses(t, s)
    ensures Occupies(s, c, ip) && Occupies(s, d, ip) ==> c == d
    ensures Occupies(s, c, ip) ==> t.Usable(ip)
    ensures Get(s.configured, ip) == Some(c) <==> c in s.devices && s.devices[c].ip == Some(ip)
    ensures forall a, b :: Get(s.active, a) == Some(c) && Get(s.active, b) == Some(c) ==> a == b
  {
  }

  /**
   If moreover every release met its guard, a device is connected exactly while
   it is live somewhere, and each live address has a pool of that device and the
   device's own byte counters.
   */
  lemma ConnectedMeansLive(t: Topology, records: seq<Record>, now: nat, events: seq<Event>, d: DeviceId)
    requires SoundRecords(t, records) && Guarded(t, Load(t, records, now), events)
    ensures var s := Exec(t, Load(t, records, now), events);
            && (d in s.devices && s.devices[d].connected <==> exists a :: Get(s.active, a) == Some(d))
            && (forall a :: Get(s.active, a) == Some(d) ==>
                  && PoolAt(s, a).Some? && PoolAt(s, a).value.owner == d
                  && Get(s.traffic, a) == Some(s.devices[d].stats))
            && s.senders.Keys == s.active.Keys == s.traffic.Keys
  {
    hide Inv;
    LoadIsLinked(t, records, now);
    RunKeepsInv(t, Load(t, records, now), events);
    LiveSession(t, Exec(t, Load(t, records, now), events), d);
  }

  lemma LiveSession(t: Topology, s: State, d: DeviceId)
    requires Inv(t, s)
    ensures d in s.devices && s.devices[d].connected <==> exists a :: Get(s.active, a) == Some(d)
    ensures forall a :: Get(s.active, a) == Some(d) ==>
              && PoolAt(s, a).Some? && PoolAt(s, a).value.owner == d
              && Get(s.traffic, a) == Some(s.devices[d].stats)
    ensures s.senders.Keys == s.active.Keys == s.traffic.Keys
  {
    hide Addresses, OwnCounters, LinksIssued, PoolsBelow, DrainsOwned, Stamped;
    if d in s.devices && s.devices[d].connected {
      assert HoldsAddress(s.active, d);
      var a :| a in s.active && s.active[a] == d;
      assert Get(s.active, a) == Some(d);
    }
  }
}
