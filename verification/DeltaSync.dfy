/** Incremental device lists against full ones. */
module DeltaSync {
  import opened Wrappers
  import opened Ipv4
  import opened LeaseModel
  import opened LeaseInvariant
  import opened LeaseRuns
  import opened LeaseEffects

  datatype ClientInfo = ClientInfo(ip: Ip, online: bool, clientType: ClientType)

  /** Who asks: its own address is left out, and foreign client types are shown on request. */
  datatype Viewer = Viewer(ip: Ip, ikev2: bool, wireguard: bool) {
    predicate Shows(ct: ClientType) {
      (ikev2 || !ct.Ikev2?) && (wireguard || !ct.Wireguard?)
    }

    predicate Lists(e: Entry) {
      e.ip.Some? && e.ip.value != ip && Shows(e.clientType)
    }
  }

  datatype Reply = Reply(version: nat, list: set<ClientInfo>, isAll: bool)

  function Describe(e: Entry): ClientInfo
    requires e.ip.Some?
  {
    ClientInfo(e.ip.value, e.connected, e.clientType)
  }

  function Everyone(s: State, v: Viewer): set<ClientInfo> {
    set d | d in s.devices && v.Lists(s.devices[d]) :: Describe(s.devices[d])
  }

  function ChangedSince(s: State, v: Viewer, version: nat): set<ClientInfo> {
    set d | d in s.devices && s.devices[d].stamp > version && v.Lists(s.devices[d]) :: Describe(s.devices[d])
  }

  function FullClientList(s: State, v: Viewer): Reply {
    Reply(s.dataVersion, Everyone(s, v), true)
  }

  function ChangedClientList(s: State, v: Viewer, version: nat): Option<Reply> {
    if version == s.dataVersion then None
    else if version > s.dataVersion || version < s.fullSyncVersion then Some(FullClientList(s, v))
    else Some(Reply(s.dataVersion, ChangedSince(s, v, version), false))
  }

  /** What a client holds. A full reply replaces it; an incremental one overwrites address by address. */
  datatype Replica = Replica(version: nat, clients: set<ClientInfo>) {
    function Receive(reply: Option<Reply>): Replica {
      if reply.None? then this
      else if reply.value.isAll then Replica(reply.value.version, reply.value.list)
      else Replica(reply.value.version, Merge(clients, reply.value.list))
    }
  }

  function Merge(clients: set<ClientInfo>, changes: set<ClientInfo>): set<ClientInfo> {
    (set c | c in clients && forall x :: x in changes ==> x.ip != c.ip) + changes
  }

  function Current(s: State, v: Viewer): Replica {
    Replica(s.dataVersion, Everyone(s, v))
  }

  /** The replica is one poll away from the current full list. */
  ghost predicate Tracks(s: State, v: Viewer, c: Replica) {
    && c.version <= s.dataVersion
    && (c.version < s.fullSyncVersion || Merge(c.clients, ChangedSince(s, v, c.version)) == Everyone(s, v))
  }

  lemma PollCatchesUp(s: State, v: Viewer, c: Replica)
    requires Stamped(s.devices, s.dataVersion, s.fullSyncVersion) && Tracks(s, v, c)
    ensures c.Receive(ChangedClientList(s, v, c.version)) == Current(s, v)
  {
    if c.version == s.dataVersion {
      assert ChangedSince(s, v, c.version) == {};
      assert Merge(c.clients, {}) == c.clients;
    }
  }

  lemma CurrentTracks(s: State, v: Viewer)
    requires Stamped(s.devices, s.dataVersion, s.fullSyncVersion)
    ensures Tracks(s, v, Current(s, v))
  {
    assert ChangedSince(s, v, s.dataVersion) == {};
    assert Merge(Everyone(s, v), {}) == Everyone(s, v);
  }

  // ---------- what the lists hold ----------

  /** A device that the viewer is to see: not itself, and of a type it asked for. */
  ghost predicate Visible(s: State, v: Viewer, d: DeviceId, x: ClientInfo) {
    && d in s.devices && s.devices[d].ip == Some(x.ip) && x.ip != v.ip
    && s.devices[d].connected == x.online && s.devices[d].clientType == x.clientType
    && match x.clientType
       case Vnt => true
       case Ikev2 => v.ikev2
       case Wireguard => v.wireguard
  }

  /** The full list holds exactly the visible devices, at their address, type and connection state. */
  lemma FullListIsExact(s: State, v: Viewer, x: ClientInfo)
    ensures var reply := FullClientList(s, v);
            && reply.isAll && reply.version == s.dataVersion
            && (x in reply.list <==> exists d :: Visible(s, v, d, x))
  {
    if x in Everyone(s, v) {
      var d :| d in s.devices && v.Lists(s.devices[d]) && Describe(s.devices[d]) == x;
      assert Visible(s, v, d, x);
    }
    if d :| Visible(s, v, d, x) {
      assert v.Lists(s.devices[d]) && Describe(s.devices[d]) == x;
    }
  }

  /**
   A client at the current version gets nothing. One that is ahead, or behind the
   last full synchronisation, gets the full list; any other gets exactly the
   visible devices stamped since its version.
   */
  lemma ReplyIsExact(s: State, v: Viewer, version: nat, x: ClientInfo)
    ensures var reply := ChangedClientList(s, v, version);
            if version == s.dataVersion then reply.None?
            else if version > s.dataVersion || version < s.fullSyncVersion then reply == Some(FullClientList(s, v))
            else
              && reply.Some? && !reply.value.isAll && reply.value.version == s.dataVersion
              && (x in reply.value.list <==> exists d :: Visible(s, v, d, x) && s.devices[d].stamp > version)
  {
    if x in ChangedSince(s, v, version) {
      var d :| d in s.devices && s.devices[d].stamp > version && v.Lists(s.devices[d]) && Describe(s.devices[d]) == x;
      assert Visible(s, v, d, x);
    }
    if d :| Visible(s, v, d, x) && s.devices[d].stamp > version {
      assert v.Lists(s.devices[d]) && Describe(s.devices[d]) == x;
    }
  }

  /** A client with a version from another server lifetime, ahead of this one, is reset. */
  lemma ClientAheadIsReset(s: State, v: Viewer, c: Replica)
    requires c.version > s.dataVersion
    ensures c.Receive(ChangedClientList(s, v, c.version)) == Current(s, v)
  {
  }

  // ---------- steps that need no full list ----------

  /** Entry `e` becomes `e'` by a change that an incremental reply conveys to the viewer. */
  ghost predicate QuietChange(v: Viewer, version: nat, e: Entry, e': Entry) {
    && (v.Lists(e) ==> v.Lists(e') && e'.ip == e.ip)
    && (v.Lists(e') ==> e'.stamp > version || (v.Lists(e) && Describe(e') == Describe(e) && e'.stamp == e.stamp))
  }

  ghost predicate Quiet(s: State, s': State, v: Viewer) {
    && (forall d <- s.devices :: d in s'.devices && QuietChange(v, s.dataVersion, s.devices[d], s'.devices[d]))
    && (forall d <- s'.devices :: d !in s.devices && v.Lists(s'.devices[d]) ==> s'.devices[d].stamp > s.dataVersion)
  }

  /** No two entries have one address. */
  ghost predicate DistinctAddresses(devices: map<DeviceId, Entry>) {
    forall c, d :: c in devices && d in devices && devices[c].ip.Some? && devices[c].ip == devices[d].ip ==> c == d
  }

  lemma InverseIsDistinct(devices: map<DeviceId, Entry>, configured: map<Ip, DeviceId>)
    requires ConfiguredInverse(devices, configured)
    ensures DistinctAddresses(devices)
  {
  }

  lemma SameAddressSameDevice(devices: map<DeviceId, Entry>, c: DeviceId, d: DeviceId)
    requires DistinctAddresses(devices)
    requires c in devices && d in devices && devices[c].ip.Some? && devices[c].ip == devices[d].ip
    ensures c == d
  {
  }

  lemma QuietKeepsListed(s: State, s': State, v: Viewer, clients: set<ClientInfo>, version: nat, x: ClientInfo)
    requires DistinctAddresses(s.devices) && DistinctAddresses(s'.devices)
    requires Quiet(s, s', v) && version <= s.dataVersion
    requires Merge(clients, ChangedSince(s, v, version)) == Everyone(s, v)
    requires x in Everyone(s', v)
    ensures x in Merge(clients, ChangedSince(s', v, version))
  {
    hide DistinctAddresses;
    var d :| d in s'.devices && v.Lists(s'.devices[d]) && Describe(s'.devices[d]) == x;
    var e' := s'.devices[d];
    if e'.stamp <= version {
      assert d in s.devices && Describe(s.devices[d]) == x;
      assert x in Everyone(s, v);
      if x in ChangedSince(s, v, version) {
        var c :| c in s.devices && s.devices[c].stamp > version && v.Lists(s.devices[c]) && Describe(s.devices[c]) == x;
        SameAddressSameDevice(s.devices, c, d);
      }
      forall y | y in ChangedSince(s', v, version)
        ensures y.ip != x.ip
      {
        var c :|
          c in s'.devices && s'.devices[c].stamp > version && v.Lists(s'.devices[c]) && Describe(s'.devices[c]) == y;
        if y.ip == x.ip {
          SameAddressSameDevice(s'.devices, c, d);
        }
      }
    }
  }

  lemma QuietKeepsUnlisted(s: State, s': State, v: Viewer, clients: set<ClientInfo>, version: nat, x: ClientInfo)
    requires Quiet(s, s', v) && version <= s.dataVersion
    requires Merge(clients, ChangedSince(s, v, version)) == Everyone(s, v)
    requires x in Merge(clients, ChangedSince(s', v, version))
    ensures x in Everyone(s', v)
  {
    if x !in ChangedSince(s', v, version) {
      forall y | y in ChangedSince(s, v, version)
        ensures y.ip != x.ip
      {
        var c :| c in s.devices && s.devices[c].stamp > version && v.Lists(s.devices[c]) && Describe(s.devices[c]) == y;
        assert Describe(s'.devices[c]) in ChangedSince(s', v, version);
      }
      assert x in Everyone(s, v);
      var d :| d in s.devices && v.Lists(s.devices[d]) && Describe(s.devices[d]) == x;
      var x' := Describe(s'.devices[d]);
      assert s'.devices[d].stamp > version ==> x' in ChangedSince(s', v, version);
      assert x' == x;
    }
  }

  lemma QuietKeepsTracks(s: State, s': State, v: Viewer, c: Replica)
    requires DistinctAddresses(s.devices) && DistinctAddresses(s'.devices)
    requires Quiet(s, s', v) && s.dataVersion <= s'.dataVersion && s'.fullSyncVersion == s.fullSyncVersion
    requires Tracks(s, v, c)
    ensures Tracks(s', v, c)
  {
    if c.version >= s.fullSyncVersion {
      forall x | x in Everyone(s', v)
        ensures x in Merge(c.clients, ChangedSince(s', v, c.version))
      {
        QuietKeepsListed(s, s', v, c.clients, c.version, x);
      }
      forall x | x in Merge(c.clients, ChangedSince(s', v, c.version))
        ensures x in Everyone(s', v)
      {
        QuietKeepsUnlisted(s, s', v, c.clients, c.version, x);
      }
    }
  }

  // ---------- every step ----------

  /** The management edit moves a connected device to an address it can have, with no route change to publish. */
  ghost predicate SilentEdit(t: Topology, s: State, e: Event) {
    && e.Edited? && e.mutation.Update?
    && e.edit.device in s.devices
    && Obtainable(t, s, e.edit.device, e.edit.ip)
    && var entry := s.devices[e.edit.device];
       entry.connected && entry.ip != Some(e.edit.ip) && !LiveRouteChange(entry, e.edit)
  }

  /** ... and the viewer is shown devices of that type. */
  ghost predicate MissedEdit(t: Topology, s: State, e: Event, v: Viewer) {
    SilentEdit(t, s, e) && v.Shows(s.devices[e.edit.device].clientType)
  }

  ghost predicate Conveyed(s: State, s': State, v: Viewer) {
    && s.dataVersion <= s'.dataVersion
    && (s'.fullSyncVersion > s.dataVersion || (s'.fullSyncVersion == s.fullSyncVersion && Quiet(s, s', v)))
  }

  lemma OneEntryConveyed(s: State, s': State, v: Viewer, d: DeviceId)
    requires s.dataVersion <= s'.dataVersion && s'.fullSyncVersion == s.fullSyncVersion
    requires d in s'.devices && s'.devices == s.devices[d := s'.devices[d]]
    requires if d in s.devices then QuietChange(v, s.dataVersion, s.devices[d], s'.devices[d])
             else s'.devices[d].stamp > s.dataVersion
    ensures Conveyed(s, s', v)
  {
  }

  lemma SameEntriesConveyed(s: State, s': State, v: Viewer)
    requires s.dataVersion <= s'.dataVersion && s'.fullSyncVersion == s.fullSyncVersion
    requires s'.devices == s.devices
    ensures Conveyed(s, s', v)
  {
  }

  lemma AttachConveyed(t: Topology, s: State, s1: State, device: DeviceId, grant: Grant, link: LinkId,
                       instance: InstanceId, ct: ClientType, v: Viewer)
    requires Granted(t, s, s1, device, grant, ct)
    requires device in s.devices ==> s.devices[device].clientType == ct
    ensures device in s1.devices && Conveyed(s, Attach(s1, device, grant, link, instance), v)
  {
    var s' := Attach(s1, device, grant, link, instance);
    if s'.fullSyncVersion <= s.dataVersion {
      hide Quiet;
      OneEntryConveyed(s, s', v, device);
    }
  }

  lemma RegisterConveyed(t: Topology, s: State, req: Request, link: LinkId, ct: ClientType, instance: InstanceId,
                         v: Viewer)
    requires Core(t, s)
    ensures Conveyed(s, Register(t, s, req, link, ct, instance).0, v)
  {
    hide Conveyed, Attachments, Addresses, AllocateIp, Attach, Granted;
    AllocateIpGrants(t, s, req, link, ct);
    var (s1, r) := AllocateIp(t, s, req, link, ct);
    if r.Ok? && (req.device in s.devices ==> s.devices[req.device].clientType == ct) {
      AttachConveyed(t, s, s1, req.device, r.value, link, instance, ct, v);
    }
    SameEntriesConveyed(s, s, v);
    if JoinsPool(s, req, instance) {
      SameEntriesConveyed(s, AddLink(s, req.device, req.ip.value, link, instance), v);
    }
  }

  lemma {:induction false} ExpireAllConveyed(s: State, devices: seq<DeviceId>, d: DeviceId)
    ensures var (s', released) := ExpireAll(s, devices);
            && s'.dataVersion == s.dataVersion && s'.fullSyncVersion == s.fullSyncVersion
            && s'.devices.Keys == s.devices.Keys
            && (released == [] && d in s.devices && (s.devices[d].ip.Some? || s'.devices[d].ip.Some?) ==>
                  s'.devices[d] == s.devices[d])
    decreases |devices|
  {
    if devices != [] {
      ExpireAllConveyed(s, devices[..|devices| - 1], d);
    }
  }

  lemma ExpireConveyed(s: State, devices: seq<DeviceId>, v: Viewer)
    ensures Conveyed(s, Expire(s, devices).0, v)
  {
    hide ExpireAll;
    SameEntriesConveyed(s, s, v);
    var s0 := s.(dataVersion := s.dataVersion + 1);
    var (s1, released) := ExpireAll(s0, devices);
    ExpireAllConveyed(s0, devices, "");
    if released == [] {
      forall d | d in s.devices
        ensures d in s1.devices && QuietChange(v, s.dataVersion, s.devices[d], s1.devices[d])
      {
        ExpireAllConveyed(s0, devices, d);
      }
    }
  }

  lemma UpsertConveyed(s: State, edit: Edit, ct: ClientType, now: nat, v: Viewer)
    requires edit.device in s.devices ==> s.devices[edit.device].clientType == ct
    requires edit.device in s.devices && s.devices[edit.device].connected && v.Shows(ct) ==>
               s.devices[edit.device].ip == Some(edit.ip) || LiveRouteChange(s.devices[edit.device], edit)
    ensures Conveyed(s, Upsert(s, edit, ct, now).0, v)
  {
    var (s', r) := Upsert(s, edit, ct, now);
    if r.Err? {
      SameEntriesConveyed(s, s, v);
    } else if s'.fullSyncVersion <= s.dataVersion {
      hide Quiet;
      OneEntryConveyed(s, s', v, edit.device);
    }
  }

  /** Every step but a missed edit is conveyed to the viewer. */
  lemma StepConveyed(t: Topology, s: State, e: Event, v: Viewer)
    requires Core(t, s) && Possible(s, e) && !MissedEdit(t, s, e, v)
    ensures Conveyed(s, Step(t, s, e), v)
  {
    hide Conveyed, Core, Register, FastRegister, RemoveLink, FinalizeOffline, UpsertDevice, Expire, RemoveDevice,
      Release, Confirm, UpdateRuntime, MissedEdit;
    match e
    case Registered(req, link, ct, instance) => RegisterConveyed(t, s, req, link, ct, instance, v);
    case FastRegistered(device, oldIp, newIp, link, instance) =>
      FastRegisterConveyed(t, s, device, oldIp, newIp, link, instance, v);
    case LinkDropped(device, ip, h, link, instance) => DropConveyed(s, device, ip, h, link, instance, v);
    case OfflineFinalized(device, ip, pool, now) => FinalizeConveyed(s, device, ip, pool, now, v);
    case Edited(mutation, edit, now) => EditConveyed(t, s, e, v);
    case LeasesExpired(devices) => ExpireConveyed(s, devices, v);
    case DeviceRemoved(device) => RemoveConveyed(s, device, v);
    case PreRegistrationReleased(device, ip, link, instance) => ReleaseConveyed(s, device, ip, link, instance, v);
    case RegistrationConfirmed(device) => ReportConveyed(s, device, [], v);
    case RuntimeReported(device, subnets) => ReportConveyed(s, device, subnets, v);
  }

  lemma DropConveyed(s: State, device: DeviceId, ip: Ip, h: PoolId, link: LinkId, instance: InstanceId, v: Viewer)
    ensures Conveyed(s, RemoveLink(s, device, ip, h, link, instance).0, v)
  {
    hide Conveyed;
    SameEntriesConveyed(s, RemoveLink(s, device, ip, h, link, instance).0, v);
  }

  lemma RemoveConveyed(s: State, device: DeviceId, v: Viewer)
    ensures Conveyed(s, RemoveDevice(s, device), v)
  {
    hide Conveyed, Without;
    RemovalConveyed(s, RemoveDevice(s, device), v);
  }

  lemma ReleaseConveyed(s: State, device: DeviceId, ip: Ip, link: LinkId, instance: InstanceId, v: Viewer)
    ensures Conveyed(s, Release(s, device, ip, link, instance), v)
  {
    hide Conveyed;
    RemovalConveyed(s, Release(s, device, ip, link, instance), v);
  }

  lemma ReportConveyed(s: State, device: DeviceId, subnets: seq<Net>, v: Viewer)
    ensures Conveyed(s, Confirm(s, device), v) && Conveyed(s, UpdateRuntime(s, device, subnets), v)
  {
    hide Conveyed;
    TouchConveyed(s, Confirm(s, device), v, device);
    TouchConveyed(s, UpdateRuntime(s, device, subnets), v, device);
  }

  lemma EditConveyed(t: Topology, s: State, e: Event, v: Viewer)
    requires Core(t, s) && e.Edited? && !MissedEdit(t, s, e, v)
    ensures Conveyed(s, Step(t, s, e), v)
  {
    hide Core, Conveyed, Obtainable, Upsert;
    EditSucceedsIff(t, s, e.mutation, e.edit, e.now);
    SameEntriesConveyed(s, s, v);
    if UpsertDevice(t, s, e.mutation, e.edit, e.now).1.Ok? {
      var ct := if e.mutation.Create? then e.mutation.clientType else s.devices[e.edit.device].clientType;
      UpsertConveyed(s, if ct.Wireguard? then e.edit.(ipType := Static) else e.edit, ct, e.now, v);
    }
  }

  lemma FastRegisterConveyed(t: Topology, s: State, device: DeviceId, oldIp: Ip, newIp: Ip, link: LinkId,
                             instance: InstanceId, v: Viewer)
    ensures Conveyed(s, FastRegister(t, s, device, oldIp, newIp, link, instance).0, v)
  {
    hide Quiet;
    SameEntriesConveyed(s, s, v);
  }

  lemma FinalizeConveyed(s: State, device: DeviceId, ip: Ip, pool: PoolId, now: nat, v: Viewer)
    ensures Conveyed(s, FinalizeOffline(s, device, ip, pool, now).0, v)
  {
    hide Quiet;
    var (s', done) := FinalizeOffline(s, device, ip, pool, now);
    if !done {
      SameEntriesConveyed(s, s', v);
    } else if s'.fullSyncVersion <= s.dataVersion {
      OneEntryConveyed(s, s', v, device);
    }
  }

  lemma RemovalConveyed(s: State, s': State, v: Viewer)
    requires || s'.dataVersion == s'.fullSyncVersion == s.dataVersion + 1
             || (s'.dataVersion == s.dataVersion && s'.fullSyncVersion == s.fullSyncVersion && s'.devices == s.devices)
    ensures Conveyed(s, s', v)
  {
    if s'.devices == s.devices && s'.dataVersion == s.dataVersion {
      SameEntriesConveyed(s, s', v);
    }
  }

  lemma TouchConveyed(s: State, s': State, v: Viewer, device: DeviceId)
    requires || s' == s
             || (&& device in s.devices && device in s'.devices
                 && s'.devices == s.devices[device := s'.devices[device]]
                 && s'.devices[device].ip == s.devices[device].ip
                 && s'.devices[device].clientType == s.devices[device].clientType
                 && s'.dataVersion == s.dataVersion + 1 == s'.devices[device].stamp
                 && s'.fullSyncVersion == s.fullSyncVersion)
    ensures Conveyed(s, s', v)
  {
    hide Quiet;
    if s' == s {
      SameEntriesConveyed(s, s, v);
    } else {
      OneEntryConveyed(s, s', v, device);
    }
  }

  // ---------- whole runs ----------

  /** Some step of the run is an edit that the viewer misses. */
  ghost predicate MissesEdit(t: Topology, s: State, events: seq<Event>, v: Viewer)
    decreases |events|
  {
    events != [] && (MissedEdit(t, s, events[0], v) || MissesEdit(t, Step(t, s, events[0]), events[1..], v))
  }

  lemma StepKeepsTracks(t: Topology, s: State, e: Event, v: Viewer, c: Replica)
    requires Core(t, s) && Possible(s, e) && !MissedEdit(t, s, e, v)
    requires Tracks(s, v, c)
    ensures Tracks(Step(t, s, e), v, c)
  {
    hide Step, MissedEdit, Attachments, ConnectedConfigured, OneActive, Exclusive, AllUsable, ConfiguredInverse,
      Stamped;
    StepKeepsCore(t, s, e);
    StepConveyed(t, s, e, v);
    var s' := Step(t, s, e);
    if s'.fullSyncVersion <= s.dataVersion {
      InverseIsDistinct(s.devices, s.configured);
      InverseIsDistinct(s'.devices, s'.configured);
      hide DistinctAddresses;
      QuietKeepsTracks(s, s', v, c);
    }
  }

  lemma {:induction false} RunKeepsTracks(t: Topology, s: State, events: seq<Event>, v: Viewer, c: Replica)
    requires Core(t, s) && PossibleRun(t, s, events) && !MissesEdit(t, s, events, v)
    requires Tracks(s, v, c)
    ensures Core(t, Exec(t, s, events)) && Tracks(Exec(t, s, events), v, c)
    decreases |events|
  {
    hide Core, Step, Tracks, MissedEdit;
    if events != [] {
      StepKeepsCore(t, s, events[0]);
      StepKeepsTracks(t, s, events[0], v, c);
      RunKeepsTracks(t, Step(t, s, events[0]), events[1..], v, c);
    }
  }

  /**
   Incremental synchronisation refines the full list: after any run in which the
   viewer misses no edit, or that ends beyond a full synchronisation, a client
   that held the full list and applies one reply to its old version holds
   exactly the current full list.
   */
  lemma DeltaRefinesFull(t: Topology, s: State, events: seq<Event>, v: Viewer)
    requires Core(t, s) && PossibleRun(t, s, events)
    requires !MissesEdit(t, s, events, v) || s.dataVersion < Exec(t, s, events).fullSyncVersion
    ensures var s' := Exec(t, s, events);
            Current(s, v).Receive(ChangedClientList(s', v, s.dataVersion)) == Current(s', v)
  {
    hide Exec, PossibleRun, MissesEdit, Addresses, Attachments;
    CurrentTracks(s, v);
    RunKeepsCore(t, s, events);
    if !MissesEdit(t, s, events, v) {
      RunKeepsTracks(t, s, events, v, Current(s, v));
      PollCatchesUp(Exec(t, s, events), v, Current(s, v));
    }
  }

  /** A client that polls after each of several runs. */
  function PollAfterEach(t: Topology, s: State, runs: seq<seq<Event>>, v: Viewer, c: Replica): (State, Replica)
    decreases |runs|
  {
    if runs == [] then (s, c)
    else
      var s' := Exec(t, s, runs[0]);
      PollAfterEach(t, s', runs[1..], v, c.Receive(ChangedClientList(s', v, c.version)))
  }

  ghost predicate PossibleRuns(t: Topology, s: State, runs: seq<seq<Event>>, v: Viewer)
    decreases |runs|
  {
    runs != [] ==>
      && PossibleRun(t, s, runs[0])
      && !MissesEdit(t, s, runs[0], v)
      && PossibleRuns(t, Exec(t, s, runs[0]), runs[1..], v)
  }

  lemma {:induction false} PollingStaysCurrent(t: Topology, s: State, runs: seq<seq<Event>>, v: Viewer)
    requires Core(t, s) && PossibleRuns(t, s, runs, v)
    ensures var (s', c') := PollAfterEach(t, s, runs, v, Current(s, v));
            c' == Current(s', v)
    decreases |runs|
  {
    hide Core, Exec, PossibleRun, MissesEdit, ChangedClientList, Everyone;
    if runs != [] {
      DeltaRefinesFull(t, s, runs[0], v);
      RunKeepsCore(t, s, runs[0]);
      PollingStaysCurrent(t, Exec(t, s, runs[0]), runs[1..], v);
    }
  }

  // ---------- exactly which steps are missed ----------

  lemma MissedEditChangesList(t: Topology, s: State, e: Event, v: Viewer)
    requires Core(t, s) && MissedEdit(t, s, e, v)
    ensures Step(t, s, e).dataVersion == s.dataVersion
    ensures Everyone(Step(t, s, e), v) != Everyone(s, v)
  {
    EditSucceedsIff(t, s, e.mutation, e.edit, e.now);
    hide ConnectedConfigured, OneActive, AllUsable, Attachments, Stamped, Obtainable;
    var s' := Step(t, s, e);
    var d := e.edit.device;
    var x, x' := Describe(s.devices[d]), Describe(s'.devices[d]);
    if e.edit.ip != v.ip {
      assert x' in Everyone(s', v);
    } else {
      assert x in Everyone(s, v);
    }
  }

  /** A step keeps an up-to-date client up to date exactly when it is not an edit that the client misses. */
  lemma StepIsConveyedIff(t: Topology, s: State, e: Event, v: Viewer)
    requires Core(t, s) && Possible(s, e)
    ensures var s' := Step(t, s, e);
            Current(s, v).Receive(ChangedClientList(s', v, s.dataVersion)) == Current(s', v) <==>
              !MissedEdit(t, s, e, v)
  {
    hide Step, MissedEdit, Everyone;
    if MissedEdit(t, s, e, v) {
      hide Core;
      MissedEditChangesList(t, s, e, v);
    } else {
      assert Stamped(s.devices, s.dataVersion, s.fullSyncVersion) && Stamped(Step(t, s, e).devices,
        Step(t, s, e).dataVersion, Step(t, s, e).fullSyncVersion) by {
        hide Addresses, Attachments;
        StepKeepsCore(t, s, e);
      }
      hide Core, ChangedClientList;
      CurrentTracks(s, v);
      StepKeepsTracks(t, s, e, v, Current(s, v));
      PollCatchesUp(Step(t, s, e), v, Current(s, v));
    }
  }
}
