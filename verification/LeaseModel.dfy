/**
 The lease table of one virtual network and the steps that change it.

 A `State` holds what is guarded by the lease lock together with the sender and
 traffic maps. Link pools live in a store and are named by handles, so that two
 holders of one handle share one pool. Each step is one lock region.
 */
module LeaseModel {
  import opened Wrappers
  import opened Ipv4

  type DeviceId = string
  type PoolId = nat
  type StatsId = nat

  datatype IpType = Dynamic | Static | Fixed
  datatype ClientType = Vnt | Ikev2 | Wireguard
  datatype RegistrationMode = Normal | PreRegister

  datatype InputRoute = InputRoute(subnet: Net, target: Ip)

  datatype Entry = Entry(
    ip: Option<Ip>,
    ipType: IpType,
    clientType: ClientType,
    randomId: LinkId,
    connected: bool,
    advertising: bool,
    disconnectedAt: Option<nat>,
    stamp: nat,
    stats: StatsId,
    subnets: seq<Net>,
    wgRoutes: seq<InputRoute>)

  /** `owner` records for whom a pool was created; no step reads it. */
  datatype Pool = Pool(owner: DeviceId, instance: InstanceId, links: map<LinkId, Option<nat>>) {
    predicate SameInstance(other: InstanceId) {
      other != [] && instance == other
    }

    predicate IsEmpty() {
      links == map[]
    }

    predicate OwnsLink(other: InstanceId, link: LinkId) {
      instance == other && link in links
    }

    function WithLink(link: LinkId): Pool {
      this.(links := links[link := None])
    }

    function WithoutLink(link: LinkId): Pool {
      this.(links := links - {link})
    }
  }

  /** To whom the random id of a session was handed out. */
  datatype Ticket = Ticket(device: DeviceId, instance: InstanceId)

  /** A disconnect that emptied a pool and still has to be finalised. */
  datatype Drain = Drain(device: DeviceId, ip: Ip, pool: PoolId)

  datatype Topology = Topology(net: Net, gateway: Ip, isPrivate: bool) {
    predicate Usable(ip: Ip) {
      UsableHost(net, gateway, ip)
    }
  }

  /** `issued` and `draining` are history: which sessions exist and which disconnects are in flight. */
  datatype State = State(
    dataVersion: nat,
    fullSyncVersion: nat,
    devices: map<DeviceId, Entry>,
    configured: map<Ip, DeviceId>,
    active: map<Ip, DeviceId>,
    senders: map<Ip, PoolId>,
    traffic: map<Ip, StatsId>,
    pools: map<PoolId, Pool>,
    nextPool: PoolId,
    nextStats: StatsId,
    issued: map<LinkId, Ticket>,
    draining: set<Drain>)

  datatype Refusal =
    | FixedWithoutAddress
    | GatewayAddress
    | OutsideNet
    | NetworkOrBroadcast
    | AddressTaken(owner: DeviceId)
    | Exhausted
    | InvalidNetwork
    | OtherClientType
    | NotProvisioned
    | UnknownDevice
    | DeviceExists
    | SessionEnded
    | FixedMismatch
    | SessionMismatch
    | NoSender

  datatype Request = Request(
    device: DeviceId,
    ip: Option<Ip>,
    ipVariable: bool,
    mode: RegistrationMode,
    subnets: seq<Net>)

  /** A granted address and the configured address it replaces. */
  datatype Grant = Grant(ip: Ip, prior: Option<Ip>)

  // ---------- reads ----------

  function PoolAt(s: State, ip: Ip): Option<Pool> {
    if ip in s.senders && s.senders[ip] in s.pools then Some(s.pools[s.senders[ip]]) else None
  }

  /** The other device, if any, that has `ip` configured or active. */
  function ConflictingOwner(configured: map<Ip, DeviceId>, active: map<Ip, DeviceId>, ip: Ip, device: DeviceId)
    : Option<DeviceId>
  {
    if ip in configured && configured[ip] != device then Some(configured[ip])
    else if ip in active && active[ip] != device then Some(active[ip])
    else None
  }

  /** The lowest address in `[from, to)` that is neither the gateway nor taken. */
  function FirstFree(taken: set<Ip>, gateway: Ip, from: Ip, to: Ip): Option<Ip>
    decreases if from < to then to - from else 0
  {
    if from >= to then None
    else if from != gateway && from !in taken then Some(from)
    else FirstFree(taken, gateway, from + 1, to)
  }

  function FindAvailable(t: Topology, taken: set<Ip>): Result<Ip, Refusal> {
    if t.net.network + 1 >= ADDRESS_COUNT then Err(InvalidNetwork)
    else
      match FirstFree(taken, t.gateway, t.net.network + 1, t.net.Broadcast())
      case Some(ip) => Ok(ip)
      case None => Err(Exhausted)
  }

  function Taken(s: State): set<Ip> {
    s.configured.Keys + s.active.Keys
  }

  function Without(configured: map<Ip, DeviceId>, ip: Option<Ip>): map<Ip, DeviceId> {
    if ip.Some? then configured - {ip.value} else configured
  }

  function AddressSet(ip: Option<Ip>): set<Ip> {
    if ip.Some? then {ip.value} else {}
  }

  // ---------- registration ----------

  /** A Fixed address is imposed by the server; otherwise the request comes first. */
  function Expected(s: State, req: Request): Result<Option<Ip>, Refusal> {
    if req.device !in s.devices then Ok(req.ip)
    else
      var e := s.devices[req.device];
      if e.ipType.Fixed? then (if e.ip.None? then Err(FixedWithoutAddress) else Ok(e.ip))
      else Ok(if req.ip.Some? then req.ip else e.ip)
  }

  function Reconnected(e: Entry, req: Request, link: LinkId, ct: ClientType, ip: Ip, version: nat): Entry {
    e.(ip := Some(ip), connected := true, disconnectedAt := None, randomId := link, stamp := version,
       clientType := ct, subnets := req.subnets, advertising := req.mode.Normal?)
  }

  function NewEntry(req: Request, link: LinkId, ct: ClientType, ip: Ip, version: nat, stats: StatsId): Entry {
    Entry(Some(ip), Dynamic, ct, link, true, req.mode.Normal?, None, version, stats, req.subnets, [])
  }

  /** Moves the device to `ip`, creating it if needed, and publishes the change. */
  function Adopt(s: State, req: Request, link: LinkId, ct: ClientType, ip: Ip, prior: Option<Ip>): State {
    var version := s.dataVersion + 1;
    s.(dataVersion := version,
       fullSyncVersion := if prior.Some? && prior.value != ip then version else s.fullSyncVersion,
       configured := Without(s.configured, prior)[ip := req.device],
       devices := s.devices[req.device := AdoptedEntry(s.devices, req, link, ct, ip, version, s.nextStats)],
       nextStats := if req.device in s.devices then s.nextStats else s.nextStats + 1)
  }

  function AdoptedEntry(devices: map<DeviceId, Entry>, req: Request, link: LinkId, ct: ClientType, ip: Ip, version: nat,
                        stats: StatsId): Entry
  {
    if req.device in devices then Reconnected(devices[req.device], req, link, ct, ip, version)
    else NewEntry(req, link, ct, ip, version, stats)
  }

  function AddressRefusal(t: Topology, s: State, ip: Ip, device: DeviceId): Option<Refusal> {
    if ip == t.gateway then Some(GatewayAddress)
    else if !t.net.Contains(ip) then Some(OutsideNet)
    else if ip == t.net.network || ip == t.net.Broadcast() then Some(NetworkOrBroadcast)
    else
      match ConflictingOwner(s.configured, s.active, ip, device)
      case Some(owner) => Some(AddressTaken(owner))
      case None => None
  }

  function AdoptAnyFree(t: Topology, s: State, req: Request, link: LinkId, ct: ClientType, prior: Option<Ip>)
    : (State, Result<Grant, Refusal>)
  {
    match FindAvailable(t, Taken(s))
    case Err(e) => (s, Err(e))
    case Ok(ip) => (Adopt(s, req, link, ct, ip, prior), Ok(Grant(ip, prior)))
  }

  /** The address is unchanged; note that ownership is checked after the entry has been updated. */
  function Keep(t: Topology, s: State, req: Request, link: LinkId, ct: ClientType): (State, Result<Grant, Refusal>)
    requires req.device in s.devices
  {
    var e := s.devices[req.device];
    var version := s.dataVersion + 1;
    if e.ip.None? then
      match FindAvailable(t, Taken(s))
      case Err(err) => (s, Err(err))
      case Ok(ip) =>
        (s.(dataVersion := version,
            devices := s.devices[req.device := Reconnected(e, req, link, ct, ip, version)],
            configured := s.configured[ip := req.device]),
         Ok(Grant(ip, None)))
    else
      var s1 := s.(dataVersion := version,
                   devices := s.devices[req.device := Reconnected(e, req, link, ct, e.ip.value, version)]);
      match ConflictingOwner(s1.configured, s1.active, e.ip.value, req.device)
      case Some(owner) => (s1, Err(AddressTaken(owner)))
      case None => (s1, Ok(Grant(e.ip.value, None)))
  }

  function AllocateIp(t: Topology, s: State, req: Request, link: LinkId, ct: ClientType)
    : (State, Result<Grant, Refusal>)
  {
    match Expected(s, req)
    case Err(e) => (s, Err(e))
    case Ok(wanted) =>
      if req.device in s.devices && (wanted.None? || s.devices[req.device].ip == wanted) then
        Keep(t, s, req, link, ct)
      else
        var prior := if req.device in s.devices then s.devices[req.device].ip else None;
        var isFixed := req.device in s.devices && s.devices[req.device].ipType.Fixed?;
        if wanted.Some? then
          match AddressRefusal(t, s, wanted.value, req.device)
          case None => (Adopt(s, req, link, ct, wanted.value, prior), Ok(Grant(wanted.value, prior)))
          case Some(err) =>
            if isFixed || !req.ipVariable then (s, Err(err)) else AdoptAnyFree(t, s, req, link, ct, prior)
        else AdoptAnyFree(t, s, req, link, ct, prior)
  }

  function StaleAddresses(active: map<Ip, DeviceId>, device: DeviceId, ip: Ip): set<Ip> {
    set a | a in active && active[a] == device && a != ip
  }

  /** Drops the replaced address and the device's live addresses other than the granted one. */
  function Detach(s: State, device: DeviceId, grant: Grant): State {
    var stale := StaleAddresses(s.active, device, grant.ip);
    var gone := stale + AddressSet(grant.prior);
    s.(fullSyncVersion := if stale != {} then s.dataVersion else s.fullSyncVersion,
       active := s.active - stale,
       senders := s.senders - gone,
       traffic := s.traffic - gone)
  }

  /** Installs a new pool with one link at `ip`. */
  function Install(s: State, device: DeviceId, ip: Ip, link: LinkId, instance: InstanceId): State
    requires device in s.devices
  {
    s.(active := s.active[ip := device],
       senders := s.senders[ip := s.nextPool],
       traffic := s.traffic[ip := s.devices[device].stats],
       pools := s.pools[s.nextPool := Pool(device, instance, map[link := None])],
       nextPool := s.nextPool + 1,
       issued := s.issued[link := Ticket(device, instance)])
  }

  function Attach(s: State, device: DeviceId, grant: Grant, link: LinkId, instance: InstanceId): State
    requires device in s.devices
  {
    Install(Detach(s, device, grant), device, grant.ip, link, instance)
  }

  predicate JoinsPool(s: State, req: Request, instance: InstanceId) {
    && req.device in s.devices
    && s.devices[req.device].ip.Some?
    && req.ip == s.devices[req.device].ip
    && var pool := PoolAt(s, req.ip.value);
       pool.Some? && pool.value.SameInstance(instance)
  }

  function AddLink(s: State, device: DeviceId, ip: Ip, link: LinkId, instance: InstanceId): State
    requires PoolAt(s, ip).Some?
  {
    s.(pools := s.pools[s.senders[ip] := PoolAt(s, ip).value.WithLink(link)],
       issued := s.issued[link := Ticket(device, instance)])
  }

  function Allocate(t: Topology, s: State, req: Request, link: LinkId, ct: ClientType, instance: InstanceId)
    : (State, Result<Grant, Refusal>)
  {
    if JoinsPool(s, req, instance) then
      (AddLink(s, req.device, req.ip.value, link, instance), Ok(Grant(req.ip.value, None)))
    else
      var (s1, r) := AllocateIp(t, s, req, link, ct);
      if r.Ok? && req.device in s1.devices then (Attach(s1, req.device, r.value, link, instance), r) else (s1, r)
  }

  /** Registration with the checks the service makes first. */
  function Register(t: Topology, s: State, req: Request, link: LinkId, ct: ClientType, instance: InstanceId)
    : (State, Result<Grant, Refusal>)
  {
    if req.device in s.devices && s.devices[req.device].clientType != ct then (s, Err(OtherClientType))
    else if req.device !in s.devices && (!ct.Vnt? || t.isPrivate) then (s, Err(NotProvisioned))
    else Allocate(t, s, req, link, ct, instance)
  }

  // ---------- fast re-addressing ----------

  function FastRegister(t: Topology, s: State, device: DeviceId, oldIp: Ip, newIp: Ip, link: LinkId,
                        instance: InstanceId)
    : (State, Result<(), Refusal>)
  {
    if device !in s.devices then (s, Err(UnknownDevice))
    else
      var e := s.devices[device];
      var atNew, atOld := PoolAt(s, newIp), PoolAt(s, oldIp);
      if !e.connected then (s, Err(SessionEnded))
      else if atNew.Some? && atNew.value.OwnsLink(instance, link) then (s, Ok(()))
      else if e.ipType.Fixed? && e.ip != Some(newIp) then (s, Err(FixedMismatch))
      else if !t.Usable(newIp) then (s, Err(OutsideNet))
      else
        match ConflictingOwner(s.configured, s.active, newIp, device)
        case Some(owner) => (s, Err(AddressTaken(owner)))
        case None =>
          if Get(s.active, oldIp) != Some(device) then (s, Err(SessionMismatch))
          else if atOld.None? || !atOld.value.OwnsLink(instance, link) then (s, Err(NoSender))
          else (Readdress(s, device, oldIp, newIp), Ok(()))
  }

  function Readdress(s: State, device: DeviceId, oldIp: Ip, newIp: Ip): State
    requires device in s.devices && oldIp in s.senders
  {
    var e := s.devices[device];
    var version := s.dataVersion + 1;
    s.(active := Moved(s.active, oldIp, newIp, device),
       dataVersion := version,
       fullSyncVersion := if oldIp != newIp then version else s.fullSyncVersion,
       configured := Reconfigured(s.configured, e.ip, newIp, device),
       devices := s.devices[device := e.(ip := Some(newIp), stamp := version)],
       senders := Moved(s.senders, oldIp, newIp, s.senders[oldIp]),
       traffic := if oldIp in s.traffic then Moved(s.traffic, oldIp, newIp, s.traffic[oldIp]) else s.traffic)
  }

  function Moved<V>(m: map<Ip, V>, oldIp: Ip, newIp: Ip, v: V): map<Ip, V> {
    (m - {oldIp})[newIp := v]
  }

  function Reconfigured(configured: map<Ip, DeviceId>, prior: Option<Ip>, ip: Ip, device: DeviceId): map<Ip, DeviceId> {
    if prior == Some(ip) then configured else Without(configured, prior)[ip := device]
  }

  // ---------- two-stage disconnect ----------

  /**
   First stage, outside the lease lock: takes the link out of the pool `h` and,
   if that emptied it, starts a drain. The handle was looked up at `ip` earlier,
   and the pool may have moved or been replaced since.
   */
  function RemoveLink(s: State, device: DeviceId, ip: Ip, h: PoolId, link: LinkId, instance: InstanceId)
    : (State, Option<PoolId>)
  {
    if h !in s.pools || !s.pools[h].OwnsLink(instance, link) then (s, None)
    else
      var left := s.pools[h].WithoutLink(link);
      (s.(pools := s.pools[h := left],
          draining := if left.IsEmpty() then s.draining + {Drain(device, ip, h)} else s.draining),
       if left.IsEmpty() then Some(h) else None)
  }

  /** Second stage, under the lock: goes on only if `pool` is still the one at `ip` and still empty. */
  function FinalizeOffline(s: State, device: DeviceId, ip: Ip, pool: PoolId, now: nat): (State, bool) {
    var s0 := s.(draining := s.draining - {Drain(device, ip, pool)});
    var drained := ip in s.senders && s.senders[ip] == pool && pool in s.pools && s.pools[pool].links == map[];
    if !drained || device !in s.devices then (s0, false)
    else
      var e := s.devices[device];
      var version := s.dataVersion + 1;
      (s0.(dataVersion := version,
           fullSyncVersion := if e.ip != Some(ip) then version else s.fullSyncVersion,
           devices := s.devices[device := e.(stamp := version, connected := false, advertising := false,
                                             disconnectedAt := Some(now))],
           active := s.active - {ip},
           senders := s.senders - {ip},
           traffic := s.traffic - {ip}),
       true)
  }

  // ---------- management ----------

  datatype Mutation = Create(clientType: ClientType) | Update

  datatype Edit = Edit(
    device: DeviceId,
    ip: Ip,
    ipType: IpType,
    ikeOutputs: seq<Net>,
    wgOutputs: seq<Net>,
    wgRoutes: seq<InputRoute>)

  function Outputs(edit: Edit, ct: ClientType): seq<Net> {
    match ct
    case Ikev2 => edit.ikeOutputs
    case Wireguard => edit.wgOutputs
    case Vnt => []
  }

  /** A connected WireGuard device whose routes change is published at once. */
  predicate LiveRouteChange(e: Entry, edit: Edit) {
    e.connected && e.clientType.Wireguard? && (e.subnets != edit.wgOutputs || e.wgRoutes != edit.wgRoutes)
  }

  /** Other edits of a connected device wait until its session takes them up. */
  predicate PublishNow(previous: Option<Entry>, edit: Edit) {
    previous.None? || !previous.value.connected || LiveRouteChange(previous.value, edit)
  }

  predicate NeedsFullSync(previous: Option<Entry>, edit: Edit) {
    && previous.Some?
    && var e := previous.value;
       || (!e.connected && e.ip.Some? && e.ip.value != edit.ip)
       || LiveRouteChange(e, edit)
  }

  function EditedEntry(previous: Option<Entry>, edit: Edit, ct: ClientType, now: nat, version: nat,
                       stats: StatsId): Entry {
    if previous.Some? then
      previous.value.(ip := Some(edit.ip), ipType := edit.ipType, clientType := ct, subnets := Outputs(edit, ct),
                      wgRoutes := edit.wgRoutes,
                      stamp := if PublishNow(previous, edit) then version else previous.value.stamp)
    else
      Entry(Some(edit.ip), edit.ipType, ct, 0, false, false, Some(now), version, stats, Outputs(edit, ct),
            edit.wgRoutes)
  }

  function Reindexed(configured: map<Ip, DeviceId>, previous: Option<Entry>, edit: Edit): map<Ip, DeviceId> {
    var kept :=
      if previous.Some? && previous.value.ip != Some(edit.ip) then Without(configured, previous.value.ip)
      else configured;
    kept[edit.ip := edit.device]
  }

  function Upsert(s: State, edit: Edit, ct: ClientType, now: nat): (State, Result<(), Refusal>) {
    match ConflictingOwner(s.configured, s.active, edit.ip, edit.device)
    case Some(owner) => (s, Err(AddressTaken(owner)))
    case None =>
      var previous := Get(s.devices, edit.device);
      var publish := PublishNow(previous, edit);
      var version := if publish then s.dataVersion + 1 else s.dataVersion;
      var entry := EditedEntry(previous, edit, ct, now, version, s.nextStats);
      (s.(dataVersion := version,
          fullSyncVersion := if publish && NeedsFullSync(previous, edit) then version else s.fullSyncVersion,
          configured := Reindexed(s.configured, previous, edit),
          devices := s.devices[edit.device := entry],
          nextStats := if previous.None? then s.nextStats + 1 else s.nextStats),
       Ok(()))
  }

  /** A management edit with the checks the service makes first. */
  function UpsertDevice(t: Topology, s: State, mutation: Mutation, edit: Edit, now: nat)
    : (State, Result<(), Refusal>)
  {
    if !t.net.Contains(edit.ip) then (s, Err(OutsideNet))
    else if edit.ip == t.gateway then (s, Err(GatewayAddress))
    else if edit.ip == t.net.network || edit.ip == t.net.Broadcast() then (s, Err(NetworkOrBroadcast))
    else if mutation.Create? && edit.device in s.devices then (s, Err(DeviceExists))
    else if mutation.Update? && edit.device !in s.devices then (s, Err(UnknownDevice))
    else
      var ct := if mutation.Create? then mutation.clientType else s.devices[edit.device].clientType;
      Upsert(s, if ct.Wireguard? then edit.(ipType := Static) else edit, ct, now)
  }

  /** Lease expiry of one device at an already advanced version, appending it to `released` if it gave up an address. */
  function ExpireOne(s: State, released: seq<DeviceId>, device: DeviceId): (State, seq<DeviceId>) {
    if device !in s.devices || s.devices[device].connected || !s.devices[device].ipType.Dynamic? then (s, released)
    else
      var e := s.devices[device];
      (s.(devices := s.devices[device := e.(ip := None, stamp := s.dataVersion)],
          configured := Without(s.configured, e.ip)),
       if e.ip.Some? then released + [device] else released)
  }

  function ExpireAll(s: State, devices: seq<DeviceId>): (State, seq<DeviceId>)
    decreases |devices|
  {
    if devices == [] then (s, [])
    else
      var (s1, released) := ExpireAll(s, devices[..|devices| - 1]);
      ExpireOne(s1, released, devices[|devices| - 1])
  }

  function Expire(s: State, devices: seq<DeviceId>): (State, seq<DeviceId>) {
    if devices == [] then (s, [])
    else
      var (s1, released) := ExpireAll(s.(dataVersion := s.dataVersion + 1), devices);
      (if released != [] then s1.(fullSyncVersion := s1.dataVersion) else s1, released)
  }

  function RemoveDevice(s: State, device: DeviceId): State {
    if device !in s.devices then s
    else
      var e := s.devices[device];
      var live := set a | a in s.active && s.active[a] == device;
      s.(devices := s.devices - {device},
         configured := Without(s.configured, e.ip),
         active := s.active - live,
         senders := s.senders - live,
         traffic := s.traffic - live,
         dataVersion := s.dataVersion + 1,
         fullSyncVersion := s.dataVersion + 1)
  }

  // ---------- pre-registration ----------

  /** Takes the session's link out of the pool at `ip`, and says whether no pool with links is left there. */
  function Unlink(s: State, ip: Ip, link: LinkId, instance: InstanceId): (State, bool) {
    match PoolAt(s, ip)
    case None => (s, true)
    case Some(pool) =>
      if !pool.OwnsLink(instance, link) then (s, false)
      else
        var left := pool.WithoutLink(link);
        (s.(pools := s.pools[s.senders[ip] := left]), left.IsEmpty())
  }

  predicate Releases(s: State, device: DeviceId, ip: Ip, link: LinkId, instance: InstanceId) {
    && Unlink(s, ip, link, instance).1
    && device in s.devices
    && s.devices[device].randomId == link
    && s.devices[device].ip == Some(ip)
  }

  /** What the release does under the lease lock. */
  function ReleaseLocked(s: State, device: DeviceId, ip: Ip, link: LinkId, instance: InstanceId): State {
    var s1 := Unlink(s, ip, link, instance).0;
    if !Releases(s, device, ip, link, instance) then s1
    else
      s1.(devices := s.devices - {device},
          configured := s.configured - {ip},
          active := s.active - {ip},
          dataVersion := s.dataVersion + 1,
          fullSyncVersion := s.dataVersion + 1)
  }

  /** What it does after the lock has been given up. */
  function Sweep(s: State, ip: Ip): State {
    s.(senders := s.senders - {ip}, traffic := s.traffic - {ip})
  }

  /** The release with nothing in between. */
  function Release(s: State, device: DeviceId, ip: Ip, link: LinkId, instance: InstanceId): State {
    var s1 := ReleaseLocked(s, device, ip, link, instance);
    if Releases(s, device, ip, link, instance) then Sweep(s1, ip) else s1
  }

  function Confirm(s: State, device: DeviceId): State {
    if device !in s.devices || s.devices[device].advertising then s
    else
      var version := s.dataVersion + 1;
      s.(devices := s.devices[device := s.devices[device].(advertising := true, stamp := version)],
         dataVersion := version)
  }

  /** Runtime metadata reported by an authenticated managed session. */
  function UpdateRuntime(s: State, device: DeviceId, subnets: seq<Net>): State {
    if device !in s.devices || !s.devices[device].connected || !s.devices[device].clientType.Vnt? then s
    else
      var version := s.dataVersion + 1;
      s.(devices := s.devices[device := s.devices[device].(subnets := subnets, stamp := version)],
         dataVersion := version)
  }

  // ---------- start ----------

  datatype Record = Record(
    device: DeviceId,
    ip: Option<Ip>,
    ipType: IpType,
    clientType: ClientType,
    subnets: seq<Net>,
    wgRoutes: seq<InputRoute>)

  const EMPTY := State(0, 0, map[], map[], map[], map[], map[], map[], 0, 0, map[], {})

  function LoadOne(t: Topology, s: State, r: Record, now: nat): State {
    var entry := Entry(r.ip, r.ipType, r.clientType, 0, false, false, Some(now), 0, s.nextStats, r.subnets, r.wgRoutes);
    s.(devices := s.devices[r.device := entry],
       configured :=
         if r.ip.Some? && t.Usable(r.ip.value) then s.configured[r.ip.value := r.device] else s.configured,
       nextStats := s.nextStats + 1)
  }

  /** The table built from the durable records; nobody is connected yet. */
  function Load(t: Topology, records: seq<Record>, now: nat): State
    decreases |records|
  {
    if records == [] then EMPTY
    else LoadOne(t, Load(t, records[..|records| - 1], now), records[|records| - 1], now)
  }
}
