/** Managed-configuration revisions and the live subscription sessions that apply them. */
module Subscriptions {
  import opened Wrappers

  type Revision = nat

  datatype Identity = Identity(network: string, device: string)

  datatype ApplyStatus = Applied | Failed | Superseded

  datatype Ack = Ack(
    revision: Revision,
    status: ApplyStatus,
    error: string,
    overridden: seq<string>,
    metadataValid: bool)

  /** A live session: what its client last reported, and the links it holds. */
  datatype Entry = Entry(
    instance: InstanceId,
    clientInstance: InstanceId,
    applied: Revision,
    error: Option<(Revision, string)>,
    overridden: seq<string>,
    links: set<LinkId>)

  /** An acknowledgement whose link has been checked; then the durable revision is read, and then it is committed. */
  datatype PendingAck = PendingAck(who: Identity, link: LinkId, ack: Ack, target: Option<Revision>)

  /** A durable record as some handler has read it; it may be outdated when it is used. */
  datatype Snapshot = Snapshot(who: Identity, revision: Revision)

  /**
   `records` is the durable revision of each managed device; `issued` the link ids
   ever handed out and `snapshots` the records ever read.
   */
  datatype State = State(
    sessions: map<Identity, Entry>,
    records: map<Identity, Revision>,
    issued: set<LinkId>,
    pending: set<PendingAck>,
    snapshots: set<Snapshot>)

  datatype Refusal =
    | NoRecord | RevisionAhead | OtherInstance | NoAddress | NotAllocated
    | SessionGone | BadMetadata | InvalidRevision | DeviceOnline

  // ---------- connections ----------

  predicate HasOtherInstance(s: State, who: Identity, instance: InstanceId) {
    who in s.sessions && s.sessions[who].instance != instance
  }

  function NewSession(s: State, who: Identity, e: Entry, link: LinkId): State {
    s.(sessions := s.sessions[who := e], issued := s.issued + {link})
  }

  /** The first stage of a registration: the durable record is read, without any lock. */
  function ReadRecord(s: State, who: Identity): (State, Result<Revision, Refusal>) {
    if who !in s.records then (s, Err(NoRecord))
    else (s.(snapshots := s.snapshots + {Snapshot(who, s.records[who])}), Ok(s.records[who]))
  }

  /** The second stage for a control connection, which replaces the session of its client. `known` was read before. */
  function Register(s: State, who: Identity, instance: InstanceId, applied: Revision, known: Revision, addressed: bool,
                    link: LinkId): (State, Result<(), Refusal>)
  {
    if applied > known then (s, Err(RevisionAhead))
    else if HasOtherInstance(s, who, instance) then (s, Err(OtherInstance))
    else if !addressed then (s, Err(NoAddress))
    else (NewSession(s, who, Entry(instance, [], applied, None, [], {link}), link), Ok(()))
  }

  predicate Appends(s: State, who: Identity, instance: InstanceId, clientInstance: InstanceId) {
    && clientInstance != []
    && who in s.sessions
    && s.sessions[who].instance == instance && s.sessions[who].clientInstance == clientInstance
  }

  /**
   The second stage for a traffic connection, which joins the session of the same
   client run or replaces it. Without a known record, or beside a session of
   another instance, it registers as an ordinary one and the answer is false.
   */
  function Join(s: State, who: Identity, instance: InstanceId, clientInstance: InstanceId, applied: Revision,
                known: Option<Revision>, hasAddress: bool, link: LinkId): (State, Result<bool, Refusal>)
  {
    var managed := known.Some? && !HasOtherInstance(s, who, instance);
    if managed && applied > known.value then (s, Err(RevisionAhead))
    else if !hasAddress then (s, Err(NotAllocated))
    else if !managed then (s, Ok(false))
    else if Appends(s, who, instance, clientInstance) then
      var e := s.sessions[who];
      var e' := e.(applied := if e.applied < applied then applied else e.applied, links := e.links + {link});
      (NewSession(s, who, e', link), Ok(true))
    else (NewSession(s, who, Entry(instance, clientInstance, applied, None, [], {link}), link), Ok(true))
  }

  /** A connection goes away: its link leaves the session, and an empty session leaves the table. */
  function DropLink(s: State, who: Identity, link: LinkId): State {
    if who !in s.sessions then s
    else
      var e := s.sessions[who].(links := s.sessions[who].links - {link});
      s.(sessions := if e.links == {} then s.sessions - {who} else s.sessions[who := e])
  }

  // ---------- acknowledgements ----------

  predicate AckCanUpdate(ack: Revision, target: Revision, applied: Revision) {
    ack == target && ack >= applied
  }

  function AckedEntry(e: Entry, ack: Ack): Entry {
    e.(applied := if ack.status.Applied? then ack.revision else e.applied,
       error := if ack.error == "" then None else Some((ack.revision, ack.error)),
       overridden := ack.overridden)
  }

  function Updated(sessions: map<Identity, Entry>, who: Identity, ack: Ack, target: Revision): map<Identity, Entry> {
    if who in sessions && AckCanUpdate(ack.revision, target, sessions[who].applied) then
      sessions[who := AckedEntry(sessions[who], ack)]
    else sessions
  }

  /** The acknowledgement with nothing in between its stages. */
  function Acknowledge(s: State, who: Identity, link: LinkId, ack: Ack): (State, Result<(), Refusal>) {
    if who !in s.sessions || link !in s.sessions[who].links then (s, Err(SessionGone))
    else if ack.status.Superseded? then (s, Ok(()))
    else if ack.status.Applied? && !ack.metadataValid then (s, Err(BadMetadata))
    else if who !in s.records then (s, Err(NoRecord))
    else if ack.revision > s.records[who] then (s, Err(InvalidRevision))
    else (s.(sessions := Updated(s.sessions, who, ack, s.records[who])), Ok(()))
  }

  /** First stage: whether the link is held; nothing later looks at the link again. The answer says whether to go on. */
  function CheckAck(s: State, who: Identity, link: LinkId, ack: Ack): (State, Result<bool, Refusal>) {
    if who !in s.sessions || link !in s.sessions[who].links then (s, Err(SessionGone))
    else if ack.status.Superseded? then (s, Ok(false))
    else if ack.status.Applied? && !ack.metadataValid then (s, Err(BadMetadata))
    else (s.(pending := s.pending + {PendingAck(who, link, ack, None)}), Ok(true))
  }

  /** Second stage: the durable revision is read. */
  function ReadTarget(s: State, p: PendingAck): (State, Result<PendingAck, Refusal>) {
    var s0 := s.(pending := s.pending - {p});
    if p.who !in s.records then (s0, Err(NoRecord))
    else if p.ack.revision > s.records[p.who] then (s0, Err(InvalidRevision))
    else
      var p' := p.(target := Some(s.records[p.who]));
      (s0.(pending := s0.pending + {p'}), Ok(p'))
  }

  /** Third stage: whatever session the device has by now is updated. */
  function CommitAck(s: State, p: PendingAck): State
    requires p.target.Some?
  {
    s.(sessions := Updated(s.sessions, p.who, p.ack, p.target.value), pending := s.pending - {p})
  }

  // ---------- records ----------

  function CreateRecord(s: State, who: Identity): State {
    if who in s.records then s else s.(records := s.records[who := 1])
  }

  function BumpRevision(s: State, who: Identity): State {
    if who in s.records then s.(records := s.records[who := s.records[who] + 1]) else s
  }

  /** Deleting a device that is not online removes its record and its live session together. */
  function DeleteDevice(s: State, who: Identity, online: bool): (State, Result<(), Refusal>) {
    if online then (s, Err(DeviceOnline))
    else (s.(records := s.records - {who}, sessions := s.sessions - {who}), Ok(()))
  }

  // ---------- what the management view shows ----------

  datatype SyncStatus = InSync | InError | Pending

  function ApplyError(e: Entry, target: Revision): Option<string> {
    if e.error.Some? && e.error.value.0 == target then Some(e.error.value.1) else None
  }

  function Status(e: Entry, target: Revision): SyncStatus {
    if e.applied >= target then InSync else if ApplyError(e, target).Some? then InError else Pending
  }

  // ---------- runs ----------

  datatype Event =
    | RecordRead(who: Identity)
    | Registered(who: Identity, instance: InstanceId, applied: Revision, known: Revision, addressed: bool, link: LinkId)
    | Joined(
        who: Identity,
        instance: InstanceId,
        clientInstance: InstanceId,
        applied: Revision,
        snapshot: Option<Revision>,
        hasAddress: bool,
        link: LinkId)
    | LinkDropped(who: Identity, link: LinkId)
    | AckChecked(who: Identity, link: LinkId, ack: Ack)
    | TargetRead(p: PendingAck)
    | AckCommitted(p: PendingAck)
    | RecordCreated(who: Identity)
    | RevisionBumped(who: Identity)
    | RecordRewritten(who: Identity)
    | DeviceDeleted(who: Identity, online: bool)

  function Step(s: State, e: Event): State {
    match e
    case RecordRead(who) => ReadRecord(s, who).0
    case Registered(who, instance, applied, known, addressed, link) =>
      Register(s, who, instance, applied, known, addressed, link).0
    case Joined(who, instance, clientInstance, applied, known, hasAddress, link) =>
      Join(s, who, instance, clientInstance, applied, known, hasAddress, link).0
    case LinkDropped(who, link) => DropLink(s, who, link)
    case AckChecked(who, link, ack) => CheckAck(s, who, link, ack).0
    case TargetRead(p) => ReadTarget(s, p).0
    case AckCommitted(p) => if p.target.Some? then CommitAck(s, p) else s
    case RecordCreated(who) => CreateRecord(s, who)
    case RevisionBumped(who) => BumpRevision(s, who)
    case RecordRewritten(_) => s
    case DeviceDeleted(who, online) => DeleteDevice(s, who, online).0
  }

  /**
   New links get new ids, registrations use records read earlier, stages come in
   order, and the mutation lock keeps deletions out of acknowledgements.
   */
  ghost predicate Possible(s: State, e: Event) {
    match e
    case Registered(who, _, _, known, _, link) => link !in s.issued && Snapshot(who, known) in s.snapshots
    case Joined(who, _, _, _, known, _, link) =>
      link !in s.issued && (known.Some? ==> Snapshot(who, known.value) in s.snapshots)
    case TargetRead(p) => p in s.pending && p.target.None?
    case AckCommitted(p) => p in s.pending && p.target.Some?
    case DeviceDeleted(who, _) => forall p <- s.pending :: p.who != who
    case _ => true
  }

  function Exec(s: State, events: seq<Event>): State
    decreases |events|
  {
    if events == [] then s else Exec(Step(s, events[0]), events[1..])
  }

  ghost predicate PossibleRun(s: State, events: seq<Event>)
    decreases |events|
  {
    events != [] ==> Possible(s, events[0]) && PossibleRun(Step(s, events[0]), events[1..])
  }

  /** Sessions hold issued links. */
  ghost predicate Basic(s: State) {
    forall who <- s.sessions :: s.sessions[who].links != {} && s.sessions[who].links <= s.issued
  }

  /** The session reports on no revision that the durable record has not reached. */
  ghost predicate Reached(e: Entry, revision: Revision) {
    e.applied <= revision && (e.error.Some? ==> e.error.value.0 <= revision)
  }

  /** No session, and no acknowledgement under way, is ahead of its durable record. */
  ghost predicate Bounded(s: State) {
    && (forall who <- s.sessions :: who in s.records && Reached(s.sessions[who], s.records[who]))
    && (forall p <- s.pending :: p.target.Some? ==> p.who in s.records && p.target.value <= s.records[p.who])
  }

  /** The check that the second stage of a registration does not make: that the record still is what was read. */
  ghost predicate Guard(s: State, e: Event) {
    match e
    case Registered(who, instance, applied, known, addressed, link) =>
      Register(s, who, instance, applied, known, addressed, link).1.Ok? ==>
        who in s.records && applied <= s.records[who]
    case Joined(who, instance, clientInstance, applied, known, hasAddress, link) =>
      Join(s, who, instance, clientInstance, applied, known, hasAddress, link).1 == Ok(true) ==>
        who in s.records && applied <= s.records[who]
    case _ => true
  }

  lemma StepKeepsBasic(s: State, e: Event)
    requires Basic(s)
    ensures Basic(Step(s, e)) && s.issued <= Step(s, e).issued
  {
    hide Bounded, Guard;
  }

  lemma RegisterBoundedIff(s: State, e: Event)
    requires Bounded(s) && (e.Registered? || e.Joined?)
    ensures Bounded(Step(s, e)) <==> Guard(s, e)
  {
  }

  /** A possible step keeps sessions within their records exactly when it meets the guard. */
  lemma StepKeepsBoundedIff(s: State, e: Event)
    requires Bounded(s) && Possible(s, e)
    ensures Bounded(Step(s, e)) <==> Guard(s, e)
  {
    if e.Registered? || e.Joined? {
      hide Bounded, Guard, Step;
      RegisterBoundedIff(s, e);
    }
  }

  ghost predicate Guarded(s: State, events: seq<Event>)
    decreases |events|
  {
    events != [] ==> Guard(s, events[0]) && Guarded(Step(s, events[0]), events[1..])
  }

  ghost predicate BoundedThroughout(s: State, events: seq<Event>)
    decreases |events|
  {
    Bounded(s) && (events != [] ==> BoundedThroughout(Step(s, events[0]), events[1..]))
  }

  /** Sessions stay within their records throughout a run exactly if every registration in it meets the guard. */
  lemma {:induction false} BoundedThroughoutIff(s: State, events: seq<Event>)
    requires Bounded(s) && PossibleRun(s, events)
    ensures BoundedThroughout(s, events) <==> Guarded(s, events)
    decreases |events|
  {
    hide Step, Bounded, Guard, Possible;
    if events != [] {
      StepKeepsBoundedIff(s, events[0]);
      if Bounded(Step(s, events[0])) {
        BoundedThroughoutIff(Step(s, events[0]), events[1..]);
      }
    }
  }

  /** The client's view never runs ahead: a session is in sync exactly when it applied the durable revision. */
  lemma {:induction false} AppliedNeverAhead(s: State, events: seq<Event>)
    requires Bounded(s) && PossibleRun(s, events) && Guarded(s, events)
    ensures var s' := Exec(s, events);
            && Bounded(s')
            && forall who <- s'.sessions ::
                 && who in s'.records && s'.sessions[who].applied <= s'.records[who]
                 && (Status(s'.sessions[who], s'.records[who]).InSync? <==> s'.sessions[who].applied == s'.records[who])
    decreases |events|
  {
    hide Step, Bounded, Guard, Possible;
    if events == [] {
      SessionBounds(s);
    } else {
      StepKeepsBoundedIff(s, events[0]);
      AppliedNeverAhead(Step(s, events[0]), events[1..]);
    }
  }

  lemma SessionBounds(s: State)
    requires Bounded(s)
    ensures forall who <- s.sessions :: who in s.records && s.sessions[who].applied <= s.records[who]
  {
  }

  // ---------- when the guard is met ----------

  /** Every record read still exists, at that revision or a later one. */
  ghost predicate SnapshotsStand(s: State) {
    forall x <- s.snapshots :: x.who in s.records && x.revision <= s.records[x.who]
  }

  lemma StepKeepsSnapshots(s: State, e: Event)
    requires SnapshotsStand(s) && Possible(s, e) && !(e.DeviceDeleted? && !e.online)
    ensures SnapshotsStand(Step(s, e)) && Guard(s, e)
  {
  }

  /** Only the deletion of a device can make a registration miss the guard. */
  lemma {:induction false} NoDeletionIsGuarded(s: State, events: seq<Event>)
    requires SnapshotsStand(s) && PossibleRun(s, events)
    requires forall i :: 0 <= i < |events| ==> !(events[i].DeviceDeleted? && !events[i].online)
    ensures Guarded(s, events)
    decreases |events|
  {
    hide Step, SnapshotsStand, Guard, Possible;
    if events != [] {
      StepKeepsSnapshots(s, events[0]);
      NoDeletionIsGuarded(Step(s, events[0]), events[1..]);
    }
  }

  /** A registration reads the record, the device is deleted and created anew, and the registration goes on. */
  function RecreationRun(who: Identity): seq<Event> {
    [ RecordRead(who), DeviceDeleted(who, false), RecordCreated(who), Registered(who, [1], 5, 5, true, 1) ]
  }

  function RecreationState(who: Identity, n: nat): State {
    State(if n == 4 then map[who := Entry([1], [], 5, None, [], {1})] else map[],
          if n < 2 then map[who := 5] else if n == 2 then map[] else map[who := 1],
          if n == 4 then {1} else {}, {}, if n == 0 then {} else {Snapshot(who, 5)})
  }

  lemma RecreationStep(who: Identity, n: nat)
    requires n < 4
    ensures Possible(RecreationState(who, n), RecreationRun(who)[n])
    ensures Step(RecreationState(who, n), RecreationRun(who)[n]) == RecreationState(who, n + 1)
  {
  }

  lemma {:induction false} RecreationFrom(who: Identity, n: nat)
    requires n <= 4
    ensures PossibleRun(RecreationState(who, n), RecreationRun(who)[n..])
    ensures Exec(RecreationState(who, n), RecreationRun(who)[n..]) == RecreationState(who, 4)
    decreases 4 - n
  {
    hide Step, RecreationState, Possible;
    if n < 4 {
      RecreationStep(who, n);
      RecreationFrom(who, n + 1);
      assert RecreationRun(who)[n..][0] == RecreationRun(who)[n];
      assert RecreationRun(who)[n..][1..] == RecreationRun(who)[n + 1..];
    }
  }

  /** The session is then shown as applied, four revisions ahead of the new record. */
  lemma RecreatedDeviceIsAhead(who: Identity)
    ensures var s0 := State(map[], map[who := 5], {}, {}, {});
            var s := Exec(s0, RecreationRun(who));
            && Basic(s0) && Bounded(s0) && PossibleRun(s0, RecreationRun(who))
            && who in s.sessions && s.sessions[who].applied == 5 && Get(s.records, who) == Some(1)
            && Status(s.sessions[who], 1) == InSync
  {
    hide Exec, PossibleRun, RecreationRun;
    RecreationFrom(who, 0);
    assert RecreationRun(who)[0..] == RecreationRun(who);
  }

  // ---------- links ----------

  /** `link` is one of the links of the session of `who`. */
  ghost predicate Holds(s: State, who: Identity, link: LinkId) {
    who in s.sessions && link in s.sessions[who].links
  }

  /** The event makes the session of `who` lose `link`: it is replaced, dropped or deleted. */
  ghost predicate Evicts(s: State, e: Event, who: Identity, link: LinkId) {
    match e
    case Registered(w, instance, applied, known, addressed, l) =>
      w == who && Register(s, w, instance, applied, known, addressed, l).1.Ok?
    case Joined(w, instance, clientInstance, applied, known, hasAddress, l) =>
      && w == who && !Appends(s, w, instance, clientInstance)
      && Join(s, w, instance, clientInstance, applied, known, hasAddress, l).1 == Ok(true)
    case LinkDropped(w, l) => w == who && l == link
    case DeviceDeleted(w, online) => w == who && !online
    case _ => false
  }

  lemma RegisterHoldsIff(s: State, e: Event, who: Identity, link: LinkId)
    requires e.Registered? && e.link != link
    ensures Holds(Step(s, e), who, link) <==> Holds(s, who, link) && !Evicts(s, e, who, link)
  {
  }

  lemma JoinHoldsIff(s: State, e: Event, who: Identity, link: LinkId)
    requires e.Joined? && e.link != link
    ensures Holds(Step(s, e), who, link) <==> Holds(s, who, link) && !Evicts(s, e, who, link)
  {
  }

  lemma DropHoldsIff(s: State, e: Event, who: Identity, link: LinkId)
    requires e.LinkDropped?
    ensures Holds(Step(s, e), who, link) <==> Holds(s, who, link) && !Evicts(s, e, who, link)
  {
    if Holds(s, who, link) && e.link != link {
      assert link in s.sessions[who].links - {e.link};
    }
  }

  lemma StepHoldsIff(s: State, e: Event, who: Identity, link: LinkId)
    requires Possible(s, e) && link in s.issued
    ensures Holds(Step(s, e), who, link) <==> Holds(s, who, link) && !Evicts(s, e, who, link)
  {
    match e
    case Registered(_, _, _, _, _, _) => RegisterHoldsIff(s, e, who, link);
    case Joined(_, _, _, _, _, _, _) => JoinHoldsIff(s, e, who, link);
    case LinkDropped(_, _) => DropHoldsIff(s, e, who, link);
    case _ =>
  }

  ghost predicate EvictsIn(s: State, events: seq<Event>, who: Identity, link: LinkId)
    decreases |events|
  {
    events != [] && (Evicts(s, events[0], who, link) || EvictsIn(Step(s, events[0]), events[1..], who, link))
  }

  /** A link is held after a run exactly if it was held before and nothing in between evicted it. */
  lemma {:induction false} HeldThroughoutIff(s: State, events: seq<Event>, who: Identity, link: LinkId)
    requires Basic(s) && PossibleRun(s, events) && link in s.issued
    ensures Holds(Exec(s, events), who, link) <==> Holds(s, who, link) && !EvictsIn(s, events, who, link)
    decreases |events|
  {
    hide Step, Basic, Evicts, Holds;
    if events != [] {
      StepKeepsBasic(s, events[0]);
      StepHoldsIff(s, events[0], who, link);
      HeldThroughoutIff(Step(s, events[0]), events[1..], who, link);
    }
  }

  /** While one link stays registered, its session's applied revision does not go back. */
  lemma StepIsMonotone(s: State, e: Event, who: Identity, link: LinkId)
    requires Basic(s) && Possible(s, e) && link in s.issued && Holds(Step(s, e), who, link)
    ensures Holds(s, who, link) && s.sessions[who].applied <= Step(s, e).sessions[who].applied
  {
  }

  lemma {:induction false} AppliedIsMonotone(s: State, events: seq<Event>, who: Identity, link: LinkId)
    requires Basic(s) && PossibleRun(s, events) && link in s.issued
    requires Holds(Exec(s, events), who, link)
    ensures Holds(s, who, link)
    ensures s.sessions[who].applied <= Exec(s, events).sessions[who].applied
    decreases |events|
  {
    hide Step, Basic;
    if events != [] {
      StepKeepsBasic(s, events[0]);
      AppliedIsMonotone(Step(s, events[0]), events[1..], who, link);
      StepIsMonotone(s, events[0], who, link);
    }
  }

  lemma DropOfForeignLink(s: State, who: Identity, link: LinkId)
    requires Basic(s) && !Holds(s, who, link)
    ensures DropLink(s, who, link) == s
  {
    if who in s.sessions {
      assert s.sessions[who].links - {link} == s.sessions[who].links;
      assert s.sessions[who := s.sessions[who]] == s.sessions;
    }
  }

  lemma {:induction false} RunKeepsBasic(s: State, events: seq<Event>)
    requires Basic(s)
    ensures Basic(Exec(s, events))
    decreases |events|
  {
    hide Step, Basic;
    if events != [] {
      StepKeepsBasic(s, events[0]);
      RunKeepsBasic(Step(s, events[0]), events[1..]);
    }
  }

  /** Dropping an older control session leaves a newer one exactly as it is, however late. */
  lemma LateDropIsHarmless(s: State, events: seq<Event>, who: Identity, older: LinkId)
    requires Basic(s) && PossibleRun(s, events) && older in s.issued
    requires !Holds(s, who, older) || EvictsIn(s, events, who, older)
    ensures var s' := Exec(s, events);
            !Holds(s', who, older) && DropLink(s', who, older) == s'
  {
    hide Basic, Exec, EvictsIn, Holds;
    HeldThroughoutIff(s, events, who, older);
    RunKeepsBasic(s, events);
    DropOfForeignLink(Exec(s, events), who, older);
  }

  /**
   A reconnect of the same client replaces its earlier link, so the earlier
   connection's end cannot remove the new one.
   */
  lemma ReconnectReplacesLink(s: State, who: Identity, instance: InstanceId, applied: Revision, known: Revision,
                              addressed: bool, link: LinkId, older: LinkId)
    requires Basic(s) && older in s.issued && link !in s.issued
    ensures var (s', r) := Register(s, who, instance, applied, known, addressed, link);
            r.Ok? ==> Holds(s', who, link) && !Holds(s', who, older) && DropLink(s', who, older) == s'
  {
    var (s', r) := Register(s, who, instance, applied, known, addressed, link);
    if r.Ok? {
      StepKeepsBasic(s, Registered(who, instance, applied, known, addressed, link));
      DropOfForeignLink(s', who, older);
    }
  }

  // ---------- what registrations do ----------

  /** No other session changes. */
  ghost predicate OnlySessionOf(s: State, s': State, who: Identity) {
    && s'.records == s.records && s'.pending == s.pending
    && forall other :: other != who ==> Get(s'.sessions, other) == Get(s.sessions, other)
  }

  /**
   A control connection is accepted exactly if it is not ahead of the record it
   read, the device has an address, and no session of another instance is there.
   Its session starts with what it reported and this one link.
   */
  lemma ControlRegistrationIff(s: State, who: Identity, instance: InstanceId, applied: Revision, known: Revision,
                               addressed: bool, link: LinkId)
    ensures var (s', r) := Register(s, who, instance, applied, known, addressed, link);
            && (r.Ok? <==>
                  applied <= known && addressed && (who in s.sessions ==> s.sessions[who].instance == instance))
            && (r == Err(RevisionAhead) <==> applied > known)
            && (r == Err(OtherInstance) <==>
                  applied <= known && who in s.sessions && s.sessions[who].instance != instance)
            && (r.Err? ==> s' == s)
            && (r.Ok? ==>
                  && OnlySessionOf(s, s', who) && Holds(s', who, link) && s'.issued == s.issued + {link}
                  && var e := s'.sessions[who];
                  && e.instance == instance && e.applied == applied && e.links == {link}
                  && e.error.None? && e.overridden == [] && e.clientInstance == [])
  {
  }

  /**
   A traffic connection takes part in the session exactly if it knows a record, is
   not ahead of it, got an address, and no session of another instance is there.
   Links of one named client run gather in one session, at the highest revision
   reported; another run starts over.
   */
  lemma TrafficRegistrationIff(s: State, who: Identity, instance: InstanceId, clientInstance: InstanceId,
                               applied: Revision, known: Option<Revision>, hasAddress: bool, link: LinkId)
    ensures var (s', r) := Join(s, who, instance, clientInstance, applied, known, hasAddress, link);
            var managed := known.Some? && (who in s.sessions ==> s.sessions[who].instance == instance);
            var sameRun := clientInstance != [] && who in s.sessions &&
              s.sessions[who].clientInstance == clientInstance;
            && (r == Ok(true) <==> managed && applied <= known.value && hasAddress)
            && (r == Ok(false) <==> !managed && hasAddress)
            && (r == Err(RevisionAhead) <==> managed && applied > known.value)
            && (r != Ok(true) ==> s' == s)
            && (r == Ok(true) ==>
                  && OnlySessionOf(s, s', who) && Holds(s', who, link) && s'.issued == s.issued + {link}
                  && var e := s'.sessions[who];
                  && e.instance == instance && e.clientInstance == clientInstance
                  && e.links == (if sameRun then s.sessions[who].links else {}) + {link}
                  && e.applied >= applied && (sameRun ==> e.applied >= s.sessions[who].applied)
                  && (e.applied == applied || (sameRun && e.applied == s.sessions[who].applied))
                  && (if sameRun then e.error == s.sessions[who].error && e.overridden == s.sessions[who].overridden
                      else e.error.None? && e.overridden == []))
  {
  }

  /** Two traffic links of one client run share the session, at the larger of their revisions. */
  lemma SecondLinkJoins(s: State, who: Identity, instance: InstanceId, clientInstance: InstanceId, applied: Revision,
                        known: Option<Revision>, link: LinkId, applied2: Revision, known2: Revision, link2: LinkId)
    requires clientInstance != [] && applied2 <= known2
    requires Join(s, who, instance, clientInstance, applied, known, true, link).1 == Ok(true)
    ensures var s1 := Join(s, who, instance, clientInstance, applied, known, true, link).0;
            var (s2, r2) := Join(s1, who, instance, clientInstance, applied2, Some(known2), true, link2);
            && r2 == Ok(true) && Holds(s2, who, link) && Holds(s2, who, link2)
            && s2.sessions[who].applied ==
               (if s1.sessions[who].applied < applied2 then applied2 else s1.sessions[who].applied)
  {
  }

  // ---------- what acknowledgements do ----------

  /**
   An acknowledgement is accepted exactly if it comes through a held link and is
   superseded, or is well formed and not beyond the durable revision. A refused
   one, a superseded one and one of an earlier revision change nothing.
   */
  lemma AckIsAcceptedIff(s: State, who: Identity, link: LinkId, ack: Ack)
    ensures var (s', r) := Acknowledge(s, who, link, ack);
            && (r.Ok? <==>
                  && Holds(s, who, link)
                  && (|| ack.status.Superseded?
                      || (&& (ack.status.Applied? ==> ack.metadataValid)
                          && who in s.records && ack.revision <= s.records[who])))
            && (r == Err(SessionGone) <==> !Holds(s, who, link))
            && (r == Err(InvalidRevision) ==> who in s.records && ack.revision > s.records[who])
            && (r.Err? || ack.status.Superseded? || Get(s.records, who) != Some(ack.revision) ==> s' == s)
  {
  }

  /** Without interruption, the three stages are the one acknowledgement. */
  lemma UninterruptedAck(s: State, who: Identity, link: LinkId, ack: Ack)
    requires forall p <- s.pending :: p.who != who
    ensures var (s1, r1) := CheckAck(s, who, link, ack);
            var whole := Acknowledge(s, who, link, ack);
            if r1.Err? then whole == (s, Err(r1.error)) && s1 == s
            else if !r1.value then whole == (s, Ok(())) && s1 == s
            else
              var (s2, r2) := ReadTarget(s1, PendingAck(who, link, ack, None));
              if r2.Err? then whole == (s2, Err(r2.error)) && s2 == s
              else r2.value.target.Some? && whole == (CommitAck(s2, r2.value), Ok(()))
  {
    var p := PendingAck(who, link, ack, None);
    assert s.pending + {p} - {p} == s.pending;
    if who in s.records {
      var p' := p.(target := Some(s.records[who]));
      assert s.pending + {p'} - {p'} == s.pending;
    }
  }

  /**
   An acknowledgement changes a session only for the current target revision and
   through a held link, never downwards.
   */
  lemma OnlyCurrentAcksCount(s: State, who: Identity, link: LinkId, ack: Ack, other: Identity)
    ensures var s' := Acknowledge(s, who, link, ack).0;
            && s'.records == s.records && s'.issued == s.issued
            && (s'.sessions != s.sessions ==>
                  && Holds(s, who, link) && Get(s.records, who) == Some(ack.revision)
                  && s.sessions[who].applied <= ack.revision)
            && (other != who ==> Get(s'.sessions, other) == Get(s.sessions, other))
            && (Holds(s, who, link) ==> who in s'.sessions && s'.sessions[who].links == s.sessions[who].links)
  {
  }

  /**
   With a run between its check and its commit, an acknowledgement reaches only
   a session that holds its link, unless that link was evicted in between and the
   session that is there by then is at or below the acknowledged target.
   */
  lemma StagedAckReachesHolderIff(s: State, events: seq<Event>, p: PendingAck)
    requires Basic(s) && PossibleRun(s, events) && Holds(s, p.who, p.link) && p.target.Some?
    ensures var s' := Exec(s, events);
            var harmless := CommitAck(s', p).sessions == s'.sessions || Holds(s', p.who, p.link);
            harmless <==>
              !(&& EvictsIn(s, events, p.who, p.link)
                && p.who in s'.sessions
                && AckCanUpdate(p.ack.revision, p.target.value, s'.sessions[p.who].applied)
                && AckedEntry(s'.sessions[p.who], p.ack) != s'.sessions[p.who])
  {
    var s' := Exec(s, events);
    assert p.link in s.issued;
    hide Basic, Exec, EvictsIn, AckedEntry;
    HeldThroughoutIff(s, events, p.who, p.link);
    if p.who in s'.sessions {
      UpdateChangesIff(s'.sessions, p.who, p.ack, p.target.value);
    }
  }

  lemma UpdateChangesIff(sessions: map<Identity, Entry>, who: Identity, ack: Ack, target: Revision)
    requires who in sessions
    ensures Updated(sessions, who, ack, target) == sessions <==>
            !(AckCanUpdate(ack.revision, target, sessions[who].applied) &&
              AckedEntry(sessions[who], ack) != sessions[who])
  {
    hide AckedEntry;
    var e := AckedEntry(sessions[who], ack);
    assert sessions[who := e] == sessions <==> e == sessions[who] by {
      assert sessions[who := sessions[who]] == sessions;
      assert sessions[who := e][who] == e;
    }
  }

  /** A run in which the acknowledgement of a replaced link is written to the session that replaced it. */
  function StaleAckRun(who: Identity): seq<Event> {
    [ RecordRead(who),
      Registered(who, [1], 0, 1, true, 1),
      AckChecked(who, 1, ONE),
      Registered(who, [1], 0, 1, true, 2),
      TargetRead(PendingAck(who, 1, ONE, None)),
      AckCommitted(PendingAck(who, 1, ONE, Some(1))) ]
  }

  const ONE := Ack(1, Applied, "", [], true)

  function StaleState(who: Identity, n: nat): State {
    var session := Entry([1], [], if n < 6 then 0 else 1, None, [], {if n < 4 then 1 else 2});
    State(if n < 2 then map[] else map[who := session], map[who := 1],
          if n < 2 then {} else if n < 4 then {1} else {1, 2},
          if n == 3 || n == 4 then {PendingAck(who, 1, ONE, None)}
          else if n == 5 then {PendingAck(who, 1, ONE, Some(1))} else {},
          if n == 0 then {} else {Snapshot(who, 1)})
  }

  lemma StaleStep(who: Identity, n: nat)
    requires n < 6
    ensures Possible(StaleState(who, n), StaleAckRun(who)[n])
    ensures Step(StaleState(who, n), StaleAckRun(who)[n]) == StaleState(who, n + 1)
  {
    assert {1} + {2} == {1, 2};
  }

  lemma {:induction false} StaleRunFrom(who: Identity, n: nat)
    requires n <= 6
    ensures PossibleRun(StaleState(who, n), StaleAckRun(who)[n..])
    ensures Exec(StaleState(who, n), StaleAckRun(who)[n..]) == StaleState(who, 6)
    decreases 6 - n
  {
    hide Step, StaleState, Possible;
    if n < 6 {
      StaleStep(who, n);
      StaleRunFrom(who, n + 1);
      assert StaleAckRun(who)[n..][0] == StaleAckRun(who)[n];
      assert StaleAckRun(who)[n..][1..] == StaleAckRun(who)[n + 1..];
    }
  }

  lemma StaleAckIsApplied(who: Identity)
    ensures var s0 := State(map[], map[who := 1], {}, {}, {});
            var s := Exec(s0, StaleAckRun(who));
            && Basic(s0) && Bounded(s0) && PossibleRun(s0, StaleAckRun(who))
            && who in s.sessions && s.sessions[who].links == {2} && s.sessions[who].applied == 1
  {
    hide Exec, PossibleRun, StaleAckRun;
    StaleRunFrom(who, 0);
    assert StaleAckRun(who)[0..] == StaleAckRun(who);
  }

  /**
   An acknowledgement of the current revision through a held link is what the
   management view then shows: in sync once applied, and otherwise the reported
   error, or pending if there is none.
   */
  lemma CurrentAckIsShown(s: State, who: Identity, link: LinkId, ack: Ack)
    requires Bounded(s) && Holds(s, who, link)
    requires ack.revision == s.records[who] && !ack.status.Superseded? && (ack.status.Applied? ==> ack.metadataValid)
    ensures var (s', r) := Acknowledge(s, who, link, ack);
            && r.Ok? && Holds(s', who, link)
            && var e, e' := s.sessions[who], s'.sessions[who];
            && e'.applied == (if ack.status.Applied? then s.records[who] else e.applied)
            && e'.overridden == ack.overridden && e'.instance == e.instance
            && Status(e', s'.records[who]) ==
               (if ack.status.Applied? || e.applied == s.records[who] then InSync
                else if ack.error != "" then InError
                else Pending)
            && (ack.error != "" ==> ApplyError(e', s'.records[who]) == Some(ack.error))
  {
  }

  /** Reports of an earlier revision are forgotten as soon as the target moves on. */
  lemma BumpMakesPending(s: State, who: Identity)
    requires Bounded(s) && who in s.sessions
    ensures Status(BumpRevision(s, who).sessions[who], BumpRevision(s, who).records[who]) == Pending
  {
  }

  // ---------- the service ----------

  class SubscriptionService {
    var sessions: map<Identity, Entry>
    var records: map<Identity, Revision>
    ghost var issued: set<LinkId>
    ghost var pending: set<PendingAck>
    ghost var snapshots: set<Snapshot>

    ghost function View(): State
      reads this
    {
      State(sessions, records, issued, pending, snapshots)
    }

    ghost predicate Valid()
      reads this
    {
      Basic(View())
    }

    constructor (stored: map<Identity, Revision>)
      ensures Valid() && Bounded(View()) && View() == State(map[], stored, {}, {}, {})
    {
      sessions, records, issued, pending, snapshots := map[], stored, {}, {}, {};
    }

    /** The lookup with which every registration starts. */
    method LookUpRecord(who: Identity) returns (r: Result<Revision, Refusal>)
      requires Valid()
      modifies this`snapshots
      ensures Valid()
      ensures (View(), r) == ReadRecord(old(View()), who)
      ensures old(Bounded(View())) ==> Bounded(View())
    {
      if who !in records {
        return Err(NoRecord);
      }
      snapshots := snapshots + {Snapshot(who, records[who])};
      r := Ok(records[who]);
    }

    /** The rest of a control registration, on a record read at any earlier time. */
    method RegisterSubscriptionConnection(who: Identity, instance: InstanceId, applied: Revision, known: Revision,
                                          addressed: bool, link: LinkId)
      returns (r: Result<(), Refusal>)
      requires Valid() && link !in issued && Snapshot(who, known) in snapshots
      modifies this
      ensures Valid()
      ensures (View(), r) == Register(old(View()), who, instance, applied, known, addressed, link)
      ensures r.Err? ==> View() == old(View())
      ensures r.Ok? ==> sessions == old(sessions)[who := sessions[who]] && sessions[who].links == {link}
      ensures old(Bounded(View())) ==>
                (Bounded(View()) <==> (r.Ok? ==> who in records && applied <= records[who]))
    {
      hide Basic, Bounded;
      ghost var e := Registered(who, instance, applied, known, addressed, link);
      StepKeepsBasic(View(), e);
      if Bounded(View()) {
        StepKeepsBoundedIff(View(), e);
      }
      if applied > known {
        return Err(RevisionAhead);
      }
      if who in sessions && sessions[who].instance != instance {
        return Err(OtherInstance);
      }
      if !addressed {
        return Err(NoAddress);
      }
      sessions := sessions[who := Entry(instance, [], applied, None, [], {link})];
      issued := issued + {link};
      r := Ok(());
    }

    /**
     What a traffic registration with a verified credential does to the sessions;
     false if it stays an ordinary one.
     */
    method AttachTrafficLink(who: Identity, instance: InstanceId, clientInstance: InstanceId, applied: Revision,
                             known: Option<Revision>, hasAddress: bool, link: LinkId)
      returns (r: Result<bool, Refusal>)
      requires Valid() && link !in issued && (known.Some? ==> Snapshot(who, known.value) in snapshots)
      modifies this
      ensures Valid()
      ensures (View(), r) == Join(old(View()), who, instance, clientInstance, applied, known, hasAddress, link)
      ensures r != Ok(true) ==> View() == old(View())
      ensures r == Ok(true) ==> who in sessions && link in sessions[who].links && applied <= sessions[who].applied
    {
      hide Basic;
      StepKeepsBasic(View(), Joined(who, instance, clientInstance, applied, known, hasAddress, link));
      var managed := known.Some? && !(who in sessions && sessions[who].instance != instance);
      if managed && applied > known.value {
        return Err(RevisionAhead);
      }
      if !hasAddress {
        return Err(NotAllocated);
      }
      if !managed {
        return Ok(false);
      }
      if clientInstance != [] && who in sessions && sessions[who].clientInstance == clientInstance {
        var current := sessions[who];
        if current.applied < applied {
          current := current.(applied := applied);
        }
        sessions := sessions[who := current.(links := current.links + {link})];
      } else {
        sessions := sessions[who := Entry(instance, clientInstance, applied, None, [], {link})];
      }
      issued := issued + {link};
      r := Ok(true);
    }

    method CheckLink(who: Identity, link: LinkId, ack: Ack) returns (r: Result<bool, Refusal>)
      requires Valid()
      modifies this`pending
      ensures Valid()
      ensures (View(), r) == CheckAck(old(View()), who, link, ack)
    {
      if who !in sessions || link !in sessions[who].links {
        return Err(SessionGone);
      }
      if ack.status.Superseded? {
        return Ok(false);
      }
      if ack.status.Applied? && !ack.metadataValid {
        return Err(BadMetadata);
      }
      pending := pending + {PendingAck(who, link, ack, None)};
      r := Ok(true);
    }

    method ReadRevision(who: Identity, link: LinkId, ack: Ack) returns (r: Result<Revision, Refusal>)
      requires Valid()
      modifies this`pending
      ensures Valid()
      ensures var (s, q) := ReadTarget(old(View()), PendingAck(who, link, ack, None));
              && View() == s
              && (if q.Ok? then r == Ok(records[who]) && q.value.target == Some(records[who]) else r == Err(q.error))
    {
      var p := PendingAck(who, link, ack, None);
      pending := pending - {p};
      if who !in records {
        return Err(NoRecord);
      }
      if ack.revision > records[who] {
        return Err(InvalidRevision);
      }
      pending := pending + {p.(target := Some(records[who]))};
      r := Ok(records[who]);
    }

    method Commit(who: Identity, link: LinkId, ack: Ack, target: Revision)
      requires Valid() && PendingAck(who, link, ack, Some(target)) in pending
      modifies this
      ensures Valid()
      ensures View() == CommitAck(old(View()), PendingAck(who, link, ack, Some(target)))
    {
      hide Basic;
      StepKeepsBasic(View(), AckCommitted(PendingAck(who, link, ack, Some(target))));
      pending := pending - {PendingAck(who, link, ack, Some(target))};
      if who in sessions && AckCanUpdate(ack.revision, target, sessions[who].applied) {
        var entry := sessions[who];
        if ack.status.Applied? {
          entry := entry.(applied := ack.revision);
        }
        entry := entry.(error := if ack.error == "" then None else Some((ack.revision, ack.error)));
        entry := entry.(overridden := ack.overridden);
        sessions := sessions[who := entry];
      }
    }

    /** The whole handler, uninterrupted. */
    method AcknowledgeSubscriptionConfig(who: Identity, link: LinkId, ack: Ack) returns (r: Result<(), Refusal>)
      requires Valid() && forall p <- pending :: p.who != who
      modifies this
      ensures Valid()
      ensures (View(), r) == Acknowledge(old(View()), who, link, ack)
      ensures r.Err? ==> View() == old(View())
    {
      hide Basic, CheckAck, ReadTarget, CommitAck, Acknowledge;
      UninterruptedAck(View(), who, link, ack);
      var checked := CheckLink(who, link, ack);
      if checked.Err? {
        return Err(checked.error);
      }
      if !checked.value {
        return Ok(());
      }
      ghost var read := ReadTarget(View(), PendingAck(who, link, ack, None));
      ReadKeepsIdentity(View(), PendingAck(who, link, ack, None));
      var target := ReadRevision(who, link, ack);
      assert View() == read.0;
      if target.Err? {
        return Err(target.error);
      }
      Commit(who, link, ack, target.value);
      r := Ok(());
    }

    method DropControlSession(who: Identity, link: LinkId)
      requires Valid()
      modifies this
      ensures Valid()
      ensures View() == DropLink(old(View()), who, link)
    {
      hide Basic;
      StepKeepsBasic(View(), LinkDropped(who, link));
      if who in sessions {
        var entry := sessions[who].(links := sessions[who].links - {link});
        sessions := sessions[who := entry];
        if entry.links == {} {
          sessions := sessions - {who};
          assert sessions == old(sessions) - {who};
        }
      }
    }

    method DeleteDeviceRecord(who: Identity, online: bool) returns (r: Result<(), Refusal>)
      requires Valid() && forall p <- pending :: p.who != who
      modifies this
      ensures Valid()
      ensures (View(), r) == DeleteDevice(old(View()), who, online)
      ensures r.Ok? <==> !online
      ensures r.Ok? ==> who !in records && who !in sessions
    {
      if online {
        return Err(DeviceOnline);
      }
      records := records - {who};
      sessions := sessions - {who};
      r := Ok(());
    }
  }

  lemma ReadKeepsIdentity(s: State, p: PendingAck)
    ensures var (s', r) := ReadTarget(s, p);
            r.Ok? ==> r.value.target.Some? && r.value == p.(target := r.value.target) && r.value in s'.pending
  {
  }
}
