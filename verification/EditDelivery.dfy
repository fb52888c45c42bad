/** When clients that miss address edits of connected devices are right again. */
module EditDelivery {
  import opened Wrappers
  import opened Ipv4
  import opened LeaseModel
  import opened LeaseInvariant
  import opened LeaseLinked
  import opened LeaseRuns
  import opened LeaseEffects
  import opened LeaseWitnesses
  import opened LiveReadings
  import opened DeltaSync
  import opened DeferredEdits

  /** Every edit of the run that the viewer misses is one of a device in `watched`. */
  ghost predicate MissesOnly(t: Topology, s: State, events: seq<Event>, v: Viewer, watched: iset<DeviceId>)
    decreases |events|
  {
    events != [] ==>
      && (MissedEdit(t, s, events[0], v) ==> events[0].edit.device in watched)
      && MissesOnly(t, Step(t, s, events[0]), events[1..], v, watched)
  }

  /** No watched device that the viewer is shown has an edit deferred. */
  ghost predicate NoneDeferred(s: State, v: Viewer, watched: iset<DeviceId>) {
    forall d, a :: d in watched && Deferred(s, d, a) ==> !v.Shows(s.devices[d].clientType)
  }

  ghost predicate AllAnchored(s: State, watched: iset<DeviceId>) {
    forall d <- s.devices :: d in watched ==> Anchored(s, d)
  }

  // ---------- the table as it is read ----------

  ghost function ReadEntry(s: State, watched: iset<DeviceId>, d: DeviceId): Entry
    requires d in s.devices
  {
    if d in watched then s.devices[d].(ip := Reading(s, d)) else s.devices[d]
  }

  /** The table in which watched devices appear at the address they are read at. */
  ghost function ReadTable(s: State, watched: iset<DeviceId>): State {
    s.(devices := map d | d in s.devices :: ReadEntry(s, watched, d))
  }

  lemma ReadingIsOccupied(t: Topology, s: State, watched: iset<DeviceId>, d: DeviceId)
    requires d in s.devices && ReadEntry(s, watched, d).ip.Some?
    ensures Occupies(s, d, ReadEntry(s, watched, d).ip.value)
  {
  }

  lemma ReadTableIsDistinct(t: Topology, s: State, watched: iset<DeviceId>)
    requires Addresses(t, s)
    ensures DistinctAddresses(ReadTable(s, watched).devices)
  {
    hide Addresses, Occupies, ReadEntry;
    var devices := ReadTable(s, watched).devices;
    forall c, d | c in devices && d in devices && devices[c].ip.Some? && devices[c].ip == devices[d].ip
      ensures c == d
    {
      ReadingIsOccupied(t, s, watched, c);
      ReadingIsOccupied(t, s, watched, d);
      OccupiesOnce(t, s, devices[c].ip.value, c, d);
    }
  }

  /** With nothing deferred, the viewer sees the table as it is. */
  lemma ReadTableLooksSame(s: State, v: Viewer, watched: iset<DeviceId>, version: nat)
    requires OneActive(s.active) && NoneDeferred(s, v, watched)
    ensures Everyone(ReadTable(s, watched), v) == Everyone(s, v)
    ensures ChangedSince(ReadTable(s, watched), v, version) == ChangedSince(s, v, version)
  {
    var r := ReadTable(s, watched);
    forall d | d in s.devices && v.Shows(s.devices[d].clientType)
      ensures r.devices[d] == s.devices[d]
    {
      if d in watched && s.devices[d].connected && HoldsAddress(s.active, d) {
        var a :| a in s.active && s.active[a] == d;
        ReadingIsLive(s, d, a);
        assert !Deferred(s, d, a);
      }
    }
    hide Reading, NoneDeferred, OneActive, ReadEntry;
    assert forall d <- s.devices :: v.Lists(r.devices[d]) || v.Lists(s.devices[d]) ==> r.devices[d] == s.devices[d] by {
      forall d | d in s.devices
        ensures r.devices[d].clientType == s.devices[d].clientType && r.devices[d].stamp == s.devices[d].stamp
      {
        ReadKeepsRest(s, watched, d);
      }
    }
    SameListSameClients(s, r, v, version);
    SameListSameClients(r, s, v, version);
  }

  lemma ReadKeepsRest(s: State, watched: iset<DeviceId>, d: DeviceId)
    requires d in s.devices
    ensures ReadEntry(s, watched, d).clientType == s.devices[d].clientType
    ensures ReadEntry(s, watched, d).stamp == s.devices[d].stamp
  {
  }

  lemma SameListSameClients(s: State, r: State, v: Viewer, version: nat)
    requires s.devices.Keys == r.devices.Keys
    requires forall d <- s.devices :: v.Lists(s.devices[d]) ==> r.devices[d] == s.devices[d]
    ensures Everyone(s, v) <= Everyone(r, v) && ChangedSince(s, v, version) <= ChangedSince(r, v, version)
  {
    forall x | x in Everyone(s, v)
      ensures x in Everyone(r, v)
    {
      var d :| d in s.devices && v.Lists(s.devices[d]) && Describe(s.devices[d]) == x;
      assert r.devices[d] == s.devices[d];
    }
    forall x | x in ChangedSince(s, v, version)
      ensures x in ChangedSince(r, v, version)
    {
      var d :| d in s.devices && s.devices[d].stamp > version && v.Lists(s.devices[d]) && Describe(s.devices[d]) == x;
      assert r.devices[d] == s.devices[d];
    }
  }

  // ---------- every step ----------

  lemma SteadyIsQuiet(s: State, s': State, v: Viewer, watched: iset<DeviceId>, d: DeviceId)
    requires d in s.devices && d in watched && Steady(s, s', d) && s'.fullSyncVersion <= s.dataVersion
    ensures d in s'.devices
    ensures QuietChange(v, s.dataVersion, ReadEntry(s, watched, d), ReadEntry(s', watched, d))
  {
    hide Reading;
  }

  lemma SilentEditFrame(t: Topology, s: State, e: Event)
    requires Core(t, s) && SilentEdit(t, s, e)
    ensures var s', d := Step(t, s, e), e.edit.device;
            && d in s'.devices && s'.devices == s.devices[d := s'.devices[d]]
            && s'.devices[d].ip == Some(e.edit.ip) && s'.devices[d].connected == s.devices[d].connected
            && s'.devices[d].clientType == s.devices[d].clientType && s'.active == s.active
            && s'.dataVersion == s.dataVersion && s'.fullSyncVersion == s.fullSyncVersion
  {
    hide Core, Obtainable;
    EditSucceedsIff(t, s, e.mutation, e.edit, e.now);
    hide Reindexed, ConflictingOwner, UsableHost, Outputs;
  }

  /** Outside the watched devices, a step without a full list is quiet or changes nothing. */
  lemma OthersAreQuiet(t: Topology, s: State, e: Event, v: Viewer, watched: iset<DeviceId>)
    requires Core(t, s) && Possible(s, e) && Step(t, s, e).fullSyncVersion <= s.dataVersion
    requires MissedEdit(t, s, e, v) ==> e.edit.device in watched
    ensures var s' := Step(t, s, e);
            && s.dataVersion <= s'.dataVersion && s'.fullSyncVersion == s.fullSyncVersion
            && forall d :: d in s.devices && d !in watched ==>
                 d in s'.devices && QuietChange(v, s.dataVersion, s.devices[d], s'.devices[d])
  {
    if MissedEdit(t, s, e, v) {
      SilentEditFrame(t, s, e);
      hide Core, Step, Obtainable;
    } else {
      hide Core, Step, MissedEdit;
      StepConveyed(t, s, e, v);
    }
  }

  lemma StepIsQuietAsRead(t: Topology, s: State, e: Event, v: Viewer, watched: iset<DeviceId>)
    requires Core(t, s) && Possible(s, e) && AllAnchored(s, watched)
    requires MissedEdit(t, s, e, v) ==> e.edit.device in watched
    requires Step(t, s, e).fullSyncVersion <= s.dataVersion
    ensures Quiet(ReadTable(s, watched), ReadTable(Step(t, s, e), watched), v)
  {
    hide Core, Step, MissedEdit, Possible, QuietChange, Steady, Anchored;
    OthersAreQuiet(t, s, e, v, watched);
    var s' := Step(t, s, e);
    var r, r' := ReadTable(s, watched), ReadTable(s', watched);
    forall d | d in s.devices
      ensures d in s'.devices && QuietChange(v, s.dataVersion, r.devices[d], r'.devices[d])
    {
      if d in watched {
        StepIsSteady(t, s, e, d);
        SteadyIsQuiet(s, s', v, watched, d);
      }
    }
    forall d | d in s'.devices && d !in s.devices
      ensures r'.devices[d].stamp > s.dataVersion
    {
      NewDeviceIsStamped(t, s, e, d);
      ReadKeepsRest(s', watched, d);
    }
    hide ReadEntry;
  }

  lemma StepKeepsAnchored(t: Topology, s: State, e: Event, watched: iset<DeviceId>)
    requires Core(t, s) && Possible(s, e) && AllAnchored(s, watched)
    ensures AllAnchored(Step(t, s, e), watched)
  {
    hide Core, Step, Possible;
    forall d | d in Step(t, s, e).devices && d in watched
      ensures Anchored(Step(t, s, e), d)
    {
      StepAnchors(t, s, e, d);
    }
  }

  lemma StepKeepsReadTracks(t: Topology, s: State, e: Event, v: Viewer, watched: iset<DeviceId>, c: Replica)
    requires Core(t, s) && Possible(s, e) && AllAnchored(s, watched)
    requires MissedEdit(t, s, e, v) ==> e.edit.device in watched
    requires Tracks(ReadTable(s, watched), v, c)
    ensures Tracks(ReadTable(Step(t, s, e), watched), v, c)
  {
    StepKeepsCore(t, s, e);
    StepVersionsGrow(t, s, e);
    hide Step, MissedEdit, Possible, AllAnchored, ConfiguredInverse, ConnectedConfigured, OneActive, Exclusive,
      AllUsable, Attachments, Stamped, Quiet, DistinctAddresses, ReadEntry, Everyone, ChangedSince, Merge;
    var s' := Step(t, s, e);
    if s'.fullSyncVersion <= s.dataVersion {
      OthersAreQuiet(t, s, e, v, watched);
      StepIsQuietAsRead(t, s, e, v, watched);
      ReadTableIsDistinct(t, s, watched);
      ReadTableIsDistinct(t, s', watched);
      QuietKeepsTracks(ReadTable(s, watched), ReadTable(s', watched), v, c);
    }
  }

  lemma {:induction false} RunKeepsReadTracks(t: Topology, s: State, events: seq<Event>, v: Viewer,
                                              watched: iset<DeviceId>, c: Replica)
    requires Core(t, s) && PossibleRun(t, s, events) && AllAnchored(s, watched)
    requires MissesOnly(t, s, events, v, watched) && Tracks(ReadTable(s, watched), v, c)
    ensures Tracks(ReadTable(Exec(t, s, events), watched), v, c)
    decreases |events|
  {
    hide Core, Step, MissedEdit, AllAnchored, ReadTable, Tracks;
    if events != [] {
      StepKeepsCore(t, s, events[0]);
      StepKeepsAnchored(t, s, events[0], watched);
      StepKeepsReadTracks(t, s, events[0], v, watched, c);
      RunKeepsReadTracks(t, Step(t, s, events[0]), events[1..], v, watched, c);
    }
  }

  // ---------- the address a run keeps ----------

  /** Without a full list, a device stays at the address it is read at. */
  lemma {:induction false} RunKeepsReading(t: Topology, s: State, events: seq<Event>, d: DeviceId)
    requires Core(t, s) && PossibleRun(t, s, events) && d in s.devices && Anchored(s, d) && Reading(s, d).Some?
    ensures var s' := Exec(t, s, events);
            || s'.fullSyncVersion > s.dataVersion
            || (&& d in s'.devices && Reading(s', d) == Reading(s, d)
                && s'.devices[d].clientType == s.devices[d].clientType)
    decreases |events|
  {
    hide Core, Step, Anchored, Reading;
    if events != [] {
      var s1 := Step(t, s, events[0]);
      StepKeepsCore(t, s, events[0]);
      StepVersionsGrow(t, s, events[0]);
      StepAnchors(t, s, events[0], d);
      StepIsSteady(t, s, events[0], d);
      if s1.fullSyncVersion > s.dataVersion {
        RunVersionsGrow(t, s1, events[1..]);
      } else {
        RunKeepsReading(t, s1, events[1..], d);
      }
    }
  }

  // ---------- whole runs ----------

  /** One reply gives the client that was current before the run exactly the full list after it. */
  ghost predicate Delivered(t: Topology, s: State, events: seq<Event>, v: Viewer) {
    var s' := Exec(t, s, events);
    Current(s, v).Receive(ChangedClientList(s', v, s.dataVersion)) == Current(s', v)
  }

  /**
   A watched device that the viewer is shown is live at `a`, its address if it had
   one before, with an edit deferred.
   */
  ghost predicate LeftDeferred(s: State, s': State, v: Viewer, watched: iset<DeviceId>, d: DeviceId, a: Ip) {
    && d in watched && Deferred(s', d, a) && v.Shows(s'.devices[d].clientType)
    && (d in s.devices && s.devices[d].ip.Some? ==> s.devices[d].ip == Some(a))
  }

  ghost predicate DeliveredOrDeferred(t: Topology, s: State, events: seq<Event>, v: Viewer, watched: iset<DeviceId>) {
    Delivered(t, s, events, v) || exists d, a :: LeftDeferred(s, Exec(t, s, events), v, watched, d, a)
  }

  lemma DeferredWasThere(t: Topology, s: State, events: seq<Event>, v: Viewer, watched: iset<DeviceId>, d: DeviceId,
                         a: Ip)
    requires Core(t, s) && AllAnchored(s, watched) && NoneDeferred(s, v, watched) && PossibleRun(t, s, events)
    requires d in watched && Deferred(Exec(t, s, events), d, a) && v.Shows(Exec(t, s, events).devices[d].clientType)
    requires Exec(t, s, events).fullSyncVersion <= s.dataVersion
    ensures LeftDeferred(s, Exec(t, s, events), v, watched, d, a)
  {
    hide Step, Exec, PossibleRun;
    var s' := Exec(t, s, events);
    RunKeepsCore(t, s, events);
    assert OneActive(s.active) && OneActive(s'.active) by {
      hide ConfiguredInverse, ConnectedConfigured, OneActive, Exclusive, AllUsable, Attachments, Stamped;
    }
    hide Core, OneActive;
    ReadingIsLive(s', d, a);
    if d in s.devices && s.devices[d].ip.Some? {
      assert Anchored(s, d);
      assert Reading(s, d).Some?;
      RunKeepsReading(t, s, events, d);
      if s.devices[d].connected {
        var b :| b in s.active && s.active[b] == d;
        ReadingIsLive(s, d, b);
        assert !Deferred(s, d, b);
      }
    }
  }

  /** From a client that was current while nothing was deferred: any run delivers, or leaves an edit deferred. */
  lemma EditsAreDelivered(t: Topology, s: State, events: seq<Event>, v: Viewer, watched: iset<DeviceId>)
    requires Core(t, s) && AllAnchored(s, watched) && NoneDeferred(s, v, watched)
    requires PossibleRun(t, s, events) && MissesOnly(t, s, events, v, watched)
    ensures DeliveredOrDeferred(t, s, events, v, watched)
  {
    var s' := Exec(t, s, events);
    if s'.fullSyncVersion > s.dataVersion {
      hide Core, Exec, PossibleRun, MissesOnly, ChangedClientList, Current;
      DeltaRefinesFull(t, s, events, v);
    } else if NoneDeferred(s', v, watched) {
      NothingDeferredIsDelivered(t, s, events, v, watched);
    } else {
      hide Core, Exec, PossibleRun, MissesOnly, AllAnchored;
      var d, a :| d in watched && Deferred(s', d, a) && v.Shows(s'.devices[d].clientType);
      DeferredWasThere(t, s, events, v, watched, d, a);
    }
  }

  lemma NothingDeferredIsDelivered(t: Topology, s: State, events: seq<Event>, v: Viewer, watched: iset<DeviceId>)
    requires Core(t, s) && AllAnchored(s, watched) && NoneDeferred(s, v, watched)
    requires PossibleRun(t, s, events) && MissesOnly(t, s, events, v, watched)
    requires NoneDeferred(Exec(t, s, events), v, watched)
    ensures Delivered(t, s, events, v)
  {
    var s', c := Exec(t, s, events), Current(s, v);
    hide Exec, PossibleRun, MissesOnly, AllAnchored, NoneDeferred;
    RunKeepsCore(t, s, events);
    hide ConfiguredInverse, ConnectedConfigured, OneActive, Exclusive, AllUsable, Attachments, Stamped, ReadEntry,
      Everyone, ChangedSince, Merge, ChangedClientList;
    CurrentTracks(s, v);
    ReadTableLooksSame(s, v, watched, s.dataVersion);
    RunKeepsReadTracks(t, s, events, v, watched, c);
    ReadTableLooksSame(s', v, watched, s.dataVersion);
    PollCatchesUp(s', v, c);
  }

  // ---------- edits back to the live address ----------

  /** The edit that sets a device's address to `a` and leaves everything else as it is. */
  function EditTo(e: Entry, d: DeviceId, a: Ip): Event {
    Edited(Update, Edit(d, a, e.ipType, e.subnets, e.subnets, e.wgRoutes), 0)
  }

  lemma EditBackIsSilent(t: Topology, s: State, d: DeviceId, a: Ip)
    requires Core(t, s) && Deferred(s, d, a)
    ensures SilentEdit(t, s, EditTo(s.devices[d], d, a))
  {
    assert Occupies(s, d, a);
    forall c | Occupies(s, c, a)
      ensures c == d
    {
      OccupiesOnce(t, s, a, c, d);
    }
    hide ConfiguredInverse, ConnectedConfigured, OneActive, Exclusive, Attachments, Stamped;
  }

  ghost predicate DeferredSomewhere(s: State, d: DeviceId) {
    exists a :: Deferred(s, d, a)
  }

  ghost function DeferredDevices(s: State, watched: iset<DeviceId>): set<DeviceId> {
    set d | d in s.devices && d in watched && DeferredSomewhere(s, d)
  }

  /** `s'` is `s` but for watched devices whose address was set back to their live one, without any publication. */
  ghost predicate SetBack(s: State, s': State, watched: iset<DeviceId>) {
    && s'.active == s.active && s'.dataVersion == s.dataVersion
    && s'.devices.Keys == s.devices.Keys
    && forall d <- s.devices :: EntrySetBack(s, d, s.devices[d], s'.devices[d])
  }

  ghost predicate EntrySetBack(s: State, d: DeviceId, e: Entry, e': Entry) {
    && e'.connected == e.connected && e'.clientType == e.clientType
    && (e'.ip == e.ip || (e'.ip.Some? && Get(s.active, e'.ip.value) == Some(d)))
  }

  lemma SetBackTwice(s: State, s1: State, s2: State, watched: iset<DeviceId>)
    requires SetBack(s, s1, watched) && SetBack(s1, s2, watched)
    ensures SetBack(s, s2, watched)
  {
    forall d | d in s.devices
      ensures EntrySetBack(s, d, s.devices[d], s2.devices[d])
    {
      assert EntrySetBack(s, d, s.devices[d], s1.devices[d]) && EntrySetBack(s1, d, s1.devices[d], s2.devices[d]);
    }
  }

  lemma OneSetBack(s: State, s': State, watched: iset<DeviceId>, d: DeviceId, a: Ip)
    requires Deferred(s, d, a) && d in watched
    requires forall b :: b in s.active && s.active[b] == d ==> b == a
    requires s'.active == s.active && s'.dataVersion == s.dataVersion
    requires d in s'.devices && s'.devices == s.devices[d := s'.devices[d]] && s'.devices[d].ip == Some(a)
    requires s'.devices[d].connected && s'.devices[d].clientType == s.devices[d].clientType
    ensures SetBack(s, s', watched)
    ensures DeferredDevices(s', watched) <= DeferredDevices(s, watched) - {d}
  {
    forall c | c in DeferredDevices(s', watched)
      ensures c in DeferredDevices(s, watched) - {d}
    {
      var b :| Deferred(s', c, b);
      assert c != d ==> Deferred(s, c, b);
    }
  }

  lemma EditBackSettles(t: Topology, s: State, watched: iset<DeviceId>, d: DeviceId, a: Ip)
    requires Core(t, s) && Deferred(s, d, a) && d in watched
    ensures var s' := Step(t, s, EditTo(s.devices[d], d, a));
            && Core(t, s') && SetBack(s, s', watched)
            && DeferredDevices(s', watched) <= DeferredDevices(s, watched) - {d}
  {
    hide Core, Step, SilentEdit, SetBack, DeferredDevices;
    var e := EditTo(s.devices[d], d, a);
    EditBackIsSilent(t, s, d, a);
    SilentEditFrame(t, s, e);
    StepKeepsCore(t, s, e);
    LiveOnce(t, s, d, a);
    OneSetBack(s, Step(t, s, e), watched, d, a);
  }

  /** All deferred edits of watched devices can be set back, one after the other. */
  lemma {:induction false} SetAllBack(t: Topology, s: State, v: Viewer, watched: iset<DeviceId>)
    returns (events: seq<Event>)
    requires Core(t, s)
    ensures PossibleRun(t, s, events) && MissesOnly(t, s, events, v, watched)
    ensures SetBack(s, Exec(t, s, events), watched) && DeferredDevices(Exec(t, s, events), watched) == {}
    decreases |DeferredDevices(s, watched)|
  {
    if d :| d in DeferredDevices(s, watched) {
      var a :| Deferred(s, d, a);
      hide Core, Step, MissedEdit, SetBack, DeferredDevices, Deferred, DeferredSomewhere, Possible;
      EditBackSettles(t, s, watched, d, a);
      var e := EditTo(s.devices[d], d, a);
      var s1 := Step(t, s, e);
      SubsetSize(DeferredDevices(s1, watched), DeferredDevices(s, watched) - {d});
      var rest := SetAllBack(t, s1, v, watched);
      events := [e] + rest;
      EditIsPossible(s, s.devices[d], d, a);
      assert events[0] == e && events[1..] == rest;
      SetBackTwice(s, s1, Exec(t, s1, rest), watched);
    } else {
      events := [];
    }
  }

  lemma EditIsPossible(s: State, e: Entry, d: DeviceId, a: Ip)
    ensures Possible(s, EditTo(e, d, a))
  {
  }

  /** Setting a shown device back changes the list, whatever else was set back. */
  lemma SetBackChangesList(t: Topology, s: State, s': State, v: Viewer, watched: iset<DeviceId>, d: DeviceId, a: Ip)
    requires Addresses(t, s) && SetBack(s, s', watched)
    requires Deferred(s, d, a) && v.Shows(s.devices[d].clientType) && d in s'.devices && s'.devices[d].ip == Some(a)
    ensures Everyone(s', v) != Everyone(s, v)
  {
    var p := s.devices[d].ip;
    assert p.Some? by {
      hide ConfiguredInverse, OneActive, Exclusive, AllUsable;
    }
    assert EntrySetBack(s, d, s.devices[d], s'.devices[d]);
    if a != v.ip {
      assert Describe(s'.devices[d]) in Everyone(s', v);
      forall c | c in s.devices
        ensures s.devices[c].ip != Some(a)
      {
        OccupiesOnce(t, s, a, c, d);
      }
      hide Addresses, SetBack;
      assert forall x <- Everyone(s, v) :: x.ip != a;
    } else {
      assert Describe(s.devices[d]) in Everyone(s, v);
      forall c | c in s'.devices
        ensures s'.devices[c].ip != p
      {
        assert EntrySetBack(s, c, s.devices[c], s'.devices[c]);
        OccupiesOnce(t, s, p.value, c, d);
      }
      hide Addresses, SetBack;
      assert forall x <- Everyone(s', v) :: x.ip != p.value;
    }
  }

  /** From a client that was current while an edit was deferred, some run leaves it wrong with nothing deferred. */
  lemma DeferredEditIsLost(t: Topology, s: State, v: Viewer, watched: iset<DeviceId>, d: DeviceId, a: Ip)
    returns (events: seq<Event>)
    requires Core(t, s) && d in watched && Deferred(s, d, a) && v.Shows(s.devices[d].clientType)
    ensures PossibleRun(t, s, events) && MissesOnly(t, s, events, v, watched)
    ensures !Delivered(t, s, events, v)
    ensures forall c, b :: c in watched ==> !Deferred(Exec(t, s, events), c, b)
  {
    events := SetAllBack(t, s, v, watched);
    var s' := Exec(t, s, events);
    hide Exec, PossibleRun, MissesOnly;
    assert forall c, b :: c in watched && Deferred(s', c, b) ==> c in DeferredDevices(s', watched);
    assert EntrySetBack(s, d, s.devices[d], s'.devices[d]);
    assert !Deferred(s', d, a);
    hide DeferredDevices;
    SetBackChangesList(t, s, s', v, watched, d, a);
    hide Core, Everyone;
  }

  /**
   Whatever edits of watched devices it misses, a client that was current is right
   again after every run that leaves none of them deferred, if and only if none
   was deferred when it was current.
   */
  lemma EditsAreDeliveredIff(t: Topology, s: State, v: Viewer, watched: iset<DeviceId>)
    requires Core(t, s) && AllAnchored(s, watched)
    ensures (forall events :: PossibleRun(t, s, events) && MissesOnly(t, s, events, v, watched) ==>
               DeliveredOrDeferred(t, s, events, v, watched)) <==>
            NoneDeferred(s, v, watched)
  {
    if NoneDeferred(s, v, watched) {
      hide Core, AllAnchored, PossibleRun, MissesOnly, NoneDeferred, DeliveredOrDeferred;
      forall events | PossibleRun(t, s, events) && MissesOnly(t, s, events, v, watched)
        ensures DeliveredOrDeferred(t, s, events, v, watched)
      {
        EditsAreDelivered(t, s, events, v, watched);
      }
    } else {
      var d, a :| d in watched && Deferred(s, d, a) && v.Shows(s.devices[d].clientType);
      hide Core, AllAnchored, PossibleRun, MissesOnly, Delivered, Exec, Deferred;
      var events := DeferredEditIsLost(t, s, v, watched, d, a);
      assert !DeliveredOrDeferred(t, s, events, v, watched);
    }
  }

  /**
   For one connected device that the viewer is shown: every run whose missed edits
   are edits of it ends with the exact list or with an edit deferred at its live
   address, if and only if that was its address when the client was current.
   */
  lemma DeviceEditsAreDeliveredIff(t: Topology, s: State, v: Viewer, d: DeviceId, a: Ip)
    requires Core(t, s) && d in s.devices && s.devices[d].connected && Get(s.active, a) == Some(d)
    requires v.Shows(s.devices[d].clientType)
    ensures (forall events :: PossibleRun(t, s, events) && MissesOnly(t, s, events, v, iset{d}) ==>
               Delivered(t, s, events, v) || Deferred(Exec(t, s, events), d, a)) <==>
            s.devices[d].ip == Some(a)
  {
    if s.devices[d].ip == Some(a) {
      LiveOnce(t, s, d, a);
      assert AllAnchored(s, iset{d}) && NoneDeferred(s, v, iset{d});
      hide Core, AllAnchored, NoneDeferred, PossibleRun, MissesOnly, Delivered, Exec;
      forall events | PossibleRun(t, s, events) && MissesOnly(t, s, events, v, iset{d})
        ensures Delivered(t, s, events, v) || Deferred(Exec(t, s, events), d, a)
      {
        EditsAreDelivered(t, s, events, v, iset{d});
      }
    } else {
      hide Core, PossibleRun, MissesOnly, Delivered, Exec;
      var events := DeferredEditIsLost(t, s, v, iset{d}, d, a);
    }
  }

  // ---------- every reachable state ----------

  ghost const EVERYONE := iset d: DeviceId | true

  lemma {:induction false} MissesOnlyEveryone(t: Topology, s: State, events: seq<Event>, v: Viewer)
    ensures MissesOnly(t, s, events, v, EVERYONE)
    decreases |events|
  {
    hide Step, Obtainable;
    if events != [] {
      MissesOnlyEveryone(t, Step(t, s, events[0]), events[1..], v);
    }
  }

  /**
   In every reachable state: a client that is current there is right again after
   every possible run that leaves no edit deferred, whatever edits it misses, if
   and only if no edit of a device it is shown is deferred there.
   */
  lemma ReachableClientsIff(t: Topology, records: seq<Record>, now: nat, before: seq<Event>, v: Viewer)
    requires SoundRecords(t, records) && PossibleRun(t, Load(t, records, now), before)
    ensures var s := Exec(t, Load(t, records, now), before);
            (forall events :: PossibleRun(t, s, events) ==> DeliveredOrDeferred(t, s, events, v, EVERYONE)) <==>
            NoneDeferred(s, v, EVERYONE)
  {
    hide Core, SoundRecords, PossibleRun, Exec, MissesOnly, DeliveredOrDeferred, NoneDeferred, Anchored;
    var s := Exec(t, Load(t, records, now), before);
    ConnectedIsLive(t, records, now, before, "");
    forall d | d in s.devices
      ensures Anchored(s, d)
    {
      ConnectedIsLive(t, records, now, before, d);
    }
    EditsAreDeliveredIff(t, s, v, EVERYONE);
    forall events
      ensures MissesOnly(t, s, events, v, EVERYONE)
    {
      MissesOnlyEveryone(t, s, events, v);
    }
  }

  // ---------- an edit that is never published ----------

  /**
   A client takes the full list while the device is live at 3 and configured at 2.
   The address is set back to 3 and the session ends. Nothing is deferred any
   more, no full list was forced, and the client still shows the device at 2.
   */
  lemma EditBackIsNeverPublished(d: DeviceId)
    ensures var s := Exec(T0, EMPTY, Approach(d) + [BackEdit(d)]);
            var s' := Exec(T0, s, Ending(d));
            var v := Viewer(5, false, false);
            && PossibleRun(T0, EMPTY, Approach(d) + [BackEdit(d)]) && PossibleRun(T0, s, Ending(d))
            && (forall c, a :: !Deferred(s', c, a)) && d in s'.devices && !s'.devices[d].connected
            && Current(s, v).Receive(ChangedClientList(s', v, s.dataVersion)) ==
               Replica(3, {ClientInfo(2, true, Vnt), ClientInfo(3, false, Vnt)})
            && Current(s', v) == Replica(3, {ClientInfo(3, false, Vnt)})
  {
    BackEditRuns(d);
    EndingRuns(d);
    hide Exec, PossibleRun, Approach, Ending, BackEdit, Links, Tickets;
    StaleLists(d);
  }

  lemma StaleLists(d: DeviceId)
    ensures var s, s', v := MovedTo(d, Member(2, Static, 2), 2), Ended(d), Viewer(5, false, false);
            && Everyone(s, v) == {ClientInfo(2, true, Vnt)}
            && Everyone(s', v) == {ClientInfo(3, false, Vnt)} == ChangedSince(s', v, 2)
            && Merge(Everyone(s, v), ChangedSince(s', v, 2)) == {ClientInfo(2, true, Vnt), ClientInfo(3, false, Vnt)}
  {
    hide Links, Tickets;
    var s, s', v := MovedTo(d, Member(2, Static, 2), 2), Ended(d), Viewer(5, false, false);
    assert d in s.devices && v.Lists(s.devices[d]) && Describe(s.devices[d]) == ClientInfo(2, true, Vnt);
    assert d in s'.devices && v.Lists(s'.devices[d]) && Describe(s'.devices[d]) == ClientInfo(3, false, Vnt);
    assert Everyone(s, v) == {ClientInfo(2, true, Vnt)};
    assert ChangedSince(s', v, 2) == {ClientInfo(3, false, Vnt)};
  }
}
