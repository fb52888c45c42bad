/** Concrete runs on which the server does not do what one would expect. */
module LeaseWitnesses {
  import opened Wrappers
  import opened Ipv4
  import opened LeaseModel
  import opened LeaseLinked
  import opened LeaseRuns

  const T0 := Topology(Net(0, 29), 1, false)
  const LIVE: InstanceId := [7]

  // ---------- the events ----------

  /** A device pre-registers at 2, opens a second link of the same client, and that link moves the session to 3. */
  function Approach(d: DeviceId): seq<Event> {
    [ Registered(Request(d, Some(2), false, PreRegister, []), 1, Vnt, LIVE),
      Registered(Request(d, Some(2), false, Normal, []), 2, Vnt, LIVE),
      FastRegistered(d, 2, 3, 2, LIVE) ]
  }

  /** A management edit sets the configured address back to 2. */
  function BackEdit(d: DeviceId): Event {
    Edited(Update, Edit(d, 2, Static, [], [], []), 0)
  }

  /** The first link goes away; its session still holds address 2. */
  function LateRelease(d: DeviceId): Event {
    PreRegistrationReleased(d, 2, 1, LIVE)
  }

  function OrphaningRun(d: DeviceId): seq<Event> {
    Approach(d) + [BackEdit(d)] + [LateRelease(d)]
  }

  /** The device is created anew at 3, and a third link of the same client registers there. */
  function Recreation(d: DeviceId): Event {
    Edited(Create(Vnt), Edit(d, 3, Static, [], [], []), 0)
  }

  function ThirdLink(d: DeviceId): Event {
    Registered(Request(d, Some(3), false, Normal, []), 3, Vnt, LIVE)
  }

  // ---------- the states ----------

  function Tickets(d: DeviceId, n: nat): map<LinkId, Ticket> {
    if n == 0 then map[] else Tickets(d, n - 1)[n := Ticket(d, LIVE)]
  }

  function Links(n: nat): map<LinkId, Option<nat>> {
    if n == 0 then map[] else Links(n - 1)[n := None]
  }

  function Joined(d: DeviceId, n: nat): State {
    State(1, 0, map[d := Member(2, Dynamic, 1)], map[2 := d], map[2 := d], map[2 := 0], map[2 := 0],
          map[0 := Pool(d, LIVE, Links(n))], 1, 1, Tickets(d, n), {})
  }

  function MovedTo(d: DeviceId, entry: Entry, configured: Ip): State {
    State(2, 2, map[d := entry], map[configured := d], map[3 := d], map[3 := 0], map[3 := 0],
          map[0 := Pool(d, LIVE, Links(2))], 1, 1, Tickets(d, 2), {})
  }

  function Orphan(d: DeviceId): State {
    State(3, 3, map[], map[], map[3 := d], map[3 := 0], map[3 := 0],
          map[0 := Pool(d, LIVE, Links(2))], 1, 1, Tickets(d, 2), {})
  }

  function Recreated(d: DeviceId): State {
    Orphan(d).(dataVersion := 4, nextStats := 2, configured := map[3 := d],
               devices := map[d := Entry(Some(3), Static, Vnt, 0, false, false, Some(0), 4, 1, [], [])])
  }

  function Member(ip: Ip, ipType: IpType, stamp: nat): Entry {
    Entry(Some(ip), ipType, Vnt, 1, true, false, None, stamp, 0, [], [])
  }

  // ---------- step by step ----------

  lemma Unfolded(d: DeviceId)
    ensures Links(1) == map[1 := None] && Links(2) == map[1 := None, 2 := None]
    ensures Tickets(d, 1) == map[1 := Ticket(d, LIVE)]
    ensures Tickets(d, 2) == map[1 := Ticket(d, LIVE), 2 := Ticket(d, LIVE)]
  {
    assert Links(0) == map[] && Tickets(d, 0) == map[];
  }

  lemma FirstJoin(d: DeviceId)
    ensures Step(T0, EMPTY, Approach(d)[0]) == Joined(d, 1)
  {
    var req := Request(d, Some(2), false, PreRegister, []);
    var s0 := Adopt(EMPTY, req, 1, Vnt, 2, None);
    assert AllocateIp(T0, EMPTY, req, 1, Vnt) == (s0, Ok(Grant(2, None)));
    assert StaleAddresses(s0.active, d, 2) == {};
    assert Links(1) == map[1 := None] && Tickets(d, 1) == map[1 := Ticket(d, LIVE)];
  }

  lemma SecondJoin(d: DeviceId)
    ensures Step(T0, Joined(d, 1), Approach(d)[1]) == Joined(d, 2)
  {
    hide AllocateIp, Attach;
  }

  lemma MoveAccepted(d: DeviceId)
    ensures FastRegister(T0, Joined(d, 2), d, 2, 3, 2, LIVE).0 == Readdress(Joined(d, 2), d, 2, 3)
  {
    hide Readdress, Tickets;
  }

  lemma MoveResult(d: DeviceId)
    ensures Readdress(Joined(d, 2), d, 2, 3) == MovedTo(d, Member(3, Dynamic, 2), 3)
  {
    hide Links, Tickets;
    var s' := Readdress(Joined(d, 2), d, 2, 3);
    assert s'.active == map[3 := d] && s'.configured == map[3 := d];
    assert s'.senders == map[3 := 0] && s'.traffic == map[3 := 0];
  }

  lemma Move(d: DeviceId)
    ensures Step(T0, Joined(d, 2), Approach(d)[2]) == MovedTo(d, Member(3, Dynamic, 2), 3)
  {
    hide FastRegister, Readdress, Links, Tickets;
    MoveAccepted(d);
    MoveResult(d);
  }

  lemma ApproachRuns(d: DeviceId)
    ensures PossibleRun(T0, EMPTY, Approach(d))
    ensures Exec(T0, EMPTY, Approach(d)) == MovedTo(d, Member(3, Dynamic, 2), 3)
  {
    hide Step;
    Unfolded(d);
    var es := Approach(d);
    assert es == [es[0]] + [es[1]] + [es[2]];
    FirstJoin(d);
    SecondJoin(d);
    Move(d);
    ExecOne(T0, EMPTY, es[0]);
    ExecOne(T0, Joined(d, 1), es[1]);
    ExecOne(T0, Joined(d, 2), es[2]);
    ExecAppend(T0, EMPTY, [es[0]], [es[1]]);
    ExecAppend(T0, EMPTY, [es[0]] + [es[1]], [es[2]]);
  }

  lemma BackEditRuns(d: DeviceId)
    ensures PossibleRun(T0, EMPTY, Approach(d) + [BackEdit(d)])
    ensures Exec(T0, EMPTY, Approach(d) + [BackEdit(d)]) == MovedTo(d, Member(2, Static, 2), 2)
  {
    var s := MovedTo(d, Member(3, Dynamic, 2), 3);
    assert Step(T0, s, BackEdit(d)) == MovedTo(d, Member(2, Static, 2), 2);
    hide Step, Approach;
    ApproachRuns(d);
    ExecOne(T0, s, BackEdit(d));
    ExecAppend(T0, EMPTY, Approach(d), [BackEdit(d)]);
  }

  // ---------- an edit back, and the end of the session ----------

  /** The address is set to the live one again, both links go away, and the disconnect is finalised. */
  function Ending(d: DeviceId): seq<Event> {
    [ Edited(Update, Edit(d, 3, Static, [], [], []), 0),
      LinkDropped(d, 3, 0, 1, LIVE),
      LinkDropped(d, 3, 0, 2, LIVE),
      OfflineFinalized(d, 3, 0, 0) ]
  }

  function Draining(d: DeviceId, links: map<LinkId, Option<nat>>, draining: set<Drain>): State {
    MovedTo(d, Member(3, Static, 2), 3).(pools := map[0 := Pool(d, LIVE, links)], draining := draining)
  }

  function Ended(d: DeviceId): State {
    State(3, 2, map[d := Entry(Some(3), Static, Vnt, 1, false, false, Some(0), 3, 0, [], [])], map[3 := d],
          map[], map[], map[], map[0 := Pool(d, LIVE, map[])], 1, 1, Tickets(d, 2), {})
  }

  lemma EditBackStep(d: DeviceId)
    ensures Step(T0, MovedTo(d, Member(2, Static, 2), 2), Ending(d)[0]) == Draining(d, Links(2), {})
  {
    hide Links, Tickets;
  }

  lemma FirstDropStep(d: DeviceId)
    ensures Step(T0, Draining(d, Links(2), {}), Ending(d)[1]) == Draining(d, map[2 := None], {})
  {
    Unfolded(d);
    hide Tickets, Links;
    var two: map<LinkId, Option<nat>> := map[1 := None, 2 := None];
    assert two - {1} == map[2 := None] && 2 in two - {1};
  }

  lemma LastDropStep(d: DeviceId)
    ensures Step(T0, Draining(d, map[2 := None], {}), Ending(d)[2]) == Draining(d, map[], {Drain(d, 3, 0)})
  {
    hide Tickets, Links;
    var one: map<LinkId, Option<nat>> := map[2 := None];
    assert one - {2} == map[];
  }

  lemma FinalStep(d: DeviceId)
    ensures Step(T0, Draining(d, map[], {Drain(d, 3, 0)}), Ending(d)[3]) == Ended(d)
  {
    hide Tickets, Links;
    var s := Draining(d, map[], {Drain(d, 3, 0)});
    assert s.draining - {Drain(d, 3, 0)} == {};
    assert s.active - {3} == map[] && s.senders - {3} == map[] && s.traffic - {3} == map[];
  }

  /** The run is possible and ends with the session over. */
  lemma EndingRuns(d: DeviceId)
    ensures PossibleRun(T0, MovedTo(d, Member(2, Static, 2), 2), Ending(d))
    ensures Exec(T0, MovedTo(d, Member(2, Static, 2), 2), Ending(d)) == Ended(d)
  {
    Unfolded(d);
    hide Step, Links, Tickets;
    var es, s0 := Ending(d), MovedTo(d, Member(2, Static, 2), 2);
    assert es == [es[0]] + [es[1]] + [es[2]] + [es[3]];
    EditBackStep(d);
    FirstDropStep(d);
    LastDropStep(d);
    FinalStep(d);
    ExecOne(T0, s0, es[0]);
    ExecOne(T0, Draining(d, Links(2), {}), es[1]);
    ExecOne(T0, Draining(d, map[2 := None], {}), es[2]);
    ExecOne(T0, Draining(d, map[], {Drain(d, 3, 0)}), es[3]);
    ExecAppend(T0, s0, [es[0]], [es[1]]);
    ExecAppend(T0, s0, [es[0]] + [es[1]], [es[2]]);
    ExecAppend(T0, s0, [es[0]] + [es[1]] + [es[2]], [es[3]]);
  }

  // ---------- a release that deletes a live device ----------

  lemma ReleaseStep(d: DeviceId)
    ensures Step(T0, MovedTo(d, Member(2, Static, 2), 2), LateRelease(d)) == Orphan(d)
  {
    hide Links, Tickets;
  }

  /**
   A possible run that deletes a connected device: the late release finds no pool
   at 2 and removes the entry, although both links are live at 3.
   */
  lemma ReleaseCanOrphanLiveSession(d: DeviceId)
    ensures PossibleRun(T0, EMPTY, OrphaningRun(d))
    ensures Exec(T0, EMPTY, OrphaningRun(d)) == Orphan(d)
    ensures d !in Orphan(d).devices && Get(Orphan(d).active, 3) == Some(d)
    ensures PoolAt(Orphan(d), 3).Some? && PoolAt(Orphan(d), 3).value.links.Keys == {1, 2}
    ensures !Linked(Orphan(d))
  {
    hide Step, Approach;
    var s := MovedTo(d, Member(2, Static, 2), 2);
    ReleaseStep(d);
    BackEditRuns(d);
    ExecOne(T0, s, LateRelease(d));
    ExecAppend(T0, EMPTY, Approach(d) + [BackEdit(d)], [LateRelease(d)]);
    Unfolded(d);
    OrphanIsNotLinked(Orphan(d), 3);
  }

  // ---------- what follows from it ----------

  /** Removing the device then does nothing, and leaves it live. */
  lemma OrphanCannotBeRemoved(d: DeviceId)
    ensures RemoveDevice(Exec(T0, EMPTY, OrphaningRun(d)), d) == Orphan(d) && Occupies(Orphan(d), d, 3)
  {
    ReleaseCanOrphanLiveSession(d);
  }

  function Rejoined(d: DeviceId): State {
    Recreated(d).(pools := map[0 := Pool(d, LIVE, Links(3))], issued := Tickets(d, 3))
  }

  lemma RecreationStep(d: DeviceId)
    ensures Step(T0, Orphan(d), Recreation(d)) == Recreated(d)
  {
    hide Links, Tickets;
  }

  lemma ThirdLinkStep(d: DeviceId)
    ensures Register(T0, Recreated(d), ThirdLink(d).req, 3, Vnt, LIVE) == (Rejoined(d), Ok(Grant(3, None)))
  {
    hide AllocateIp, Attach;
    var s := Recreated(d);
    assert AddLink(s, d, 3, 3, LIVE).pools == map[0 := Pool(d, LIVE, Links(3))];
    assert AddLink(s, d, 3, 3, LIVE).issued == Tickets(d, 3);
  }

  /** A registration of the recreated device is granted and live, but its entry stays unconnected. */
  lemma RejoinStaysUnconnected(d: DeviceId)
    ensures PossibleRun(T0, EMPTY, OrphaningRun(d) + [Recreation(d)] + [ThirdLink(d)])
    ensures Exec(T0, EMPTY, OrphaningRun(d) + [Recreation(d)]) == Recreated(d)
    ensures Register(T0, Recreated(d), ThirdLink(d).req, 3, Vnt, LIVE) == (Rejoined(d), Ok(Grant(3, None)))
    ensures Get(Rejoined(d).active, 3) == Some(d) && d in Rejoined(d).devices && !Rejoined(d).devices[d].connected
  {
    RejoinIsPossible(d);
    RecreationStep(d);
    ThirdLinkStep(d);
    hide Step, OrphaningRun, Register;
    ReleaseCanOrphanLiveSession(d);
    ExecOne(T0, Orphan(d), Recreation(d));
    ExecAppend(T0, EMPTY, OrphaningRun(d), [Recreation(d)]);
    ExecOne(T0, Recreated(d), ThirdLink(d));
    ExecAppend(T0, EMPTY, OrphaningRun(d) + [Recreation(d)], [ThirdLink(d)]);
  }

  lemma RejoinIsPossible(d: DeviceId)
    ensures Possible(Orphan(d), Recreation(d)) && Possible(Recreated(d), ThirdLink(d))
  {
    Unfolded(d);
  }
}
