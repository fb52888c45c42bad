/** The tables of established IKEv2 sessions and the ESP packets they accept. */
module IkeEngine {
  import opened Wrappers
  import opened ReplayWindows

  type Spi = nat
  type SessionId = nat

  datatype IkeKey = IkeKey(initiator: nat, responder: nat)
  datatype Owner = Owner(network: string, device: string)

  datatype Established = Established(ikeKey: IkeKey, childSpi: Spi, owner: Owner, replay: Window, lastSeen: nat)

  /** One accepted ESP packet. */
  datatype Delivery = Delivery(spi: Spi, sequence: nat)

  /** `spent` and `log` are history: the child SPIs ever used and the packets accepted, in order. */
  datatype Tables = Tables(
    established: map<SessionId, Established>,
    esp: map<Spi, SessionId>,
    ike: map<IkeKey, SessionId>,
    spent: set<Spi>,
    log: seq<Delivery>)

  const NO_SESSIONS := Tables(map[], map[], map[], {}, [])
  const IDLE_TIMEOUT := 86400

  // ---------- steps ----------

  function RemoveEstablished(t: Tables, id: SessionId): Tables {
    if id !in t.established then t
    else
      t.(established := t.established - {id},
         esp := t.esp - {t.established[id].childSpi},
         ike := map k | k in t.ike && t.ike[k] != id :: t.ike[k])
  }

  /** The sessions of one device. */
  function SessionsOf(t: Tables, owner: Owner): set<SessionId> {
    set id | id in t.established && t.established[id].owner == owner
  }

  ghost function RemoveOwner(t: Tables, owner: Owner): Tables {
    if id :| id in SessionsOf(t, owner) then RemoveEstablished(t, id) else t
  }

  function InsertEstablished(t: Tables, id: SessionId, key: IkeKey, spi: Spi, owner: Owner, now: nat): Tables {
    t.(established := t.established[id := Established(key, spi, owner, FRESH, now)],
       esp := t.esp[spi := id],
       ike := t.ike[key := id],
       spent := t.spent + {spi})
  }

  /** The IKE SA is replaced; the session keeps its id and its child SA. */
  function RekeyIke(t: Tables, key: IkeKey, newKey: IkeKey, now: nat): Tables {
    if key !in t.ike || t.ike[key] !in t.established then t
    else
      var id := t.ike[key];
      t.(ike := (t.ike - {key})[newKey := id],
         established := t.established[id := t.established[id].(ikeKey := newKey, lastSeen := now)])
  }

  /** The child SA is replaced; its replay window starts afresh. */
  function RekeyChild(t: Tables, key: IkeKey, newSpi: Spi, now: nat): Tables {
    if key !in t.ike || t.ike[key] !in t.established then t
    else
      var id := t.ike[key];
      var e := t.established[id];
      t.(established := t.established[id := e.(childSpi := newSpi, replay := FRESH, lastSeen := now)],
         esp := (t.esp - {e.childSpi})[newSpi := id],
         spent := t.spent + {newSpi})
  }

  /** An ESP packet is looked up, checked against the window, opened, and only then recorded. */
  function HandleEsp(t: Tables, spi: Spi, p: Packet, now: nat): (Tables, bool) {
    if spi !in t.esp || t.esp[spi] !in t.established then (t, false)
    else
      var id := t.esp[spi];
      var e := t.established[id];
      var (w, ok) := Accept(e.replay, p);
      if !ok then (t, false)
      else
        (t.(established := t.established[id := e.(replay := w, lastSeen := now)],
            log := t.log + [Delivery(spi, p.sequence)]),
         true)
  }

  function RemoveEach(t: Tables, ids: seq<SessionId>): Tables
    decreases |ids|
  {
    if ids == [] then t else RemoveEstablished(RemoveEach(t, ids[..|ids| - 1]), ids[|ids| - 1])
  }

  // ---------- invariant ----------

  /** The ESP index is exactly the inverse of the sessions' child SPIs. */
  ghost predicate EspExact(established: map<SessionId, Established>, esp: map<Spi, SessionId>) {
    && (forall s <- esp :: esp[s] in established && established[esp[s]].childSpi == s)
    && (forall id <- established :: established[id].childSpi in esp && esp[established[id].childSpi] == id)
  }

  /** The IKE index is exactly the inverse of the sessions' current IKE SAs. */
  ghost predicate IkeExact(established: map<SessionId, Established>, ike: map<IkeKey, SessionId>) {
    && (forall k <- ike :: ike[k] in established && established[ike[k]].ikeKey == k)
    && (forall id <- established :: established[id].ikeKey in ike && ike[established[id].ikeKey] == id)
  }

  ghost predicate OnePerDevice(established: map<SessionId, Established>) {
    forall a, b :: a in established && b in established && established[a].owner == established[b].owner ==> a == b
  }

  function Seen(log: seq<Delivery>, spi: Spi): set<int> {
    set i | 0 <= i < |log| && log[i].spi == spi :: log[i].sequence
  }

  /** Every session's window stands for what was accepted under its child SPI. */
  ghost predicate WindowsExact(established: map<SessionId, Established>, log: seq<Delivery>) {
    forall id <- established :: Represents(established[id].replay, Seen(log, established[id].childSpi))
  }

  ghost predicate SpisSpent(t: Tables) {
    && (forall id <- t.established :: t.established[id].childSpi in t.spent)
    && (forall d <- t.log :: d.spi in t.spent)
  }

  ghost predicate NoReplay(log: seq<Delivery>) {
    forall i, j :: 0 <= i < j < |log| ==> log[i] != log[j]
  }

  ghost predicate Inv(t: Tables) {
    && EspExact(t.established, t.esp)
    && IkeExact(t.established, t.ike)
    && OnePerDevice(t.established)
    && WindowsExact(t.established, t.log)
    && SpisSpent(t)
    && NoReplay(t.log)
  }

  lemma RemoveKeepsIndexes(t: Tables, id: SessionId)
    requires EspExact(t.established, t.esp) && IkeExact(t.established, t.ike)
    ensures var t' := RemoveEstablished(t, id);
            EspExact(t'.established, t'.esp) && IkeExact(t'.established, t'.ike)
  {
  }

  lemma RemoveKeepsInv(t: Tables, id: SessionId)
    requires Inv(t)
    ensures Inv(RemoveEstablished(t, id))
  {
    hide Represents, EspExact, IkeExact, Seen;
    RemoveKeepsIndexes(t, id);
  }

  lemma {:induction false} RemoveEachKeepsInv(t: Tables, ids: seq<SessionId>)
    requires Inv(t)
    ensures Inv(RemoveEach(t, ids))
    decreases |ids|
  {
    hide Inv;
    if ids != [] {
      RemoveEachKeepsInv(t, ids[..|ids| - 1]);
      RemoveKeepsInv(RemoveEach(t, ids[..|ids| - 1]), ids[|ids| - 1]);
    }
  }

  lemma RemoveOwnerClears(t: Tables, owner: Owner)
    requires Inv(t)
    ensures Inv(RemoveOwner(t, owner)) && SessionsOf(RemoveOwner(t, owner), owner) == {}
  {
    hide Represents, EspExact, IkeExact, WindowsExact, SpisSpent, NoReplay;
    if id :| id in SessionsOf(t, owner) {
      forall other | other in SessionsOf(t, owner)
        ensures other == id
      {
      }
      RemoveKeepsInv(t, id);
    }
  }

  lemma UnusedSpiUnseen(log: seq<Delivery>, spi: Spi)
    requires forall d <- log :: d.spi != spi
    ensures Seen(log, spi) == {}
  {
  }

  /** Gives session `id` the child SPI of `e`, dropping the one it had. */
  lemma PutKeepsEsp(established: map<SessionId, Established>, esp: map<Spi, SessionId>, id: SessionId, e: Established)
    requires EspExact(established, esp)
    requires e.childSpi in esp ==> esp[e.childSpi] == id
    ensures var had := if id in established then {established[id].childSpi} else {};
            EspExact(established[id := e], (esp - had)[e.childSpi := id])
  {
  }

  lemma PutKeepsIke(established: map<SessionId, Established>, ike: map<IkeKey, SessionId>, id: SessionId,
                    e: Established)
    requires IkeExact(established, ike)
    requires e.ikeKey in ike ==> ike[e.ikeKey] == id
    ensures var had := if id in established then {established[id].ikeKey} else {};
            IkeExact(established[id := e], (ike - had)[e.ikeKey := id])
  {
  }

  lemma ReplaceKeepsEsp(established: map<SessionId, Established>, esp: map<Spi, SessionId>, id: SessionId,
                        e: Established)
    requires EspExact(established, esp) && id in established && e.childSpi == established[id].childSpi
    ensures EspExact(established[id := e], esp)
  {
  }

  lemma ReplaceKeepsIke(established: map<SessionId, Established>, ike: map<IkeKey, SessionId>, id: SessionId,
                        e: Established)
    requires IkeExact(established, ike) && id in established && e.ikeKey == established[id].ikeKey
    ensures IkeExact(established[id := e], ike)
  {
  }

  lemma PutKeepsRest(t: Tables, id: SessionId, e: Established, spent: set<Spi>)
    requires OnePerDevice(t.established) && WindowsExact(t.established, t.log) && SpisSpent(t)
    requires forall other :: other in t.established && other != id ==> t.established[other].owner != e.owner
    requires Represents(e.replay, Seen(t.log, e.childSpi))
    requires e.childSpi in spent && t.spent <= spent
    ensures OnePerDevice(t.established[id := e]) && WindowsExact(t.established[id := e], t.log)
    ensures SpisSpent(t.(established := t.established[id := e], spent := spent))
  {
    hide Represents, Seen;
  }

  lemma UnspentSpiIsFree(t: Tables, spi: Spi)
    requires EspExact(t.established, t.esp) && SpisSpent(t) && spi !in t.spent
    ensures spi !in t.esp && Represents(FRESH, Seen(t.log, spi))
  {
    UnusedSpiUnseen(t.log, spi);
    FreshRepresentsNothing();
  }

  lemma InsertKeepsInv(t: Tables, id: SessionId, key: IkeKey, spi: Spi, owner: Owner, now: nat)
    requires Inv(t)
    requires id !in t.established && key !in t.ike && spi !in t.spent && SessionsOf(t, owner) == {}
    ensures Inv(InsertEstablished(t, id, key, spi, owner, now))
  {
    hide EspExact, IkeExact, OnePerDevice, WindowsExact, SpisSpent, NoReplay, Represents;
    forall other | other in t.established
      ensures t.established[other].owner != owner
    {
      assert other !in SessionsOf(t, owner);
    }
    var e := Established(key, spi, owner, FRESH, now);
    UnspentSpiIsFree(t, spi);
    PutKeepsEsp(t.established, t.esp, id, e);
    PutKeepsIke(t.established, t.ike, id, e);
    PutKeepsRest(t, id, e, t.spent + {spi});
    assert t.esp - {} == t.esp && t.ike - {} == t.ike;
    SpentIgnoresIndexes(t.(established := t.established[id := e], spent := t.spent + {spi}),
                        InsertEstablished(t, id, key, spi, owner, now));
  }

  lemma SpentIgnoresIndexes(a: Tables, b: Tables)
    requires SpisSpent(a) && a.established == b.established && a.spent == b.spent && a.log == b.log
    ensures SpisSpent(b)
  {
  }

  lemma SessionAt(t: Tables, key: IkeKey)
    requires Inv(t) && key in t.ike
    ensures var id := t.ike[key];
            && id in t.established && t.established[id].ikeKey == key
            && Represents(t.established[id].replay, Seen(t.log, t.established[id].childSpi))
            && t.established[id].childSpi in t.spent
            && (forall other :: other in t.established && other != id ==>
                  t.established[other].owner != t.established[id].owner)
  {
    hide EspExact, NoReplay, Represents;
  }

  lemma RekeyIkeKeepsInv(t: Tables, key: IkeKey, newKey: IkeKey, now: nat)
    requires Inv(t) && newKey !in t.ike
    ensures Inv(RekeyIke(t, key, newKey, now))
  {
    hide EspExact, IkeExact, OnePerDevice, WindowsExact, SpisSpent, NoReplay, Represents;
    if key in t.ike {
      SessionAt(t, key);
      var id := t.ike[key];
      var e := t.established[id].(ikeKey := newKey, lastSeen := now);
      ReplaceKeepsEsp(t.established, t.esp, id, e);
      PutKeepsIke(t.established, t.ike, id, e);
      PutKeepsRest(t, id, e, t.spent);
      SpentIgnoresIndexes(t.(established := t.established[id := e], spent := t.spent), RekeyIke(t, key, newKey, now));
    }
  }

  lemma RekeyChildKeepsInv(t: Tables, key: IkeKey, newSpi: Spi, now: nat)
    requires Inv(t) && newSpi !in t.spent
    ensures Inv(RekeyChild(t, key, newSpi, now))
  {
    hide EspExact, IkeExact, OnePerDevice, WindowsExact, SpisSpent, NoReplay, Represents;
    if key in t.ike {
      SessionAt(t, key);
      UnspentSpiIsFree(t, newSpi);
      var id := t.ike[key];
      var e := t.established[id].(childSpi := newSpi, replay := FRESH, lastSeen := now);
      PutKeepsEsp(t.established, t.esp, id, e);
      ReplaceKeepsIke(t.established, t.ike, id, e);
      PutKeepsRest(t, id, e, t.spent + {newSpi});
      SpentIgnoresIndexes(t.(established := t.established[id := e], spent := t.spent + {newSpi}),
                          RekeyChild(t, key, newSpi, now));
    }
  }

  lemma SeenGrows(log: seq<Delivery>, d: Delivery, spi: Spi)
    ensures Seen(log + [d], spi) == if d.spi == spi then Seen(log, spi) + {d.sequence} else Seen(log, spi)
  {
    var log' := log + [d];
    assert forall i :: 0 <= i < |log| ==> log'[i] == log[i];
    assert log'[|log|] == d;
    forall n | n in Seen(log, spi)
      ensures n in Seen(log', spi)
    {
      var i :| 0 <= i < |log| && log[i].spi == spi && log[i].sequence == n;
      assert log'[i].sequence == n;
    }
    forall n | n in Seen(log', spi)
      ensures n in Seen(log, spi) || (d.spi == spi && n == d.sequence)
    {
      var i :| 0 <= i < |log'| && log'[i].spi == spi && log'[i].sequence == n;
    }
    if d.spi == spi {
      assert log'[|log|].sequence in Seen(log', spi);
    }
  }

  lemma DeliveryKeepsWindows(t: Tables, id: SessionId, e: Established, d: Delivery)
    requires EspExact(t.established, t.esp) && WindowsExact(t.established, t.log)
    requires id in t.established && e.childSpi == t.established[id].childSpi == d.spi
    requires Represents(e.replay, Seen(t.log, d.spi) + {d.sequence})
    ensures WindowsExact(t.established[id := e], t.log + [d])
  {
    hide Represents, Seen;
    var established' := t.established[id := e];
    forall other | other in established'
      ensures Represents(established'[other].replay, Seen(t.log + [d], established'[other].childSpi))
    {
      SeenGrows(t.log, d, established'[other].childSpi);
      if other != id {
        assert t.esp[established'[other].childSpi] == other;
        assert t.esp[d.spi] == id;
      }
    }
  }

  lemma EspKeepsInv(t: Tables, spi: Spi, p: Packet, now: nat)
    requires Inv(t)
    ensures Inv(HandleEsp(t, spi, p, now).0)
  {
    var (t', ok) := HandleEsp(t, spi, p, now);
    if ok {
      hide Represents, Window.Permits, Window.Record, Seen;
      var id := t.esp[spi];
      var e, d := t'.established[id], Delivery(spi, p.sequence);
      AcceptedIsNew(t, id, p);
      DeliveryIsFiled(t, id, e, d);
    }
    hide Inv;
  }

  lemma DeliveryIsFiled(t: Tables, id: SessionId, e: Established, d: Delivery)
    requires Inv(t) && id in t.established && d !in t.log
    requires e == t.established[id].(replay := e.replay, lastSeen := e.lastSeen) && e.childSpi == d.spi
    requires Represents(e.replay, Seen(t.log, d.spi) + {d.sequence})
    ensures Inv(t.(established := t.established[id := e], log := t.log + [d]))
  {
    assert d.spi in t.spent && OnePerDevice(t.established[id := e]) by {
      hide EspExact, IkeExact, WindowsExact, NoReplay, Represents;
    }
    hide EspExact, IkeExact, OnePerDevice, WindowsExact, Represents, Seen;
    ReplaceKeepsEsp(t.established, t.esp, id, e);
    ReplaceKeepsIke(t.established, t.ike, id, e);
    DeliveryKeepsWindows(t, id, e, d);
  }

  lemma AcceptedIsNew(t: Tables, id: SessionId, p: Packet)
    requires Inv(t) && id in t.established && t.established[id].replay.Permits(p.sequence)
    ensures var e := t.established[id];
            && Represents(e.replay.Record(p.sequence), Seen(t.log, e.childSpi) + {p.sequence})
            && Delivery(e.childSpi, p.sequence) !in t.log
  {
    var e := t.established[id];
    assert Represents(e.replay, Seen(t.log, e.childSpi));
    PermitsIffInWindow(e.replay, Seen(t.log, e.childSpi), p.sequence);
    RecordAddsToSet(e.replay, Seen(t.log, e.childSpi), p.sequence);
  }

  // ---------- runs ----------

  datatype Event =
    | Installed(id: SessionId, key: IkeKey, spi: Spi, owner: Owner, now: nat)
    | IkeRekeyed(key: IkeKey, newKey: IkeKey, now: nat)
    | ChildRekeyed(key: IkeKey, newSpi: Spi, now: nat)
    | EspArrived(spi: Spi, packet: Packet, now: nat)
    | DeviceDisconnected(owner: Owner)
    | PeerDeleted(key: IkeKey)
    | IdleCleaned(expired: seq<SessionId>)

  ghost function Step(t: Tables, e: Event): Tables {
    match e
    case Installed(id, key, spi, owner, now) => InsertEstablished(RemoveOwner(t, owner), id, key, spi, owner, now)
    case IkeRekeyed(key, newKey, now) => RekeyIke(t, key, newKey, now)
    case ChildRekeyed(key, newSpi, now) => RekeyChild(t, key, newSpi, now)
    case EspArrived(spi, packet, now) => HandleEsp(t, spi, packet, now).0
    case DeviceDisconnected(owner) => RemoveOwner(t, owner)
    case PeerDeleted(key) => if key in t.ike then RemoveEstablished(t, t.ike[key]) else t
    case IdleCleaned(expired) => RemoveEach(t, expired)
  }

  /** Random ids are new: session ids, IKE SPI pairs and child SPIs are not in use, child SPIs never were. */
  ghost predicate FreshIds(t: Tables, e: Event) {
    match e
    case Installed(id, key, spi, _, _) => id !in t.established && key !in t.ike && spi !in t.spent
    case IkeRekeyed(_, newKey, _) => newKey !in t.ike
    case ChildRekeyed(_, newSpi, _) => newSpi !in t.spent
    case _ => true
  }

  lemma StepKeepsInv(t: Tables, e: Event)
    requires Inv(t) && FreshIds(t, e)
    ensures Inv(Step(t, e))
  {
    match e
    case Installed(id, key, spi, owner, now) =>
      RemoveOwnerFrame(t, owner);
      hide Inv, RemoveOwner, InsertEstablished;
      RemoveOwnerClears(t, owner);
      InsertKeepsInv(RemoveOwner(t, owner), id, key, spi, owner, now);
    case IkeRekeyed(key, newKey, now) => hide Inv; RekeyIkeKeepsInv(t, key, newKey, now);
    case ChildRekeyed(key, newSpi, now) => hide Inv; RekeyChildKeepsInv(t, key, newSpi, now);
    case EspArrived(spi, packet, now) => hide Inv; EspKeepsInv(t, spi, packet, now);
    case DeviceDisconnected(owner) => hide Inv; RemoveOwnerClears(t, owner);
    case PeerDeleted(key) =>
      hide Inv;
      if key in t.ike {
        RemoveKeepsInv(t, t.ike[key]);
      }
    case IdleCleaned(expired) => hide Inv; RemoveEachKeepsInv(t, expired);
  }

  lemma RemoveOwnerFrame(t: Tables, owner: Owner)
    ensures var t' := RemoveOwner(t, owner);
            && t'.established.Keys <= t.established.Keys && t'.ike.Keys <= t.ike.Keys && t'.spent == t.spent
  {
  }

  ghost function Exec(t: Tables, events: seq<Event>): Tables
    decreases |events|
  {
    if events == [] then t else Exec(Step(t, events[0]), events[1..])
  }

  ghost predicate FreshRun(t: Tables, events: seq<Event>)
    decreases |events|
  {
    events != [] ==> FreshIds(t, events[0]) && FreshRun(Step(t, events[0]), events[1..])
  }

  lemma {:induction false} RunKeepsInv(t: Tables, events: seq<Event>)
    requires Inv(t) && FreshRun(t, events)
    ensures Inv(Exec(t, events))
    decreases |events|
  {
    hide Inv, Step;
    if events != [] {
      StepKeepsInv(t, events[0]);
      RunKeepsInv(Step(t, events[0]), events[1..]);
    }
  }

  /**
   From an empty engine and with fresh ids: both indexes stay exact, a device has
   at most one session, and no packet is accepted twice, across every rekey,
   disconnect and cleanup.
   */
  lemma EngineStaysConsistent(events: seq<Event>)
    requires FreshRun(NO_SESSIONS, events)
    ensures var t := Exec(NO_SESSIONS, events);
            && EspExact(t.established, t.esp)
            && IkeExact(t.established, t.ike)
            && OnePerDevice(t.established)
            && NoReplay(t.log)
  {
    RunKeepsInv(NO_SESSIONS, events);
  }

  // ---------- what each event achieves ----------

  /** The session that the SPIs of an IKE message lead to. */
  function SessionByKey(t: Tables, key: IkeKey): Option<Established> {
    if key in t.ike then Get(t.established, t.ike[key]) else None
  }

  /** The session that the SPI of an ESP packet leads to. */
  function SessionBySpi(t: Tables, spi: Spi): Option<Established> {
    if spi in t.esp then Get(t.established, t.esp[spi]) else None
  }

  /** Lookups by keys and SPIs other than the given ones lead to the same sessions as before. */
  ghost predicate SameElsewhere(t: Tables, t': Tables, keys: set<IkeKey>, spis: set<Spi>, id: SessionId) {
    && (forall k :: k !in keys ==> Get(t'.ike, k) == Get(t.ike, k))
    && (forall spi :: spi !in spis ==> Get(t'.esp, spi) == Get(t.esp, spi))
    && (forall other :: other != id ==> Get(t'.established, other) == Get(t.established, other))
  }

  /** After an IKE SA rekey the new SPIs, and no longer the old ones, lead to the session; its child SA stays. */
  lemma IkeRekeyTakesEffect(t: Tables, key: IkeKey, newKey: IkeKey, now: nat)
    requires Inv(t) && key in t.ike && newKey !in t.ike
    ensures var t' := RekeyIke(t, key, newKey, now);
            && SessionByKey(t, key).Some?
            && SessionByKey(t', newKey) == Some(SessionByKey(t, key).value.(ikeKey := newKey, lastSeen := now))
            && key !in t'.ike && t'.ike[newKey] == t.ike[key] && t'.esp == t.esp
            && SameElsewhere(t, t', {key, newKey}, {}, t.ike[key])
  {
    hide Inv;
    SessionAt(t, key);
    IkeRekeySparesOthers(t, key, newKey, now);
    hide SameElsewhere;
  }

  lemma IkeRekeySparesOthers(t: Tables, key: IkeKey, newKey: IkeKey, now: nat)
    requires key in t.ike
    ensures SameElsewhere(t, RekeyIke(t, key, newKey, now), {key, newKey}, {}, t.ike[key])
  {
  }

  /** After a child SA rekey the new SPI, and no longer the old one, leads to the session, with a fresh window. */
  lemma ChildRekeyTakesEffect(t: Tables, key: IkeKey, newSpi: Spi, now: nat)
    requires Inv(t) && key in t.ike && newSpi !in t.spent
    ensures var t' := RekeyChild(t, key, newSpi, now);
            && SessionByKey(t, key).Some?
            && var e := SessionByKey(t, key).value;
            && SessionBySpi(t', newSpi) == Some(e.(childSpi := newSpi, replay := FRESH, lastSeen := now))
            && SessionByKey(t', key) == SessionBySpi(t', newSpi)
            && e.childSpi !in t'.esp && t'.ike == t.ike
            && SameElsewhere(t, t', {}, {e.childSpi, newSpi}, t.ike[key])
  {
    hide Inv;
    SessionAt(t, key);
    SpentChild(t, t.ike[key]);
    ChildRekeySparesOthers(t, key, newSpi, now);
    hide SameElsewhere;
  }

  lemma ChildRekeySparesOthers(t: Tables, key: IkeKey, newSpi: Spi, now: nat)
    requires key in t.ike && t.ike[key] in t.established
    ensures var spi := t.established[t.ike[key]].childSpi;
            SameElsewhere(t, RekeyChild(t, key, newSpi, now), {}, {spi, newSpi}, t.ike[key])
  {
  }

  lemma SpentChild(t: Tables, id: SessionId)
    requires Inv(t) && id in t.established
    ensures t.established[id].childSpi in t.spent
  {
    hide EspExact, IkeExact, OnePerDevice, WindowsExact, NoReplay;
  }

  /** After an installation the SPIs of both kinds lead to the new session, the only one of its device. */
  lemma InstallTakesEffect(t: Tables, id: SessionId, key: IkeKey, spi: Spi, owner: Owner, now: nat)
    requires Inv(t) && FreshIds(t, Installed(id, key, spi, owner, now))
    ensures var t' := Step(t, Installed(id, key, spi, owner, now));
            && Get(t'.ike, key) == Some(id) && Get(t'.esp, spi) == Some(id)
            && Get(t'.established, id) == Some(Established(key, spi, owner, FRESH, now))
            && SessionsOf(t', owner) == {id}
            && (forall other :: other in t.established && t.established[other].owner != owner ==>
                  Get(t'.established, other) == Some(t.established[other]))
  {
    RemoveOwnerClears(t, owner);
    RemoveOwnerSpares(t, owner);
    hide Inv, RemoveOwner;
    var t1, t' := RemoveOwner(t, owner), Step(t, Installed(id, key, spi, owner, now));
    forall other | other in SessionsOf(t', owner)
      ensures other == id
    {
      assert other != id ==> other in SessionsOf(t1, owner);
    }
    assert id in SessionsOf(t', owner);
  }

  lemma RemoveOwnerSpares(t: Tables, owner: Owner)
    ensures forall other :: other in t.established && t.established[other].owner != owner ==>
              Get(RemoveOwner(t, owner).established, other) == Some(t.established[other])
  {
  }

  /** A removed session is found by nothing any more; every other one by all it was found by. */
  lemma RemovalTakesEffect(t: Tables, id: SessionId)
    requires Inv(t) && id in t.established
    ensures var t', e := RemoveEstablished(t, id), t.established[id];
            && id !in t'.established && e.childSpi !in t'.esp && e.ikeKey !in t'.ike
            && SameElsewhere(t, t', {e.ikeKey}, {e.childSpi}, id)
  {
    hide OnePerDevice, WindowsExact, SpisSpent, NoReplay;
  }

  /**
   A packet is accepted exactly if its SPI leads to a session, its number was not
   accepted under that SPI and is in the window, and it opens. It then shows the
   session alive; otherwise nothing changes.
   */
  lemma PacketIsAcceptedIff(t: Tables, spi: Spi, p: Packet, now: nat)
    requires Inv(t)
    ensures var (t', ok) := HandleEsp(t, spi, p, now);
            && (ok <==> spi in t.esp && p.opens && InWindow(Seen(t.log, spi), p.sequence))
            && (!ok ==> t' == t)
            && (ok ==>
                  && SessionBySpi(t', spi).Some? && SessionBySpi(t', spi).value.lastSeen == now
                  && t'.log == t.log + [Delivery(spi, p.sequence)]
                  && SameElsewhere(t, t', {}, {}, t.esp[spi]))
  {
    PacketSparesOthers(t, spi, p, now);
    hide SameElsewhere;
    if spi in t.esp {
      EspSession(t, spi);
      var e := t.established[t.esp[spi]];
      WindowOf(t, t.esp[spi]);
      hide Inv, Represents, InWindow, Window.Permits, Window.Record, Seen;
      PermitsIffInWindow(e.replay, Seen(t.log, spi), p.sequence);
    }
  }

  lemma PacketSparesOthers(t: Tables, spi: Spi, p: Packet, now: nat)
    ensures spi in t.esp ==> SameElsewhere(t, HandleEsp(t, spi, p, now).0, {}, {}, t.esp[spi])
  {
    hide Window.Permits, Window.Record;
  }

  lemma WindowOf(t: Tables, id: SessionId)
    requires Inv(t) && id in t.established
    ensures Represents(t.established[id].replay, Seen(t.log, t.established[id].childSpi))
  {
    hide EspExact, IkeExact, OnePerDevice, SpisSpent, NoReplay, Represents, Seen;
  }

  // ---------- the engine ----------

  class Ikev2Engine {
    var established: map<SessionId, Established>
    var espToSession: map<Spi, SessionId>
    var ikeToSession: map<IkeKey, SessionId>
    ghost var spent: set<Spi>
    ghost var log: seq<Delivery>

    ghost function View(): Tables
      reads this
    {
      Tables(established, espToSession, ikeToSession, spent, log)
    }

    ghost predicate Valid()
      reads this
    {
      Inv(View())
    }

    constructor ()
      ensures Valid() && View() == NO_SESSIONS
    {
      established, espToSession, ikeToSession := map[], map[], map[];
      spent, log := {}, [];
    }

    method RemoveSession(id: SessionId)
      requires Valid()
      modifies this
      ensures Valid() && View() == RemoveEstablished(old(View()), id)
    {
      hide Inv;
      RemoveKeepsInv(View(), id);
      if id in established {
        var gone := established[id];
        established := established - {id};
        espToSession := espToSession - {gone.childSpi};
        ikeToSession := map k | k in ikeToSession && ikeToSession[k] != id :: ikeToSession[k];
      }
    }

    /** Scans the sessions, in any order, for one of the given device. */
    method FindSession(owner: Owner) returns (found: Option<SessionId>)
      ensures found.Some? ==> found.value in SessionsOf(View(), owner)
      ensures found.None? ==> SessionsOf(View(), owner) == {}
    {
      var left := established.Keys;
      while left != {}
        invariant left <= established.Keys
        invariant forall id :: id in established && id !in left ==> established[id].owner != owner
        decreases left
      {
        var id :| id in left;
        if established[id].owner == owner {
          return Some(id);
        }
        left := left - {id};
      }
      found := None;
    }

    method DisconnectDevice(owner: Owner) returns (existed: bool)
      requires Valid()
      modifies this
      ensures Valid() && View() == RemoveOwner(old(View()), owner)
      ensures existed <==> SessionsOf(old(View()), owner) != {}
    {
      var found := FindSession(owner);
      existed := found.Some?;
      if existed {
        OnlySession(View(), owner, found.value);
        RemoveSession(found.value);
      }
    }

    /** A device that connects again replaces its earlier session. */
    method InstallEstablished(id: SessionId, key: IkeKey, spi: Spi, owner: Owner, now: nat)
      requires Valid() && FreshIds(View(), Installed(id, key, spi, owner, now))
      modifies this
      ensures Valid() && View() == Step(old(View()), Installed(id, key, spi, owner, now))
    {
      hide Inv;
      StepKeepsInv(View(), Installed(id, key, spi, owner, now));
      var _ := DisconnectDevice(owner);
      espToSession := espToSession[spi := id];
      ikeToSession := ikeToSession[key := id];
      established := established[id := Established(key, spi, owner, FRESH, now)];
      spent := spent + {spi};
    }

    /**
     CREATE_CHILD_SA: replaces the IKE SA or the child SA of the session found by
     its SPIs. `answered` says whether the request opens and a response can be
     built, `sent` whether that response goes out. An IKE SA changes only once the
     response is out; a child SA changes before.
     */
    method HandleRekey(key: IkeKey, ikeSa: bool, newKey: IkeKey, newSpi: Spi, answered: bool, sent: bool, now: nat)
      returns (ok: bool)
      requires Valid()
      requires if ikeSa then newKey !in ikeToSession else newSpi !in spent
      modifies this
      ensures Valid()
      ensures ok <==> key in old(ikeToSession) && answered && sent
      ensures View() ==
              if !answered || (ikeSa && !sent) then old(View())
              else if ikeSa then RekeyIke(old(View()), key, newKey, now)
              else RekeyChild(old(View()), key, newSpi, now)
    {
      hide Inv;
      if key !in ikeToSession || !answered {
        return false;
      }
      SessionAt(View(), key);
      hide Represents;
      if ikeSa {
        if !sent {
          return false;
        }
        ReplaceIkeSa(key, newKey, now);
      } else {
        ReplaceChildSa(key, newSpi, now);
      }
      ok := sent;
    }

    method ReplaceIkeSa(key: IkeKey, newKey: IkeKey, now: nat)
      requires Valid() && newKey !in ikeToSession
      requires key in ikeToSession && ikeToSession[key] in established
      modifies this
      ensures Valid() && View() == RekeyIke(old(View()), key, newKey, now)
    {
      hide Inv;
      RekeyIkeKeepsInv(View(), key, newKey, now);
      var id := ikeToSession[key];
      ikeToSession := ikeToSession - {key};
      ikeToSession := ikeToSession[newKey := id];
      established := established[id := established[id].(ikeKey := newKey, lastSeen := now)];
    }

    method ReplaceChildSa(key: IkeKey, newSpi: Spi, now: nat)
      requires Valid() && newSpi !in spent
      requires key in ikeToSession && ikeToSession[key] in established
      modifies this
      ensures Valid() && View() == RekeyChild(old(View()), key, newSpi, now)
    {
      hide Inv;
      RekeyChildKeepsInv(View(), key, newSpi, now);
      var id := ikeToSession[key];
      var oldSpi := established[id].childSpi;
      established := established[id := established[id].(childSpi := newSpi, replay := FRESH, lastSeen := now)];
      espToSession := espToSession - {oldSpi};
      espToSession := espToSession[newSpi := id];
      spent := spent + {newSpi};
    }

    /** Returns whether the packet was accepted; no (SPI, number) pair is accepted a second time. */
    method HandleEspPacket(spi: Spi, p: Packet, now: nat) returns (ok: bool)
      requires Valid()
      modifies this
      ensures Valid()
      ensures (View(), ok) == HandleEsp(old(View()), spi, p, now)
      ensures ok ==> Delivery(spi, p.sequence) !in old(log) && log == old(log) + [Delivery(spi, p.sequence)]
    {
      hide Inv, Window.Permits, Window.Record, Represents;
      ghost var t := View();
      EspKeepsInv(t, spi, p, now);
      if spi !in espToSession || espToSession[spi] !in established {
        return false;
      }
      var id := espToSession[spi];
      var e := established[id];
      if !e.replay.Permits(p.sequence) || !p.opens {
        return false;
      }
      AcceptedIsNew(t, id, p);
      EspSession(t, spi);
      established := established[id := e.(replay := e.replay.Record(p.sequence), lastSeen := now)];
      log := log + [Delivery(spi, p.sequence)];
      ok := true;
    }

    /** Removes the sessions that have been silent for a day. */
    method Cleanup(now: nat)
      requires Valid()
      modifies this
      ensures Valid()
      ensures established ==
              map id | id in old(established) && now - old(established)[id].lastSeen < IDLE_TIMEOUT ::
                old(established)[id]
      ensures spent == old(spent) && log == old(log)
    {
      hide Inv;
      var expired := set id | id in established && now - established[id].lastSeen >= IDLE_TIMEOUT;
      var left := expired;
      while left != {}
        invariant left <= expired
        invariant Valid()
        invariant established == old(established) - (expired - left)
        invariant spent == old(spent) && log == old(log)
        decreases left
      {
        var id :| id in left;
        RemoveSession(id);
        left := left - {id};
      }
      assert expired - left == expired;
    }
  }

  lemma EspSession(t: Tables, spi: Spi)
    requires Inv(t) && spi in t.esp
    ensures t.esp[spi] in t.established && t.established[t.esp[spi]].childSpi == spi
  {
    hide IkeExact, OnePerDevice, WindowsExact, SpisSpent, NoReplay;
  }

  lemma OnlySession(t: Tables, owner: Owner, id: SessionId)
    requires Inv(t) && id in SessionsOf(t, owner)
    ensures RemoveOwner(t, owner) == RemoveEstablished(t, id)
  {
    hide EspExact, IkeExact, WindowsExact, SpisSpent, NoReplay;
    assert forall other :: other in SessionsOf(t, owner) ==> other == id;
  }
}
