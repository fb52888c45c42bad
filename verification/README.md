# Verified model of the vnts server core

vnts is the server of a virtual private network. It leases addresses of a
virtual network to devices, keeps each device's live links, tells clients who is
online, pushes managed configurations, terminates IKEv2/ESP, and exchanges routes
with peer servers. This project models the stateful core of that server in Dafny
and proves what it promises over every run.

`dafny verify dfyconfig.toml` checks everything.

## What is proved

**Lease table** (`LeaseModel`, `LeaseInvariant`, `LeaseLinked`, `LeaseRuns`,
`LeaseProperties`, `LeaseEffects`, `LeaseEntries`, `LeaseIsolation`,
`LeaseWitnesses`, `SplitRelease`, `GapRuns`, `NetworkState`). Five linked maps and two version counters change
by ten kinds of events; a disconnect takes two, on a pool handle found at any
earlier time, with anything in between. Link pools live in a store and are named by
handles, so holders of one handle share one pool, as holders of one `Arc` do.

- From sound records, over *every* possible run: the index of configured
  addresses is the exact inverse of the entries, no address is occupied by two
  devices, no device is live at two addresses, only usable hosts are occupied.
- A registration succeeds exactly when the expected address can be had or the
  address may vary and a host is free; it gets the expected address or the lowest
  free host. A refused one changes nothing, although one check comes after the
  entry has already been updated: that check cannot fail in any reachable state.
- A device goes offline only when its pool at its live address is empty, whatever
  ran between the two stages of the disconnect.
- A run whose events do not concern a device leaves its entry, live address, links
  and byte counters untouched.
- For registration, re-addressing, edits, disconnects and releases: exactly when
  they take effect, what they write, and that a refusal names a true reason.
- The class `NetworkState` mutates the maps step by step, and each method is
  proved to be the step of the model.

**Delta synchronisation** (`DeltaSync`, `LiveReadings`,
`DeferredEdits`, `EditDelivery`). A client that holds the full list of some
version and applies one incremental reply after any run holds exactly the current
full list, unless a management edit silently changed the address of a connected
device that the client is shown.

**Behaviours that are not as promised.** For each there is a concrete run and an
exact condition.

1. `release_pre_registered_ip` (src/server/network_state_provider.rs:538-580) says
   it must not delete the registration of live links. It looks for links only at
   the address recorded in the session that ends. `ReleaseCanOrphanLiveSession`
   gives a possible run after which a device with two live links has no entry.
   `LinkedThroughoutIff` shows that entries and sessions agree throughout a run
   if and only if no release deletes a device that is live at another address.
   Two results depend on that guard: that a granted registration leaves the entry
   connected, and that a removal leaves nothing behind. Both are stated for every
   reachable state with their exact condition, and fail after that run.
   Everything else above holds with and without the guard.
2. The same release removes sender and counters after it has given up the lock
   (src/server/network_state_provider.rs:571-573). A newcomer that registers at the
   freed address in between loses its pool. `ReleaseGapIff` gives the condition for
   every run in between; `RejoinInGapIsLost` shows a client that joins the leftover
   pool and loses it.
3. An address edit of a connected device is not published at once.
   `StepIsConveyedIff` shows that exactly such edits make an incremental client
   differ from the full list, and `EditCanBeMissed` gives one. A client that was
   current while no edit was deferred is right again after every run that leaves
   none deferred. A client that took its list while an edit was deferred is not:
   an edit back to the live address is never published, and the client keeps the
   other address even after the session has ended (`EditBackIsNeverPublished`).
   `ReachableClientsIff` shows that this is the only case.
4. An acknowledgement checks its link before it reads the durable revision and
   not again (src/server/control_server/service.rs:907-945), so that of a replaced
   link can be written to the session that replaced it: `StaleAckIsApplied` and
   `StagedAckReachesHolderIff`. A registration reads the record and inserts the
   session without a lock (src/server/control_server/service.rs:786-811), so a
   device deleted and created anew in between is shown ahead of its record:
   `RecreatedDeviceIsAhead` and `BoundedThroughoutIff`.
5. A peer that lists one address twice in a response can replace another peer's
   faster route by a slower one: `TwiceListedLosesFaster`, `LostRouteIsDisplacedIff`.
6. A legacy managed record without a subscription server may change again on a
   second pass: `LegacyRecordChangesTwice`, `LegacyIsIdempotentIff`.

**Other components.** The anti-replay window refines a plain set (section 3.4.3 of
RFC 4303); fragment collection is complete exactly when every number has arrived
(section 2.6 of RFC 7383); the IKEv2 tables stay exact inverses and no packet is
accepted twice across rekeys; live subscription sessions never run ahead of the
durable revision; peer routes, route normalisation and longest-prefix lookup, the
canonical subnet snapshot and its hash input, the interval-cover sweep, the
canonical form of managed configurations, and the choice of a link for a payload.

## Model

| member | source | states |
|---|---|---|
| `LeaseRuns.AddressExclusivity` | src/server/network_state_provider.rs:669-1006 | from sound records, after any possible run, no two devices have one address configured or live, no device is live twice, every occupied address is a usable host, and the index is the exact inverse of the entries |
| `LeaseRuns.StepKeepsCore` | src/server/network_state_provider.rs:427-1006 | each of the ten events keeps the core invariant, with no guard on releases |
| `LeaseRuns.RunKeepsCore` | src/server/network_state_provider.rs:427-1006 | so does every run of possible events |
| `LeaseRuns.StepKeepsLinkedIff` | src/server/network_state_provider.rs:427-1006 | a possible step keeps "connected iff live, with its own counters" if and only if it is not a release that deletes a device live elsewhere |
| `LeaseRuns.LinkedThroughoutIff` | src/server/network_state_provider.rs:538-580 | entries and live sessions agree in all states of a run if and only if every release meets that guard |
| `LeaseRuns.RunKeepsInv` | src/server/network_state_provider.rs:427-1006 | a run whose releases meet the guard keeps the whole invariant |
| `LeaseRuns.ConnectedMeansLive` | src/server/network_state_provider.rs:965-1006 | over such runs a device is connected exactly while it is live, and each live address has a pool of that device and its own counters |
| `LiveReadings.ConnectedIsLive` | src/server/network_state_provider.rs:427-1006 | over every possible run, releases unguarded, a connected device is live somewhere |
| `LeaseInvariant.LoadSatisfiesCore` | src/server/network_state_provider.rs:1646-1702 | a table loaded from records with distinct devices and distinct usable addresses satisfies the invariant |
| `LeaseEntries.LoadKeepsRecords` | src/server/network_state_provider.rs:259-295 | loading keeps every field of every record, connects nobody and adds no device |
| `LeaseInvariant.AllocateIpGrants` | src/server/network_state_provider.rs:1386-1610 | every allocation either changes nothing or moves exactly the requesting device to a usable, conflict-free address and publishes it |
| `LeaseInvariant.DrainedAddress` | src/server/network_state_provider.rs:454-495 | if the pool being drained is still the one at its address, that address is the only live one of the session's device |
| `LeaseLinked.ReleaseKeepsLinkedIff` | src/server/network_state_provider.rs:538-580 | releasing a pre-registration keeps entries and sessions together if and only if it deletes no device live at another address |
| `LeaseWitnesses.ReleaseCanOrphanLiveSession` | src/server/network_state_provider.rs:538-580 | a concrete possible run in which a release deletes the entry of a device with two live links |
| `LeaseWitnesses.OrphanCannotBeRemoved` | src/server/network_state_provider.rs:512-533 | after that run, removing the device does nothing and it stays live |
| `LeaseWitnesses.RejoinStaysUnconnected` | src/server/network_state_provider.rs:954-964 | after that run, once the device is created again, a registration of the same client is granted and live while the entry stays unconnected |
| `LeaseProperties.LateOwnershipCheckPasses` | src/server/network_state_provider.rs:1417-1455 | the ownership check made after the entry was updated passes in every state satisfying the invariant |
| `LeaseProperties.RefusedRegistrationChangesNothing` | src/server/network_state_provider.rs:1417-1610 | a refused registration returns the state unchanged |
| `LeaseProperties.GrantedRegistrationIsLive` | src/server/network_state_provider.rs:946-1006 | in every reachable state, a granted registration makes the device live at the granted address, which it has configured, with the new link in the pool there; its entry is connected exactly if the link did not join the pool of an unconnected entry |
| `LeaseProperties.LinkedRegistrationConnects` | src/server/network_state_provider.rs:946-1006 | while entries and sessions agree, the device is always connected afterwards |
| `LeaseProperties.RegistrationGetsExpectedAddress` | src/server/network_state_provider.rs:1398-1485 | a Fixed device gets its own address; a request that may not vary gets what it asked for, or fails |
| `LeaseEffects.RegistrationSucceedsIff` | src/server/network_state_provider.rs:1386-1642 | success exactly when admitted and the expected address can be had, or it may vary and some host is free; the grant is the expected address if obtainable, else the lowest free host |
| `LeaseEntries.RegistrationAddress` | src/server/network_state_provider.rs:1398-1610 | for every admitted request, exactly when it is granted and which address: a Fixed device its own; any other the one it asks for if that can be had, its own if it asks for none, else, unless it insists, the lowest free host |
| `LeaseEntries.GrantedRegistrationWrites` | src/server/network_state_provider.rs:1424-1600 | a granted registration adds its link to the pool of its client run and leaves entries and other links alone, or opens a pool with this one link and writes session id, subnets, type and mode into the entry, keeping its address type, routes and counters |
| `LeaseEntries.RefusalIsTrue` | src/server/network_state_provider.rs:1398-1642 | a refused registration names a reason that holds, with the true owner of a taken address |
| `LeaseEntries.ReleaseUndoesRegistration` | src/server/network_state_provider.rs:538-580 | releasing a registration that opened its own pool leaves no entry, configured address, live address, sender or counters |
| `LeaseEntries.ReleaseDeletesIff` | src/server/network_state_provider.rs:545-562 | a release deletes its device exactly if that session registered it last, the address is still configured, and no other link is in a pool there; other entries stay |
| `LeaseEntries.SupersededReleaseIsHarmless` | src/server/network_state_provider.rs:545-562 | once the device has registered again, the release of an earlier session leaves its entry alone |
| `LeaseEffects.FastRegisterMovesSession` | src/server/network_state_provider.rs:805-883 | a move takes pool and counters from old to new address and configures it, nothing else changes; a refusal changes nothing |
| `LeaseEntries.FastRegisterSucceedsIff` | src/server/network_state_provider.rs:813-858 | a move succeeds exactly if the device is connected and its link is already at the new address, or is at the old one, the new one can be had and a Fixed device asks for its own |
| `LeaseEntries.MoveWrites` | src/server/network_state_provider.rs:860-875 | a move writes address and stamp into the entry and nothing else |
| `LeaseEntries.MoveRefusalIsTrue` | src/server/network_state_provider.rs:813-858 | a refused move names a reason that holds |
| `LeaseEffects.EditSucceedsIff` | src/server/network_state_provider.rs:669-776 | an edit is accepted exactly when nobody else occupies its usable address and the device exists as demanded; live sessions stay where they are |
| `LeaseEntries.EditWrites` | src/server/network_state_provider.rs:720-773 | an accepted edit writes address, address type (Static for WireGuard), the output subnets of the device's own type and the input routes; session, connection and counters stay, or are those of a new unconnected device |
| `LeaseEntries.EditPublishedIff` | src/server/network_state_provider.rs:684-719 | an accepted edit of a connected device is published exactly if it changes the routes of a WireGuard one, then with a full list; any other is published, with a full list exactly if it takes a published address away |
| `LeaseEntries.EditRefusalIsTrue` | src/server/control_server/service.rs:1567-1578 | a refused edit names a reason that holds |
| `LeaseEffects.ExpiryIsExact` | src/server/network_state_provider.rs:1322-1344 | expiry takes the address of exactly the listed, unconnected, Dynamic devices and reports each that had one once |
| `LeaseEffects.RemovalIsComplete` | src/server/network_state_provider.rs:512-533 | in every reachable state, a removed device occupies no address any more exactly if it had an entry or held no live address |
| `LeaseIsolation.StepLeavesOthersUndisturbed` | src/server/network_state_provider.rs:427-1006 | a step that does not concern a device keeps its entry, live addresses, links and counters |
| `LeaseIsolation.RunLeavesOthersUndisturbed` | src/server/network_state_provider.rs:427-1006 | the same for whole runs |
| `LeaseProperties.FinalizationIsExact` | src/server/network_state_provider.rs:454-495 | a successful finalisation had an empty pool at the device's one live address and removes exactly that address from the three live maps; otherwise nothing changes |
| `LeaseEntries.OfflineWrites` | src/server/network_state_provider.rs:1274-1301 | a disconnect is finalised exactly if the device has an entry and the pool is still at the address and empty; it marks the entry and keeps everything else of it |
| `LeaseEntries.DropTakesLinkOut` | src/server/network_state_provider.rs:98-106 | dropping a link takes out that link alone, and the last one lets the disconnect be finalised |
| `LeaseProperties.OnlyDrainedPoolsGoOffline` | src/server/network_state_provider.rs:427-495 | over all possible steps, a connected device goes offline only by finalising an empty pool at its live address |
| `LeaseProperties.LateFinalizationIsHarmless` | src/server/network_state_provider.rs:451-495 | after any run, finalising does nothing while the device has a link at its live address |
| `LeaseProperties.FixedAddressStays` | src/server/network_state_provider.rs:832-841 | no run without management of the device changes its Fixed address |
| `LeaseProperties.AllocationIsLeast` | src/server/network_state_provider.rs:1623-1642 | the host found is the lowest usable one not taken; a refusal means all are taken |
| `LeaseProperties.AllocationIsComplete` | src/server/network_state_provider.rs:1623-1642 | with fewer than 2^(32-p)-3 addresses taken a host is found |
| `LeaseProperties.NoExhaustionBelowCapacity` | src/server/network_state_provider.rs:1386-1642 | below that number no registration fails for want of an address |
| `LeaseProperties.GatewayGivesGoodTopology` | src/server/control_server/service.rs:73-104 | a gateway and prefix are admitted exactly when the gateway is a host of the truncated network and the prefix is at most 30 |
| `DeltaSync.DeltaRefinesFull` | src/server/network_state_provider.rs:1115-1221 | after any possible run without a missed edit, or beyond a full-sync version, one reply to the old version gives exactly the full list |
| `DeltaSync.FullListIsExact` | src/server/network_state_provider.rs:1187-1221 | the full list holds exactly the devices with an address other than the viewer's own and of a type it asked for, with their connection state |
| `DeltaSync.ReplyIsExact` | src/server/network_state_provider.rs:1115-1185 | nothing for the current version, the full list for one ahead or behind the last full synchronisation, else exactly the visible devices stamped since |
| `DeltaSync.ClientAheadIsReset` | src/server/network_state_provider.rs:1127-1156 | a client ahead of the server gets the full list |
| `DeltaSync.PollingStaysCurrent` | src/server/network_state_provider.rs:1115-1185 | a client polling after each of any number of such runs always holds the full list |
| `DeltaSync.StepConveyed` | src/server/network_state_provider.rs:606-1342 | every step but a missed edit either forces a full list or stamps all it changes for the viewer |
| `DeltaSync.StepIsConveyedIff` | src/server/network_state_provider.rs:700-718 | one step keeps an up-to-date client up to date if and only if it is not an update that moves a connected device the client is shown to another address it can have, with no route change |
| `DeferredEdits.EditCanBeMissed` | src/server/network_state_provider.rs:700-718 | a concrete possible run after which an up-to-date client polls and does not hold the full list |
| `DeferredEdits.SettlingIsPublished` | src/server/network_state_provider.rs:805-1006 | while such an edit is deferred, every step that takes it up or ends the session forces a full list, unless it is another silent edit |
| `DeferredEdits.RunSettlesPublished` | src/server/network_state_provider.rs:805-1006 | the same for whole runs without another silent edit of the device |
| `LiveReadings.StepIsSteady` | src/server/network_state_provider.rs:427-1006 | no possible step changes the address a device is read at (live while connected, configured otherwise), its type or its connection without a stamp, unless it forces a full list |
| `EditDelivery.EditsAreDelivered` | src/server/network_state_provider.rs:1115-1185 | a client that was current while no watched device had an edit deferred is exact after any possible run whose missed edits are of watched devices, any number of them and also back to the live address, or one is left deferred at the address it had |
| `EditDelivery.EditsAreDeliveredIff` | src/server/network_state_provider.rs:1115-1185 | that holds for all such runs if and only if none was deferred when the client was current |
| `EditDelivery.DeviceEditsAreDeliveredIff` | src/server/network_state_provider.rs:1115-1185 | for one shown device connected and live at an address: all runs whose missed edits are of it end exact or deferred there, if and only if that was its configured address when the client was current |
| `EditDelivery.ReachableClientsIff` | src/server/network_state_provider.rs:1115-1185 | in every reachable state: every possible run ends exact or with an edit deferred, if and only if no shown device has one deferred there |
| `EditDelivery.DeferredEditIsLost` | src/server/network_state_provider.rs:700-718 | from a client that was current while an edit was deferred, edits back to the live addresses leave its list wrong with nothing deferred |
| `EditDelivery.EditBackIsNeverPublished` | src/server/network_state_provider.rs:1288-1299 | a concrete possible run: the address is set back to the live one, the session ends, and the client still shows the device, online, at the other address |
| `NetworkStates.NetworkState.constructor` | src/server/network_state_provider.rs:1646-1702 | the loading loop builds the loaded table, valid for sound records |
| `LeaseEffects.ConflictingOwnerIsTheOther` | src/server/network_state_provider.rs:1365-1376 | in every reachable state the owner in conflict is exactly the other device that has the address configured or live, and there is none exactly if no other device has it |
| `NetworkStates.NetworkState.FindAvailableIp` | src/server/network_state_provider.rs:1623-1642 | the scan returns what the specification of the allocator says |
| `NetworkStates.NetworkState.AllocateIpAs` | src/server/network_state_provider.rs:1386-1610 | result and new state of an allocation, all branches |
| `NetworkStates.NetworkState.AllocateIpAndGetEntryAs` | src/server/network_state_provider.rs:946-1006 | link add or allocation with new pool; stays valid; unchanged on refusal |
| `NetworkStates.NetworkState.FastRegister` | src/server/network_state_provider.rs:805-883 | the re-addressing step; stays valid; unchanged on refusal |
| `NetworkStates.NetworkState.PoolHandle` | src/server/network_state_provider.rs:427-434 | the pool at the address when it is looked up, which belongs to the device live there |
| `NetworkStates.NetworkState.OfflineRemoveLink` | src/server/network_state_provider.rs:435-449 | first stage of a disconnect, on a handle found at any earlier time: the link leaves its pool, which is reported if now empty; stays valid |
| `NetworkStates.NetworkState.FinalizeOffline` | src/server/network_state_provider.rs:454-495 | second stage: takes effect only if the same, still empty pool is at the address |
| `NetworkStates.NetworkState.UpsertDeviceConfig` | src/server/network_state_provider.rs:669-776 | the management edit with its publication rule; unchanged on refusal |
| `NetworkStates.NetworkState.RemoveDevices` | src/server/network_state_provider.rs:1322-1344 | the expiry loop and the list of devices that gave up an address |
| `NetworkStates.NetworkState.RemoveDeviceFromMemory` | src/server/network_state_provider.rs:512-533 | removal from all maps with a full-sync version |
| `NetworkStates.NetworkState.ReleasePreRegisteredIp` | src/server/network_state_provider.rs:538-580 | the release with nothing between its two parts: valid afterwards; entries and sessions stay together exactly under the guard |
| `NetworkStates.NetworkState.ReleaseUnderLock` | src/server/network_state_provider.rs:545-569 | the part under the lock, and whether the removals are still to be made |
| `NetworkStates.NetworkState.SweepReleased` | src/server/network_state_provider.rs:571-573 | the removals after the lock: the table stays valid exactly if nobody is live at the address by then |
| `SplitRelease.SweepKeepsCoreIff` | src/server/network_state_provider.rs:571-573 | removing sender and counters keeps the invariant exactly if nobody is live at the address |
| `GapRuns.ReleaseGapIff` | src/server/network_state_provider.rs:545-573 | whatever runs between the two parts, unless another device joins what is left of the session, the removals leave a consistent table if and only if nobody is live at the address just before them |
| `GapRuns.RacingRegistrationIff` | src/server/network_state_provider.rs:545-573 | for one registration in between: exactly if it is not admitted, not grantable or its right address in the released table is another one |
| `GapRuns.GapGrantIsLiveIff` | src/server/network_state_provider.rs:954-964 | a registration granted in between makes its device live exactly if it did not join the leftover pool, which the removals then drop |
| `GapRuns.ForeignJoinBreaksGap` | src/server/network_state_provider.rs:954-964 | if another device with the same instance id joins the leftover pool, the removals leave an inconsistent table |
| `GapRuns.RejoinInGapIsLost` | src/server/network_state_provider.rs:545-573 | a concrete possible run in which the device is created again, its client is granted the address without being live, and loses its pool |
| `SplitRelease.NewcomerLosesPool` | src/server/network_state_provider.rs:545-573 | a concrete possible run in which a newcomer loses its pool that way |
| `SplitRelease.SenderRemovalKeepsCoreIff` | src/server/control_server/service.rs:1118-1129 | removing the sender at a session's recorded address keeps the invariant exactly if nobody is live there |
| `NetworkStates.NetworkState.UpdateManagedRuntimeMetadata` | src/server/network_state_provider.rs:590-617 | runtime metadata of a connected client is taken over and published |
| `NetworkStates.NetworkState.ConfirmRegistration` | src/server/network_state_provider.rs:886-905 | the first confirmation makes the device advertise and publishes it |
| `LeaseEntries.ConfirmAdvertises` | src/server/network_state_provider.rs:895-903 | the first confirmation makes the device advertise and is published; later ones change nothing |
| `LeaseEntries.ReportWrites` | src/server/network_state_provider.rs:598-616 | a report of a connected VNT device replaces its advertised subnets and is published; any other is ignored |
| `LinkPool.TrySend` | src/server/network_state_provider.rs:130-147 | the payload goes to exactly one accepting link of least latency, unknown counting as slowest, or nowhere when all refuse |
| `LinkPool.UnknownIsSlowest` | src/server/network_state_provider.rs:130-147 | a link of unknown latency counts as slower than any measured one, or as slow as the slowest |
| `InputRoutes.NormalizeSubnetConfig` | src/server/control_server/service.rs:1580-1619 | succeeds exactly on good targets, distinct truncated subnets and at most 254 entries; outputs are sorted, distinct and the same set; routes a sorted permutation |
| `InputRoutes.InputTarget` | src/server/network_state_provider.rs:923-943 | the scan returns the target of the longest matching route |
| `InputRoutes.LongestMatchIsLongest` | src/server/network_state_provider.rs:923-943 | the result matches and no match is longer; none means no match |
| `InputRoutes.TiesGoToTheLast` | src/server/network_state_provider.rs:923-943 | of equally long matches the last in the list counts |
| `InputRoutes.OneMatchPerLength` | src/server/control_server/service.rs:1580-1619 | in a normalised table at most one route per prefix length contains a destination |
| `InputRoutes.LookupIgnoresOrder` | src/server/network_state_provider.rs:923-943 | lookup depends only on the set of routes of a normalised table |
| `InputRoutes.FirstMatchIsLongest` | src/server/control_server/service.rs:1600-1619 | in the normalised order the first match is the longest |
| `ReplayWindows.PermitsIffInWindow` | src/server/ikev2.rs:90-99 | for a window standing for a set, a number is permitted iff it is positive, not in the set and above every member minus 64 |
| `ReplayWindows.RecordAddsToSet` | src/server/ikev2.rs:101-113 | recording a permitted number makes the window stand for the set with it added |
| `ReplayWindows.WindowRefinesSet` | src/server/ikev2.rs:857-881 | over any packet sequence the window accepts exactly what the plain set accepts, no number twice |
| `ReplayWindows.ReplayWindow.Permits` | src/server/ikev2.rs:90-99 | true exactly for the positive numbers not recorded yet and above every recorded one minus 64 |
| `ReplayWindows.ReplayWindow.Record` | src/server/ikev2.rs:101-113 | the set of recorded numbers grows by exactly this one, and the two words still stand for it |
| `Fragments.FragmentTable.CollectFragment` | src/server/ikev2.rs:406-475 | exactly which fragments are refused, that the set is handed out exactly when its numbers become 1 to total, each once, and what is stored otherwise |
| `Fragments.FullMeansAll` | src/server/ikev2.rs:445-462 | a set of distinct well-numbered fragments has total members iff its numbers are 1 to total |
| `Fragments.NumberingFormat` | src/server/ikev2.rs:415-417 | number and total are big-endian behind the IKE and payload headers |
| `Fragments.CompleteIffAllArrived` | src/server/ikev2.rs:415-469 | for any order and duplicates, collecting is complete iff every number has arrived |
| `Fragments.FragmentTable.Cleanup` | src/server/ikev2.rs:1244-1251 | exactly the sets that have not been touched for the timeout are forgotten; a duplicate fragment touches its set too |
| `IkeEngine.EngineStaysConsistent` | src/server/ikev2.rs:795-1276 | from an empty engine with fresh ids, both indexes stay exact inverses, one session per device, no (SPI, number) accepted twice |
| `IkeEngine.StepKeepsInv` | src/server/ikev2.rs:795-1276 | each of install, rekeys, packet, disconnect, delete and cleanup keeps the engine invariant |
| `IkeEngine.RunKeepsInv` | src/server/ikev2.rs:795-1276 | so does every run |
| `IkeEngine.AcceptedIsNew` | src/server/ikev2.rs:869-881 | a permitted number was never accepted before under the session's child SPI |
| `IkeEngine.Ikev2Engine.InstallEstablished` | src/server/ikev2.rs:795-855 | replaces the device's earlier session by the new one in all three tables |
| `IkeEngine.InstallTakesEffect` | src/server/ikev2.rs:795-855 | after an installation both kinds of SPIs lead to the new session, the only one of its device; sessions of other devices stay |
| `IkeEngine.Ikev2Engine.HandleRekey` | src/server/ikev2.rs:1097-1201 | for any outcome of opening, answering and sending: fails exactly if the SPIs are unknown or one of these fails; an IKE SA changes only once the response is out, a child SA before; always valid |
| `IkeEngine.IkeRekeyTakesEffect` | src/server/ikev2.rs:1135-1145 | after an IKE SA rekey the new SPIs, and no longer the old ones, lead to the session, which keeps child SA, owner and window; everything else is found as before |
| `IkeEngine.ChildRekeyTakesEffect` | src/server/ikev2.rs:1177-1187 | after a child SA rekey the new SPI, and no longer the old one, leads to the session, with a fresh window; everything else is found as before |
| `IkeEngine.Ikev2Engine.HandleEspPacket` | src/server/ikev2.rs:857-881 | accepts only numbers never accepted before under the SPI |
| `IkeEngine.PacketIsAcceptedIff` | src/server/ikev2.rs:857-881 | a packet is accepted exactly if its SPI leads to a session, it opens, and its number is in the window of what was accepted under that SPI; otherwise nothing changes |
| `IkeEngine.Ikev2Engine.DisconnectDevice` | src/server/ikev2.rs:1014-1050 | removes the device's session, and says whether there was one |
| `IkeEngine.Ikev2Engine.RemoveSession` | src/server/ikev2.rs:1264-1276 | removes one session from all three tables |
| `IkeEngine.RemovalTakesEffect` | src/server/ikev2.rs:1264-1276 | a removed session is found by nothing any more, every other one by all it was found by |
| `IkeEngine.Ikev2Engine.Cleanup` | src/server/ikev2.rs:1244-1262 | leaves exactly the sessions seen within the idle timeout |
| `Subscriptions.AppliedNeverAhead` | src/server/control_server/service.rs:159-229 | over any run whose registrations meet the guard, with registrations and acknowledgements in stages, no session's applied revision exceeds the durable one, so "applied" is shown exactly when they are equal |
| `Subscriptions.BoundedThroughoutIff` | src/server/control_server/service.rs:786-836 | sessions stay within their records throughout a run if and only if at every successful registration the record still exists and has reached the reported revision |
| `Subscriptions.NoDeletionIsGuarded` | src/server/control_server/service.rs:786-836 | every run without a device deletion meets that guard |
| `Subscriptions.RecreatedDeviceIsAhead` | src/server/control_server/service.rs:786-836 | a concrete possible run: the device is deleted and created anew between read and insert, and the session is shown as applied ahead of the new record |
| `Subscriptions.AppliedIsMonotone` | src/server/control_server/service.rs:170-176 | while one link stays registered its session's applied revision never decreases |
| `Subscriptions.OnlyCurrentAcksCount` | src/server/control_server/service.rs:890-962 | an uninterrupted acknowledgement changes a session only for the current revision through a held link, and no other session |
| `Subscriptions.AckIsAcceptedIff` | src/server/control_server/service.rs:907-962 | exactly when an acknowledgement is accepted; a refused, superseded or earlier one changes nothing |
| `Subscriptions.UninterruptedAck` | src/server/control_server/service.rs:907-962 | the stages of an acknowledgement, with nothing in between, are that one acknowledgement |
| `Subscriptions.StagedAckReachesHolderIff` | src/server/control_server/service.rs:907-957 | with any run between check and commit, the update reaches only a session holding the link if and only if the link was not evicted meanwhile or the session there is not one the acknowledgement changes |
| `Subscriptions.StaleAckIsApplied` | src/server/control_server/service.rs:907-957 | a concrete possible run in which the acknowledgement of a replaced link is written to the session that replaced it |
| `Subscriptions.HeldThroughoutIff` | src/server/control_server/service.rs:640-841 | a link is held after a run exactly if it was held before and no replacement, drop or deletion evicted it |
| `Subscriptions.CurrentAckIsShown` | src/server/control_server/service.rs:210-962 | a current acknowledgement through a held link is what the management view then shows |
| `Subscriptions.BumpMakesPending` | src/server/control_server/service.rs:212-229 | once the target moves on, earlier reports no longer count and the session is pending |
| `Subscriptions.LateDropIsHarmless` | src/server/control_server/service.rs:2662-2676 | a link that was or gets evicted is not held at the end of any run, and dropping it then changes nothing |
| `Subscriptions.ReconnectReplacesLink` | src/server/control_server/service.rs:778-841 | a successful reconnect holds the new link only, and the older connection's end leaves it alone |
| `Subscriptions.SubscriptionService.LookUpRecord` | src/server/control_server/service.rs:786-789 | the stage that reads the durable record |
| `Subscriptions.SubscriptionService.RegisterSubscriptionConnection` | src/server/control_server/service.rs:799-836 | the rest of the registration on a record read at any earlier time: three refusals, which change nothing; otherwise the session holds exactly the new link; sessions stay within their records exactly under the guard |
| `Subscriptions.SubscriptionService.AttachTrafficLink` | src/server/control_server/service.rs:576-684 | a traffic registration is refused for a revision ahead of the record or a failed allocation; without a record, or beside another instance, it goes on as an ordinary one; else it joins the session of the same client run, raising its applied revision to the maximum, or replaces it |
| `Subscriptions.TrafficRegistrationIff` | src/server/control_server/service.rs:576-684 | exactly when a traffic connection takes part in the session, registers as an ordinary one or is refused; links of one named client run gather in one session at the highest revision reported |
| `Subscriptions.SecondLinkJoins` | src/server/control_server/service.rs:650-662 | two traffic links of one client run share the session at the larger of their revisions |
| `Subscriptions.ControlRegistrationIff` | src/server/control_server/service.rs:799-836 | exactly when a control connection is accepted, why not otherwise, and what its session starts with |
| `Subscriptions.SubscriptionService.AcknowledgeSubscriptionConfig` | src/server/control_server/service.rs:890-962 | the uninterrupted handler with its refusals, which change nothing |
| `Subscriptions.SubscriptionService.CheckLink` | src/server/control_server/service.rs:907-933 | the stage that checks the link, the status and the metadata |
| `Subscriptions.SubscriptionService.ReadRevision` | src/server/control_server/service.rs:936-943 | the stage that reads the durable revision |
| `Subscriptions.SubscriptionService.Commit` | src/server/control_server/service.rs:944-957 | the stage that updates whatever session the device has by then; stays valid after any run in between |
| `Subscriptions.SubscriptionService.DropControlSession` | src/server/control_server/service.rs:2662-2676 | the link leaves its session, an empty session leaves the table |
| `Subscriptions.SubscriptionService.DeleteDeviceRecord` | src/server/control_server/service.rs:2159-2195 | refused exactly while the device is online; otherwise record and live session go together |
| `PeerRoutes.RunKeepsRoutes` | src/server/peer_server.rs:254-316 | over any run each address has one to five routes, at most one per peer, and a peer whose loop ended is never routed again |
| `PeerRoutes.UpdateIsGood` | src/server/peer_server.rs:699-718 | an update keeps one to five distinct peers, adds only the new route, and drops a route only for five at least as fast |
| `PeerRoutes.LatencyAddsUp` | src/server/peer_server.rs:136-138 | the total latency is the peer's last measured one, 10 if never measured, plus the reported one plus 2 |
| `PeerRoutes.PingCounts` | src/server/peer_server.rs:620-632 | a measurement counts at once for every route via the peer and for no other |
| `PeerRoutes.ResponseLeavesOthers` | src/server/peer_server.rs:651-730 | a response leaves the networks it does not report on as they are |
| `PeerRoutes.PeerRemovalIsExact` | src/server/peer_server.rs:752-762 | removing a peer takes away exactly its routes in every network; all others keep place and order |
| `PeerRoutes.SyncNetworkIsGood` | src/server/peer_server.rs:657-727 | after synchronising a network the peer is routed only to addresses it listed |
| `PeerRoutes.ListedClientIsRouted` | src/server/peer_server.rs:669-719 | every listed client is routed as last listed, unless five routes at least as fast are known |
| `PeerRoutes.ResponseIsExact` | src/server/peer_server.rs:651-730 | after a response the peer's routes in a network are to addresses of the last report on it, or the earlier ones if it was not reported on |
| `PeerRoutes.OtherRouteSurvives` | src/server/peer_server.rs:669-727 | another peer's route survives a response, or five routes are known of which those of other peers are at least as fast |
| `PeerRoutes.OnceListedKeepsFaster` | src/server/peer_server.rs:669-727 | if its address is listed at most once, it survives unless five routes at least as fast are known |
| `PeerRoutes.LostRouteIsDisplacedIff` | src/server/peer_server.rs:669-727 | a lost route gave way to five at least as fast exactly if the last listing of its address is at least as fast |
| `PeerRoutes.TwiceListedLosesFaster` | src/server/peer_server.rs:699-718 | a concrete response that lists an address twice and so replaces a faster route by a slower one |
| `PeerRoutes.EndLoopIsExact` | src/server/peer_server.rs:311-316 | at the end of a loop no route via the peer is left in any network and all others keep place and order |
| `PeerRoutes.PeerServerManager.HandleClientInfoResponse` | src/server/peer_server.rs:651-730 | the response handler refines the specification and keeps the invariant |
| `PeerRoutes.PeerServerManager.EndConnection` | src/server/peer_server.rs:732-750 | cleaning the reported networks removes the peer everywhere |
| `PeerRoutes.FindBestRoute` | src/server/peer_server.rs:894-935 | the first of the least-latency routes through connected peers, none iff no peer is connected |
| `SubnetSnapshot.CanonicalSubnetSnapshot` | src/server/peer_server.rs:1226-1251 | ascending nodes that list each subnet exactly at the smallest address advertising it |
| `SubnetSnapshot.SnapshotDependsOnPairs` | src/server/peer_server.rs:1226-1251 | the snapshot depends only on the set of (address, subnet) pairs |
| `SubnetSnapshot.SnapshotPreservesSubnets` | src/server/peer_server.rs:1226-1251 | exactly the advertised subnets are listed, each at one node |
| `SubnetSnapshot.SnapshotIsIdempotent` | src/server/peer_server.rs:1226-1251 | the snapshot of a snapshot is itself |
| `SubnetSnapshot.FeedHash` | src/server/peer_server.rs:1253-1262 | the updates feed the hash the encoding of the node list |
| `SubnetSnapshot.HashInputInjective` | src/server/peer_server.rs:1253-1262 | distinct node lists with 32-bit counts feed distinct bytes |
| `SubnetSnapshot.U32IsBigEndian` | src/server/peer_server.rs:1253-1262 | counts and addresses are fed most significant byte first |
| `SubnetSnapshot.HashInputFormat` | src/server/peer_server.rs:1253-1262 | the order in which counts, addresses and prefixes are fed |
| `CoverSweep.NetworkIsCovered` | src/managed_config.rs:522-547 | true iff every address of the network lies in some output, for any order, overlap or duplicates |
| `ManagedConfig.CanonicalIsFixedPoint` | src/managed_config.rs:552-684 | a table made for a non-empty subscription server is a fixed point of the stored form under that server |
| `ManagedConfig.CanonicalizeSucceedsIff` | src/managed_config.rs:552-603 | exactly when a configuration is accepted, and that it then holds the servers, the certificate mode and exactly the fields that are not the server's own |
| `ManagedConfig.StoredSucceedsIff` | src/managed_config.rs:606-684 | exactly when a stored configuration is accepted, with the recorded server first or the first listed one in its place |
| `ManagedConfig.StoredFields` | src/managed_config.rs:620-655 | a stored table lists strings as servers or none, and has the standard certificate mode by default |
| `ManagedConfig.StoredIsIdempotent` | src/managed_config.rs:606-684 | with a recorded server the stored form is idempotent |
| `ManagedConfig.LegacyIsIdempotentIff` | src/managed_config.rs:606-684 | without one, a second pass changes nothing exactly on the server lists of `SettlesAtOnce` |
| `ManagedConfig.LegacyRecordChangesTwice` | src/managed_config.rs:606-684 | a concrete table with three servers that both of two passes change |

## Left out

- Sockets, TLS, QUIC, TCP, WebSocket, HTTP, the web interface and SQL text: plumbing around the modelled operations.
- Cryptography: authentication results, opened packets, SPIs, random ids and SHA-256 are inputs; ids handed out are assumed new.
- Clocks: `now` is a parameter, and which leases are due is the caller's list, so `collect_expired_devices` is not modelled.
- Entry fields that no modelled decision reads (names, keys, IKEv2 input routes in the entry, capability flags, latency, byte counts) are dropped; counters are modelled by identity.
- Version counters are unbounded: wrap-around of 64-bit versions is not modelled, nor is overflow of the 32-bit latency sum.
- Delta synchronisation is per server lifetime, for a fixed viewer address and fixed flags.
- Lists of clients are modelled as sets: their order carries no meaning.
- `restore_device_config`, `restore_device_record` and `disconnect_subscription_session` are not steps of their own; device deletion removes record and session in one step, and what the removal of a sender does to the lease table is `SplitRelease.SenderRemovalKeepsCoreIff`.
- Subscriptions: in a traffic registration the check for another instance, the allocation and the update of the session are one step.
- Liveness: a link whose session holds an outdated address is not found by `offline_ip`, so only safety is stated.
- NetworkStates.NetworkState.ReleasePreRegisteredIp: runs of the lease table take the release as one step; runs between its two parts are the subject of `SplitRelease` and `GapRuns`, where other releases are again one step.
- NetworkStates.NetworkState.AllocateIpAndGetEntryAs: requires the unchanged client type and provisioning that src/server/control_server/service.rs:601-616 checks first; `LeaseModel.Register` models those checks as refusals.
- NetworkStates.NetworkState.UpsertDeviceConfig: requires the address that src/server/control_server/service.rs:1567-1578 checks first; `LeaseModel.UpsertDevice` models those checks as refusals.
- NetworkStates.NetworkState.constructor: is valid only for sound records, which the unique index at src/server/control_server/db.rs:375 and the topology guard at src/server/control_server/service.rs:1496-1508 provide.
- ReplayWindows.ReplayWindow.Record: requires a permitted number, as the ESP handler ensures; numbers are unbounded naturals instead of 32-bit ones.
- IkeEngine: half-open and EAP exchanges and the wire formats; whether a request opens, is answered and its response goes out are inputs.
- PeerRoutes: pulling, pinging and the signing of peer messages; a response is one step.
- ManagedConfig: the syntax of TOML, of endpoints and of advanced fields are parameters; the model works on parsed tables.
- SubnetSnapshot.HashInputInjective: the digest itself is not modelled.
- InputRoutes.NormalizeSubnetConfig: takes networks with prefixes up to 32 and 32-bit addresses, as the address library admits.
- `constant_time_hash_eq`, header bit setters, endpoint syntax and certificate handling: easy or dependent on libraries.
