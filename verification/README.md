# Verified models of the ESP-IDF Matter transports and services

A Dafny 4.11 model of the parts of `esp-idf-matter` whose correctness depends on the interplay of
several functions, of two threads, or of two systems, with proofs of what they keep.

* **BLE GATT transport.** Both peripherals (NimBLE and Bluedroid) and the NimBLE central. Two pumps run in
  one task, the host's hooks on another thread; a generation counter, a one-slot inbox, a one-in-flight
  flag and latched signals tie them together. Each side exists twice: as a class whose methods are the
  critical sections and hooks (`NimbleContext`, `BluedroidContext`, `CentralContext`), and as a labelled
  step system that interleaves the same sections (`NimblePeripheral`, `BluedroidPeripheral`, `Central`).
  The value-level sections (`NimbleState`, `BluedroidState`, `CentralState`) are what a method is proved
  against and what a step applies. Properties over whole runs are in `NimbleRuns`, `BluedroidRuns` and
  `CentralRuns`, and where the guarantees end, with runs that get there, in `NimbleLimits`,
  `BluedroidLimits` and `CentralLimits`. Both peripherals refine one abstract machine, `GattSession`.
* **SRP reconciliation** (`Srp`, against the slot-indexed client of `SrpClient`).
* **Interface addresses and the change-detecting cache** (`Netif`, `NetifCache`).
* **ICD keep-alive follower** (`Icd`, `IcdFollower`).
* **UTC clock across deep sleeps** (`SleepClock`, `SleepClockRuns`).
* **Codecs and the blob store** (`Bits`, `Codecs`, `Hex`, `Nvs`).

`dafny verify dfyconfig.toml` checks the whole project.

## How to read the step systems

A locked section of a pump is one step, except that NimBLE's outgoing section is cut where the lock-free
completion hook may get in between: after the engine produced a frame, after the `out_nack` store, while
`indicate` runs, and before it returns. A hook is its locked change, then its `out_nack` store, then its
signals, one step each. Parking a pump is a step of its own, so a signal may come between "nothing to do"
and the wait. Bluedroid's sections, signals included, run under one lock and are one step each; only the
answer to a CCCD write is sent after the lock is released.

The steps record history: the number of the connection, the connection for which the BTP engine was last
reset, the packets accepted, fed, emitted and answered. No step looks at that history, except that the
environment assumptions below are stated with it.

Assumptions on the environment, all in the `Enabled` predicates:

* The hooks of one host run one after the other.
* ATT is sequential: one request and one indication outstanding (Bluetooth Core Specification, Vol 3
  Part F, section 3.3.2).
* An indication completes at most once, and not after the Disconnect hook of its connection has begun or
  its peripheral was started anew. The completion hook does not look at the connection handle
  (src/ble/nimble.rs:462-473).
* Attribute handles are not zero.
* The BTP engine raises its ready bit whenever it comes to have data, a freshly reset engine has none, and
  a frame it produces fits the buffer. Signals and the ready bit stay up until they are waited for.
* `usize` is 32 bits wide, as on every ESP32. In Bluedroid `conn_gen += 1` wraps as in a release build; a
  build with overflow checks panics there instead.
* A task of a peripheral ends at a wait or with an error. It may be run again on the context as it is, or
  after a reset. A central client is run once per client object.
* The SRP server acknowledges only removals it was asked for; the client keeps a service under removal in
  its slot until then.
* The ICD's change notification stays up until it is waited for, and every change raises it.

## Results that are not "it holds"

The code is modelled as written. These properties hold only under a condition, or fail on a named input:

* `sync_btp` notices every change of connection exactly unless the counter came back to its old value, and
  there are paths on which it does (`NimbleLimits.SyncIsExact` and `WrapIsMissed`, the same in
  `BluedroidLimits`, and `NimbleState.SyncNoticesConnects`, `BluedroidState.SyncNoticesTurnovers`). Only
  session isolation, and the engine's session in the refinement, rest on that: they are stated of the runs
  (`IsRun`) with fewer than 2^32 connects (in Bluedroid: connects and disconnects) between two syncs.
  Everything else is stated of all paths (`IsPath`).
* NimBLE: a write whose data cannot be read leaves 512 zero bytes in `in_data`, unsignalled and answered with
  an error. If the incoming pump sleeps, or is about to, with no signal latched, it is stuck on them until
  its link or its task ends, and every later write is refused (`NimbleLimits.FailedReadStallsExactly`,
  `StuckIsReachable`, `StuckForGood`). Any other pump that has not stopped feeds the 512 zeros to BTP as a
  packet of the peer (`NimbleLimits.FailedReadIsFed`). So a connection's writes reach BTP exactly once
  precisely while no read of it has failed (`NimbleRuns.IncomingExactlyOnce`).
* NimBLE: a failed attempt to advertise is not retried (`NimbleLimits.AdvertisingIsNotRetried`,
  `SilentIsReachable`).
* Bluedroid: registering the interface or `C2` signals nobody. A step leaves the outgoing pump asleep on
  something to send exactly if it completes the service that way behind a pump that sleeps with no latch up
  (`BluedroidRuns.StrandsExactly`), which a run reaches if the live service is unregistered and registered
  again (`BluedroidLimits.StrandedIsReachable`). Nothing in the repository asks for that: it only registers
  the application (src/ble/bluedroid.rs:268), and adds the CCCD after `C2`. While no service is deleted or
  unregistered and the CCCD comes after the interface and `C2`, no step strands the pump and no wake-up is
  lost (`BluedroidRuns.OrderlyStrandsNothing`, `NoLostWakeupInService`).
* Bluedroid: a request of the live peer that neither changes the subscription nor carries 1 to 512 bytes to
  `C1` is never answered (`BluedroidLimits.UnansweredExactly`, `UnansweredIsReachable`, `UnansweredForGood`),
  and after a failed confirmation nothing is indicated until the link ends
  (`BluedroidLimits.FailedConfirmIsReachable`, `FailedConfirmForGood`).
* Bluedroid: if the stack refuses the response to a write the task ends with the bytes still in `in_data`; run
  again without a reset, it gives them to BTP a second time (`BluedroidLimits.FailedResponseRefeeds`).
* Central: the completion of a `C1` write is recognised exactly if the handle of `C1` is not that of `C2`
  plus one (`CentralLimits.CompletionClearsExactly`, `MistakenIsReachable`, `MistakenForGood`); a refused
  subscription waits until the link drops (`CentralLimits.RefusedIsReachable`, `RefusedForGood`).
* SRP: a target that passes the early exit is the registered set exactly if it names as many different
  services, as every duplicate-free target does (`Srp.EarlyExitIsSetEquality`, `Srp.DuplicateTargetIsMissed`).
* Address collection panics exactly if the preferred addresses and the others together exceed the capacity;
  it does not while the preferred readings are among all and those fit (`Netif.CollectIpv6`), which is not
  guaranteed when an address goes away between the two readings.
* The supervision check covers the supervision interval plus one poll exactly up to polls of 65406 s, and the
  second poll the comment at src/wireless/thread.rs:398-402 speaks of exactly up to 32703 s
  (`Icd.SupervisionCovers`).
* The clock survives a sleep exactly while both the Unix time saved and the Matter time restored fit 64 bits
  (`SleepClock.TimeSurvivesExactly`).

Where the code and its comments differ, the model follows the code: `set_utc_us` is described as when the
time was last set from a real source (examples/temp_sensor_battery_thread.rs:372-374), but what is stored is
the UTC at the sleep that ends the boot in which it was set (lines 529-532).

## Model

| member | source | states |
|---|---|---|
| GattSession.RunIsSound | src/ble/nimble.rs:124-137 | over every run of the abstract session: writes given to BTP are those accepted, in order, plus at most the one in the inbox; all but at most one indication have completed; a dead session holds nothing |
| GattSession.EmitsAreSeparated | src/ble/nimble.rs:145-150 | between two indications the first completes or its connection ends |
| NimbleContext.EspBtpGattContext.constructor | src/ble/nimble.rs:163-169 | a new context is the fresh one |
| NimbleContext.EspBtpGattContext.ResetContext | src/ble/nimble.rs:182-206 | drops the connection, the sync marker, both buffers, the flag and both signals; keeps the counter and the advertising request |
| NimbleContext.EspBtpGattContext.Sync | src/ble/nimble.rs:132-137 | resets the engine, before anything else is asked of it, exactly if it was not last reset for the current generation |
| NimbleContext.EspBtpGattContext.OnHostSync | src/ble/nimble.rs:296-303 | requests advertising and signals the outgoing pump |
| NimbleContext.EspBtpGattContext.OnConnect | src/ble/nimble.rs:312-348 | a failed attempt asks to advertise again; a connect takes the next generation, empties both buffers, starts unsubscribed, clears the flag and signals the incoming pump only |
| NimbleContext.EspBtpGattContext.OnDisconnect | src/ble/nimble.rs:349-366 | drops the connection and its data, requests advertising, clears the flag, signals both pumps |
| NimbleContext.EspBtpGattContext.OnMtu | src/ble/nimble.rs:367-379 | the MTU goes to the live connection of that handle only |
| NimbleContext.EspBtpGattContext.OnRegister | src/ble/nimble.rs:394-403 | learns the handle of `C2`, of nothing else |
| NimbleContext.EspBtpGattContext.OnWrite | src/ble/nimble.rs:405-427 | succeeds exactly if the inbox was empty and the data could be read, and then the inbox is the data and the pump is signalled; refused, a full inbox is untouched; a failed read leaves 512 zeros unsignalled |
| NimbleContext.EspBtpGattContext.OnSubscriptionChanged | src/ble/nimble.rs:432-460 | a change of `C2` sets the live connection's subscription if the handle is its own, and signals the outgoing pump |
| NimbleContext.EspBtpGattContext.OnNotifyComplete | src/ble/nimble.rs:462-473 | a completion of an indication with any status but 0, `BLE_HS_EDONE` included, clears the flag and signals; status 0 or a notification does nothing; no other field is touched |
| NimbleContext.EspBtpGattContext.ProcessIncoming | src/ble/nimble.rs:484-507 | with a connection: sync, then the whole inbox goes to the engine, with the MTU and peer of the connection, and is emptied only if taken; without, or with an empty inbox: nothing |
| NimbleContext.EspBtpGattContext.TakeNeedAdvertise | src/ble/nimble.rs:519-523 | hands out the request and clears it |
| NimbleContext.EspBtpGattContext.SendFrame | src/ble/nimble.rs:559-580 | marks the frame, then sends exactly it; a completion inside the send wins over the mark, a refused send clears it |
| NimbleContext.EspBtpGattContext.ProcessOutgoing | src/ble/nimble.rs:529-581 | sends exactly the engine's frame to the handle of the subscribed connection, on `C2`, exactly if it may with the flag clear; a completion inside the send wins over the mark, a refused send clears it |
| NimbleState.GenerationAfterConnects | src/ble/nimble.rs:329-341 | the counter after n connects, modulo its width; the sync marker is untouched |
| NimbleState.SyncNoticesConnects | src/ble/nimble.rs:124-137 | a section entered n connects after the last sync resets BTP exactly if n is not a multiple of 2^32 |
| NimblePeripheral.StartInv | src/ble/nimble.rs:98-110 | the invariant holds of a fresh context |
| NimblePeripheral.SyncedForLink | src/ble/nimble.rs:124-137 | within the width of the counter a synced engine is the live connection's |
| NimblePeripheral.SteadyPreserved | src/ble/nimble.rs:294-592 | every step of every hook and pump, a restart or rerun of the task included, keeps the generation, send window, flag, inbox, wake-up and advertising invariants, without any bound on the counter |
| NimblePeripheral.InvPreserved | src/ble/nimble.rs:124-137 | within the width of the counter every step also keeps each use of the engine, and the frame on its way, within the session of the live connection |
| NimbleRuns.PathIsSteady | src/ble/nimble.rs:246-290 | the unbounded invariants hold throughout every path, task restarts and reruns included |
| NimbleRuns.RunInv | src/ble/nimble.rs:246-290 | all invariants hold throughout every run within the width of the counter |
| NimbleRuns.ConnectAddsUp | src/ble/nimble.rs:312-348 | the micro-steps of a Connect hook, uninterrupted, amount to the method |
| NimbleRuns.DisconnectAddsUp | src/ble/nimble.rs:349-366 | the micro-steps of a Disconnect hook amount to the method |
| NimbleRuns.SendingAddsUp | src/ble/nimble.rs:559-580 | the micro-steps from the mark to the return of `indicate`, with or without a completion inside, amount to the method |
| NimbleRuns.Simulates | src/ble/nimble.rs:294-592 | every step of the peripheral is one step of the abstract session, or none, but for the session of the engine |
| NimbleRuns.EventIsTagged | src/ble/nimble.rs:124-137 | within the width of the counter the engine's session is the live connection's |
| NimbleRuns.PathRefinesSession | src/ble/nimble.rs:246-592 | but for the engine's session, every path of the peripheral shows a run of the abstract session |
| NimbleRuns.RunRefinesSession | src/ble/nimble.rs:246-592 | within the width of the counter every run shows a run of the abstract session, the engine's session included |
| NimbleRuns.RunIsSound | src/ble/nimble.rs:246-592 | every state of every path shows a sound session |
| NimbleRuns.IndicationsAreSeparated | src/ble/nimble.rs:145-150 | between two accepted indications of a path the first completes or its connection ends |
| NimbleRuns.NoLostWakeup | src/ble/nimble.rs:150-155 | a parked outgoing pump with advertising requested or something to send, and a parked incoming pump with a stored write of a live connection, can be woken or a hook still has the signal to give |
| NimbleRuns.StopAndWait | src/ble/nimble.rs:541-580 | outside the send and the tail of a Connect or Disconnect hook the flag is set exactly while an indication awaits completion; the late clear of a Connect hook happens with nothing in flight and nothing sendable |
| NimbleRuns.SessionIsolation | src/ble/nimble.rs:124-137 | every use of the engine in a run is within the session of the live connection, on bytes written during it |
| NimbleRuns.IncomingExactlyOnce | src/ble/nimble.rs:405-427 | on a live connection the non-empty writes answered with success are the bytes BTP was called with, write by write, followed by the one in the inbox, exactly if every read of the connection has succeeded; what waits in the inbox was written during it |
| NimbleRuns.NeverSilent | src/ble/nimble.rs:515-527 | synced, without a connection and unless the latest attempt failed, the node advertises or is about to |
| NimbleRuns.ContextFollows | src/ble/nimble.rs:294-478 | connection and `C2` handle change only as the hooks announce them; no pump touches them |
| NimbleRuns.ContextIsHeard | src/ble/nimble.rs:294-478 | over a run they are what the hooks were called with, in order |
| NimbleRuns.PumpsServeTheLink | src/ble/nimble.rs:484-569 | BTP is called exactly with a link and a full inbox, and then with all of it, the peer and the latest MTU announced; a frame goes whole to the announced handle, on the announced `C2`, only while subscribed |
| NimbleRuns.CompletionFrees | src/ble/nimble.rs:462-473 | with an indication in flight and no hook running, a completion with any status but 0 takes the flag down, leaves nothing in flight, and then signals the outgoing pump |
| NimbleRuns.CompletionInsideFrees | src/ble/nimble.rs:559-580 | so does one delivered while `indicate` runs |
| NimbleRuns.OtherReportsChangeNothing | src/ble/nimble.rs:462-473 | a report of status 0, or on a notification, changes nothing |
| NimbleRuns.TopSends | src/ble/nimble.rs:529-573 | from the top of its section the outgoing pump carries the engine's frame to the host stack |
| NimbleRuns.ParkedPumpSends | src/ble/nimble.rs:515-592 | a parked pump with something to send, no hook running, gets it out in its own steps |
| NimbleRuns.ParkedPumpFeeds | src/ble/nimble.rs:484-512 | a parked incoming pump with a write whose signal was given feeds it to BTP in its own steps |
| NimbleLimits.SyncIsExact | src/ble/nimble.rs:132-137 | anywhere on any path a sync leaves the engine with the live connection exactly unless the counter moved and is back at its old value |
| NimbleLimits.FirstLinkIsReachable | src/ble/nimble.rs:296-592 | a path from the host's sync over advertising and a connect to both pumps parked, the engine synced |
| NimbleLimits.WrapIsMissed | src/ble/nimble.rs:329-366 | a path of 2^32 rounds of a disconnect, new advertising by the pumps and a connect they do not get to see, after which the sync leaves the engine with an earlier connection |
| NimbleLimits.FailedReadStallsExactly | src/ble/nimble.rs:414-424 | a write leaves the incoming pump stuck exactly if its data cannot be read and the pump sleeps, or is about to, with no signal latched; what is left is 512 zeros |
| NimbleLimits.StuckIsReachable | src/ble/nimble.rs:414-424 | a path that leaves the pump parked on the zeros with nothing to wake it |
| NimbleLimits.FailedReadIsFed | src/ble/nimble.rs:414-424 | in every other state of a pump that has not stopped its next section feeds the 512 zeros to BTP, though no such write was answered with success |
| NimbleLimits.StuckStays | src/ble/nimble.rs:405-427 | a stuck pump takes and feeds nothing in any step that ends neither its link nor its task |
| NimbleLimits.StuckForGood | src/ble/nimble.rs:405-427 | over a run, nothing is taken or fed until the link or the task ends |
| NimbleLimits.AdvertisingIsNotRetried | src/ble/nimble.rs:517-527 | after an attempt to advertise the pump parks with nothing to wake it: discoverable exactly if the attempt succeeded |
| NimbleLimits.SilentIsReachable | src/ble/nimble.rs:517-527 | a path that leaves a synced node without a connection, not advertising, the pump parked with nothing to wake it |
| BluedroidContext.EspBtpGattContext.constructor | src/ble/bluedroid.rs:69-85 | a new context is the fresh one |
| BluedroidContext.EspBtpGattContext.ForgetService | src/ble/bluedroid.rs:160-164 | forgets the interface and all handles, nothing else |
| BluedroidContext.EspBtpGattContext.ForgetLink | src/ble/bluedroid.rs:165-168 | forgets the connection, the inbox and the flag, nothing else |
| BluedroidContext.EspBtpGattContext.ClearSignals | src/ble/bluedroid.rs:171-181 | clears both signals, nothing else |
| BluedroidContext.EspBtpGattContext.ResetContext | src/ble/bluedroid.rs:156-184 | forgets the service, the connection, the inbox, the flag and the signals; keeps the counter, the sync marker and the outgoing buffer |
| BluedroidContext.EspBtpGattContext.Sync | src/ble/bluedroid.rs:113-118 | resets the engine exactly if it was not last reset for the current generation |
| BluedroidContext.EspBtpGattContext.RegisterCharacteristic | src/ble/bluedroid.rs:667-702 | learns the handles of `C1` and `C2` of its own service; asks for a CCCD exactly for `C2` |
| BluedroidContext.EspBtpGattContext.RegisterCccdDescriptor | src/ble/bluedroid.rs:704-719 | learns the CCCD of its own service only |
| BluedroidContext.EspBtpGattContext.DeleteService | src/ble/bluedroid.rs:605-615 | deleting its service forgets the attribute handles |
| BluedroidContext.EspBtpGattContext.UnregisterService | src/ble/bluedroid.rs:617-626 | unregistering its service forgets the interface and the service |
| BluedroidContext.EspBtpGattContext.RegisterConnMtu | src/ble/bluedroid.rs:721-734 | the MTU goes to the connection of that id only |
| BluedroidContext.EspBtpGattContext.CreateConn | src/ble/bluedroid.rs:736-764 | takes a peer on exactly if there is none: next generation, empty inbox, flag clear, pump signalled |
| BluedroidContext.EspBtpGattContext.DeleteConn | src/ble/bluedroid.rs:766-787 | drops the connection exactly if the peer is its own, and takes the next generation |
| BluedroidContext.EspBtpGattContext.Write | src/ble/bluedroid.rs:789-858 | from the raw handles: answers at once exactly a CCCD write that changes the subscription, which `[2, 0]` turns on and any other two bytes off; a `C1` write replaces the inbox and its transaction and signals the pump, or empties it if too long; anything else changes nothing |
| BluedroidContext.EspBtpGattContext.OnConfirm | src/ble/bluedroid.rs:538-546 | only a successful confirmation clears the flag and signals |
| BluedroidContext.EspBtpGattContext.ProcessIncoming | src/ble/bluedroid.rs:284-321 | the whole inbox goes to the engine with the MTU and peer of the connection, then the response to that connection with its own transaction, then the inbox is emptied; a failure of either leaves it |
| BluedroidContext.EspBtpGattContext.SendFrame | src/ble/bluedroid.rs:373-387 | sends exactly the frame, and marks it only after an accepted send |
| BluedroidContext.EspBtpGattContext.ProcessOutgoing | src/ble/bluedroid.rs:330-391 | sends exactly the engine's frame on the interface, to the id of the subscribed connection and the handle of `C2`, only with the flag clear, and marks it after an accepted send |
| BluedroidState.GenerationAfterTurnovers | src/ble/bluedroid.rs:736-787 | the counter after n disconnects and connects in turn, modulo its width; the sync marker is untouched |
| BluedroidState.SyncNoticesTurnovers | src/ble/bluedroid.rs:105-118 | a section entered n of them after the last sync resets BTP exactly if n is not a multiple of 2^32, and with such an n there is a connection exactly if there was |
| BluedroidPeripheral.StartInv | src/ble/bluedroid.rs:69-85 | the invariant holds of a fresh context |
| BluedroidPeripheral.SyncedForLink | src/ble/bluedroid.rs:105-118 | within the width of the counter a synced engine is the live connection's |
| BluedroidPeripheral.IncomingPassShape | src/ble/bluedroid.rs:289-321 | an incoming section changes only the marker and the inbox, and empties that exactly when it answered |
| BluedroidPeripheral.OutgoingPassShape | src/ble/bluedroid.rs:335-391 | an outgoing section sends only what may be sent, sets the flag exactly then, and never feeds |
| BluedroidPeripheral.SteadyPreserved | src/ble/bluedroid.rs:284-858 | every event and every pump step, a restart or rerun of the task included, keeps the generation, flag, pairing and wake-up invariants, without any bound on the counter |
| BluedroidPeripheral.InvPreserved | src/ble/bluedroid.rs:105-118 | within the width of the counter every step also keeps each use of the engine within the session of the live connection |
| BluedroidRuns.PathIsSteady | src/ble/bluedroid.rs:230-278 | the unbounded invariants hold throughout every path, restarts and reruns included |
| BluedroidRuns.RunInv | src/ble/bluedroid.rs:230-278 | all invariants hold throughout every run within the width of the counter |
| BluedroidRuns.Simulates | src/ble/bluedroid.rs:284-858 | every step is one step of the same abstract session NimBLE refines, or none, but for the session of the engine |
| BluedroidRuns.EventIsTagged | src/ble/bluedroid.rs:105-118 | within the width of the counter the engine's session is the live connection's |
| BluedroidRuns.PathRefinesSession | src/ble/bluedroid.rs:230-858 | but for the engine's session, every path shows a run of the abstract session |
| BluedroidRuns.RunRefinesSession | src/ble/bluedroid.rs:230-858 | within the width of the counter every run shows a run of that session, the engine's session included |
| BluedroidRuns.RunIsSound | src/ble/bluedroid.rs:230-858 | every state of every path shows a sound session |
| BluedroidRuns.IndicationsAreSeparated | src/ble/bluedroid.rs:365-385 | between two indications of a path the first is confirmed or its connection ends |
| BluedroidRuns.SessionIsolation | src/ble/bluedroid.rs:105-118 | every use of the engine is within the session of the live connection, on bytes written during it |
| BluedroidRuns.StopAndWait | src/ble/bluedroid.rs:365-385 | on a live connection the flag is set exactly while an indication is unconfirmed or its confirmation failed |
| BluedroidRuns.StrandsExactly | src/ble/bluedroid.rs:577-702 | a step loses the outgoing pump's wake-up exactly if it supplies the interface or the `C2` handle that sending lacked, while the pump sleeps, no latch is up, and the subscribed link has something to send and nothing in flight |
| BluedroidRuns.NoLostWakeup | src/ble/bluedroid.rs:393-400 | a parked incoming pump with a write can be woken; so can a parked outgoing pump with something to send, unless it has slept ever since such a step |
| BluedroidRuns.OrderlyStrandsNothing | src/ble/bluedroid.rs:691-719 | while the service is set up in order and kept, a subscribed link implies the interface and `C2`, and no step strands the pump |
| BluedroidRuns.NoLostWakeupInService | src/ble/bluedroid.rs:393-400 | on such a path a parked outgoing pump with something to send can always be woken |
| BluedroidRuns.ParkedPumpAnswers | src/ble/bluedroid.rs:284-327 | a parked incoming pump with a write gets it to BTP and answered in its own steps |
| BluedroidRuns.ParkedPumpSends | src/ble/bluedroid.rs:330-402 | a parked outgoing pump with something to send and a latch up gets it out in its own steps |
| BluedroidRuns.WriteResponsePairing | src/ble/bluedroid.rs:289-321 | the k-th response carries the transaction of the k-th `C1` write of 1 to 512 bytes and follows its consumption; at most the outstanding one is still unanswered |
| BluedroidRuns.AnswersTheRequest | src/ble/bluedroid.rs:296-317 | a response is sent only after BTP took the bytes, to the outstanding request, on the connection that made it |
| BluedroidRuns.WriteIsTaken | src/ble/bluedroid.rs:831-846 | a write of the live connection to the handle of `C1`, not the CCCD's, is the next packet, with the pump signalled, exactly if it has 1 to 512 bytes |
| BluedroidRuns.ContextFollows | src/ble/bluedroid.rs:577-858 | the interface, the handles and the connection change only as the events announce them; no pump touches them |
| BluedroidRuns.ContextIsHeard | src/ble/bluedroid.rs:577-858 | over a path they are what the events were called with, in order |
| BluedroidRuns.IncomingServesTheLink | src/ble/bluedroid.rs:284-321 | BTP is called exactly with a link and a full inbox, and then with all of it, the peer and the latest MTU announced; the response goes on the announced interface, to the announced connection, with the transaction of the inbox |
| BluedroidRuns.OutgoingServesTheLink | src/ble/bluedroid.rs:330-391 | BTP is asked for a frame exactly with the service, a subscribed link and the flag clear, with the latest MTU; the frame goes whole on the announced interface, to the announced connection id and the announced `C2` handle |
| BluedroidRuns.C1WriteIsTaken | src/ble/bluedroid.rs:831-846 | a request of the announced connection at the announced `C1` handle, offset 0, of 1 to 512 bytes, becomes the next packet with its own transaction and the pump signalled |
| BluedroidRuns.OtherWritesAreNot | src/ble/bluedroid.rs:789-858 | at any other handle, connection or offset the inbox and the packets stay |
| BluedroidRuns.CccdWriteIsAnswered | src/ble/bluedroid.rs:815-830 | two bytes to the announced CCCD subscribe if they are `[2, 0]` and unsubscribe if anything else, and are answered, with their own transaction, exactly if that is a change |
| BluedroidLimits.UnansweredExactly | src/ble/bluedroid.rs:815-848 | an answer will be due exactly to two bytes to the CCCD that change the subscription, or 1 to 512 bytes to `C1` |
| BluedroidLimits.UnansweredIsReachable | src/ble/bluedroid.rs:815-830 | a path to a request with no answer due: subscribing once more |
| BluedroidLimits.UnansweredStays | src/ble/bluedroid.rs:815-848 | no step but the end of its link changes that a request is unanswered with no answer due |
| BluedroidLimits.UnansweredForGood | src/ble/bluedroid.rs:815-848 | over a run, it stays unanswered until its link ends |
| BluedroidLimits.FailedConfirmStalls | src/ble/bluedroid.rs:538-546 | after a failed confirmation nothing may be sent, and no step but the end of the link changes that |
| BluedroidLimits.FailedConfirmIsReachable | src/ble/bluedroid.rs:538-546 | a path to a failed confirmation of a live link |
| BluedroidLimits.FailedConfirmForGood | src/ble/bluedroid.rs:538-546 | over a run, nothing is sent until the link ends |
| BluedroidLimits.SessionsPreserved | src/ble/bluedroid.rs:736-787 | an engine synced before the latest connect or disconnect belongs to an earlier connection |
| BluedroidLimits.PathKeepsCount | src/ble/bluedroid.rs:105-118 | throughout any path, however long, the counters follow the true numbers of connects and disconnects, and an engine synced before the latest of them belongs to an earlier connection |
| BluedroidLimits.SyncIsExact | src/ble/bluedroid.rs:113-118 | anywhere on any path a sync leaves the engine with the live connection exactly unless the counter moved and is back at its old value |
| BluedroidLimits.WrapIsMissed | src/ble/bluedroid.rs:736-787 | a path that sets the service up, connects and syncs, and after 2^31 disconnects and connects the pumps sleep through leaves the engine with an earlier connection |
| BluedroidLimits.StrandedIsReachable | src/ble/bluedroid.rs:577-626 | a run that leaves the outgoing pump parked on something to send with nothing to wake it |
| BluedroidLimits.FailedResponseRefeeds | src/ble/bluedroid.rs:297-316 | after a response that fails, the task run again gives BTP the same bytes of the same peer a second time |
| CentralContext.EspBtpGattClientContext.constructor | src/ble/nimble.rs:736-753 | a new context is the fresh one |
| CentralContext.EspBtpGattClientContext.SetPeer | src/ble/nimble.rs:851-854 | a run starts with the address of the device it is to connect to |
| CentralContext.EspBtpGattClientContext.OnHostSync | src/ble/nimble.rs:942-949 | marks the host synced and signals the run |
| CentralContext.EspBtpGattClientContext.OnConnect | src/ble/nimble.rs:957-970 | records the handle, or the failure, and signals the run |
| CentralContext.EspBtpGattClientContext.OnDisconnect | src/ble/nimble.rs:971-976 | marks the failure and wakes the run and both pumps |
| CentralContext.EspBtpGattClientContext.OnMtu | src/ble/nimble.rs:977-984 | the MTU of the own connection only |
| CentralContext.EspBtpGattClientContext.OnService | src/ble/nimble.rs:998-1011 | keeps the Matter range; the end of discovery is marked and signalled |
| CentralContext.EspBtpGattClientContext.OnCharacteristic | src/ble/nimble.rs:1013-1026 | keeps the handles of `C1` and `C2`; the end of discovery is marked and signalled |
| CentralContext.EspBtpGattClientContext.OnWriteComplete | src/ble/nimble.rs:1028-1045 | the handle after `C2` sets the subscription by its status; otherwise that of `C1` frees the writer, whatever its status |
| CentralContext.EspBtpGattClientContext.OnNotify | src/ble/nimble.rs:1047-1066 | an indication of `C2` is kept only into an empty buffer and only if it can be read; the pump is signalled anyway |
| CentralContext.EspBtpGattClientContext.ProcessIncoming | src/ble/nimble.rs:1087-1108 | after a failure an error; otherwise the buffer goes whole to the engine and is emptied if taken |
| CentralContext.EspBtpGattClientContext.ProcessOutgoing | src/ble/nimble.rs:1118-1148 | after a failure an error; otherwise writes exactly the engine's frame to `C1`, only with none in flight |
| CentralState.PassShapes | src/ble/nimble.rs:1087-1148 | what the sections of the pumps may change, and when they feed or write |
| Central.StartInv | src/ble/nimble.rs:736-753 | the invariant holds of a fresh context |
| Central.InvPreserved | src/ble/nimble.rs:851-1160 | every hook, stage and pump step keeps the discovery order, the write accounting, the order of indications and the wake-ups |
| CentralRuns.RunInv | src/ble/nimble.rs:851-937 | the invariant holds throughout every run |
| CentralRuns.PumpsStartInOrder | src/ble/nimble.rs:865-937 | the pumps run only with the host in sync, a connection, both discoveries complete, a Matter range, both handles and a CCCD write that succeeded |
| CentralRuns.NothingBeforePumps | src/ble/nimble.rs:865-937 | nothing is written to `C1` or fed before |
| CentralRuns.OneWriteOutstanding | src/ble/nimble.rs:1116-1148 | at most one `C1` write is outstanding, and no other is made while one is |
| CentralRuns.FedInOrder | src/ble/nimble.rs:1047-1066 | the bytes BTP was called with are an in-order selection of the indications received, whole and unchanged |
| CentralRuns.FailedIsAbsorbing | src/ble/nimble.rs:971-976 | once failed, nothing is written or fed and no pump starts, for the rest of the run |
| CentralRuns.FailedWakesBoth | src/ble/nimble.rs:1089-1094 | once failed, each parked pump will be woken, and the next section of either ends the run |
| CentralRuns.NoLostWakeup | src/ble/nimble.rs:1077-1084 | a run blocked on a condition that holds, and a parked pump with work, can be woken or a hook still has the signal to give |
| CentralRuns.ContextFollows | src/ble/nimble.rs:941-1070 | what was discovered, the connection and its MTU change only as the hooks announce them; neither the run nor a pump touches them, and nothing changes the peer |
| CentralRuns.ContextIsHeard | src/ble/nimble.rs:941-1070 | over a run they are what the hooks were called with, in order |
| CentralRuns.PumpsServeTheLink | src/ble/nimble.rs:931-1148 | the pumps run on the announced connection and `C1`; BTP is called exactly with a full inbox and no failure, with all of it, the address the run was given and the latest MTU; what is written is the engine's frame |
| CentralLimits.CompletionClearsExactly | src/ble/nimble.rs:1036-1044 | a completed `C1` write frees the writer exactly if the handle of `C1` does not follow that of `C2` |
| CentralLimits.MistakenCompletionStalls | src/ble/nimble.rs:1036-1044 | otherwise no step frees the writer |
| CentralLimits.MistakenForGood | src/ble/nimble.rs:1036-1044 | over a run, nothing is ever written again |
| CentralLimits.MistakenIsReachable | src/ble/nimble.rs:1036-1044 | a run to that with the first write, for every pair of such handles |
| CentralLimits.RefusedSubscriptionHangs | src/ble/nimble.rs:917-924 | the run waits on a refused subscription exactly if the CCCD write completed with an error |
| CentralLimits.RefusedStays | src/ble/nimble.rs:917-924 | no step but the drop of the link ends that wait |
| CentralLimits.RefusedForGood | src/ble/nimble.rs:917-924 | over a run, it waits until the link drops |
| CentralLimits.RefusedIsReachable | src/ble/nimble.rs:917-924 | a run through the whole discovery to that wait, for any handles |
| CentralRuns.ParkedPumpFeeds | src/ble/nimble.rs:1087-1114 | a parked incoming pump with an indication feeds it to BTP in its own steps |
| CentralRuns.ParkedPumpWrites | src/ble/nimble.rs:1118-1158 | a parked outgoing pump with something to send writes it in its own steps |
| SrpClient.Client.Settle | src/thread.rs:816-838 | assumed of the stack: additions become registrations, and removals vanish only once acknowledged; nothing else changes |
| SrpClient.Client.AddService | src/thread.rs:1061-1063 | assumed of the stack: takes a slot that holds no live service and no unacknowledged removal, and disturbs no other |
| SrpClient.Client.RemoveService | src/thread.rs:1008-1018 | assumed of the stack: frees the slot at once, or marks it as being removed; other removals stay under way until acknowledged |
| SrpClient.Client.RemoveAll | src/thread.rs:774-786 | assumed of the stack: forgets every service without a word to the server |
| Srp.EarlyExitIsSetEquality | src/thread.rs:981-988 | by a pigeonhole, a target that passes the length-and-containment test is the registered set exactly if it names as many different services, as every duplicate-free one does; between duplicate-free lists the test is set equality |
| Srp.DuplicateTargetIsMissed | src/thread.rs:981-988 | a target with a duplicate that passes the test although a registered service has left it |
| Srp.AgreementSettles | src/thread.rs:741-797 | whatever the server acknowledges meanwhile, records and slots keep agreeing |
| Srp.RemovalAgrees | src/thread.rs:1008-1018 | taking the first record's slot out leaves the other records in agreement |
| Srp.AdditionAgrees | src/thread.rs:1020-1029 | a fresh slot for a service extends the agreement and leaves the other additions as they were |
| Srp.DrainWithdraws | src/thread.rs:1008-1018 | one removal withdraws its record if that left the target, and keeps the withdrawals before it |
| Srp.WithdrawalsStay | src/thread.rs:1020-1029 | what is withdrawn stays under removal until acknowledged, whatever is added |
| Srp.WithdrawalsAreRight | src/thread.rs:1008-1018 | the requests of a drain are withdrawals of services outside the target and drops of services in it, nothing else |
| Srp.UpdateAsks | src/thread.rs:1008-1029 | request by request: each record dropped if it stays and withdrawn if not, in the order of the records, then each service of the target added, in its order |
| Srp.OnlyLeftStays | src/thread.rs:816-838 | if all that is being removed was so before or is outside the target, an acknowledgement does not change that |
| Srp.Publisher.Register | src/thread.rs:1034-1064 | on success the service alone is added, in a slot no live service held |
| Srp.Publisher.DrainOne | src/thread.rs:1008-1018 | one registered entry is dropped or withdrawn as asked, of its own service; the others stay in agreement; a failure asks nothing of the client |
| Srp.Publisher.Drain | src/thread.rs:1008-1018 | afterwards no slot is live; whatever is withdrawn of the client is outside the target, whatever is dropped is in it, also if it fails half way; every service that left the target is in the removing state or acknowledged gone, as are the earlier removals, and nothing else is |
| Srp.Publisher.RegisterAll | src/thread.rs:1020-1029 | the records become the target in order, all freshly added, and agree with the client; pending removals stay in place; only a target over the capacity fails on it; after a failure the records made so far are still held |
| Srp.Publisher.UpdateServices | src/thread.rs:976-1032 | for any target, a success leaves the live slots exactly those of the records, distinct and each holding its own; the records are the target as a set if that is duplicate-free; nothing is asked of the client exactly if the test finds no change; otherwise everything kept or new is added afresh, and every service that left the target is in the removing state until acknowledged; no service of the target is withdrawn, and what is being removed was so before or is outside it; earlier removals are not lost; the capacity failures cannot occur for a target within capacity |
| Srp.Publisher.IsUnchanged | src/thread.rs:981-988 | the test of the early exit |
| Srp.Publisher.Rebuild | src/thread.rs:1001-1031 | behind the test: the records become the target in order, all freshly added; the rest of the above holds of it |
| Srp.Publisher.Restart | src/thread.rs:774-795 | on success both sides are empty, whatever was there before |
| Srp.Publisher.RegisterOnce | src/thread.rs:817-837 | on success records and client agree on the set when it waits; a constraint error means exactly that the set is too large |
| Srp.Publisher.RunRegister | src/thread.rs:815-839 | the same after every one of the sets announced so far |
| Srp.Publisher.Run | src/thread.rs:741-839 | whatever an earlier run left behind, records and client agree on the latest set each time it waits, and are that set if it is duplicate-free |
| Netif.ToAddrIsInvertible | src/netif.rs:353-361 | the raw words can be read back from the address, lowest octet first |
| Netif.DistinctRawsStayDistinct | src/netif.rs:353-361 | two raw addresses convert to the same address only if equal |
| Netif.EspIp6ToAddr | src/netif.rs:353-361 | the buffer loop yields the octets of the words in little-endian order |
| Netif.LinkLocalIsAPrefix | src/netif.rs:412-423 | link-local is the ten-bit prefix of fe80::/10 |
| Netif.ToAddrsKeepInclusion | src/netif.rs:353-361 | if the preferred readings are among all, so are the preferred addresses, each as often |
| Netif.UnseenIsTheRest | src/netif.rs:318-327 | the second pass adds exactly the addresses not yet there, each once |
| Netif.UnseenKeepsOrder | src/netif.rs:318-327 | ... in the order of the second reading |
| Netif.CollectedCovers | src/netif.rs:305-330 | the list covers exactly both sets, the preferred first |
| Netif.CollectedFits | src/netif.rs:305-330 | if the preferred are among all, the list is no longer than all and covers exactly those |
| Netif.CollectIpv6 | src/netif.rs:305-330 | the two loops produce that list, and panic exactly if it exceeds the capacity; not while the preferred readings are among all and those fit, and then the list covers exactly all |
| Netif.ThreadReportsPreferred | src/netif.rs:400-426 | a Thread interface reports a preferred address as soon as one is not link-local |
| Netif.ThreadAvoidsLinkLocal | src/netif.rs:400-426 | a Thread interface reports a link-local address only if it has no other, and one of its own if it has any |
| Netif.OthersReportLinkLocal | src/netif.rs:418-426 | any other interface reports a link-local address exactly if it has one, wherever in the list, and is operational exactly if up with one |
| Netif.ReportsTheFirst | src/netif.rs:400-426 | reported is the first routable address on Thread, the first link-local one elsewhere, whatever follows |
| Netif.ReportsWithoutOne | src/netif.rs:400-426 | without one, the first address there is on Thread, none elsewhere |
| Netif.OperationalExactly | src/netif.rs:363-369 | operational is connected, up and a reported IPv6 address with an octet that is not zero; for both protocols also a first IPv4 address with one |
| Netif.ReadingsDecide | src/netif.rs:400-426 | while the preferred readings are among all, the two readings decide what is reported: a preferred routable address for Thread if there is one, else any routable one; a link-local one elsewhere exactly if there is one |
| Netif.GetNetifConf | src/netif.rs:279-350 | the info carries the collected list; while the preferred readings are among all and those fit, it is made and covers exactly all |
| Netif.FindAddr | src/netif.rs:400-426 | the search yields the first address that is, or is not, link-local |
| Netif.ReportedIpv6 | src/netif.rs:279-426 | from the two readings to the reported address: a panic exactly if the list is too long, none while the preferred readings are among all and those fit, and the choice above whenever they are among all |
| NetifCache.OperationalAgrees | src/netif.rs:363-369 | the cached predicates agree with the direct ones on the reading they came from, and with its addresses themselves |
| NetifCache.ProjectionPicks | src/netif.rs:214-249 | what is cached of a reading: up only with the L2 state, a hardware address given apart over the info's, the first IPv4 address or none |
| NetifCache.ExportLoadsBack | src/netif.rs:174-200 | loading an export back is a no-op exactly if the cache is Thread's, or holds a link-local or no IPv6 address |
| NetifCache.EveryLoadIsWellKept | src/netif.rs:214-249 | which every reading leaves true |
| NetifCache.NetifInfoOwned.constructor | src/netif.rs:154-164 | a new cache is the fresh one |
| NetifCache.NetifInfoOwned.LoadFromInfo | src/netif.rs:214-249 | afterwards the cache is the reading's projection, and true is returned exactly if it was not before; it panics exactly on parts that do not fit |
| NetifCache.NetifInfoOwned.LoadAll | src/netif.rs:202-249 | over any sequence of readings each load reports a change exactly if its reading projects to something else than the one before; the cache shows the last, agrees with the direct predicates on it, and its export loads back as a no-op |
| NetifCache.NetifInfoOwned.WaitChanged | src/netif.rs:74-90 | returns at the first reading that differs from the cache, and not before; panics at the first that does not fit, if that comes sooner |
| Icd.ChildOutlivesPoll | src/wireless/thread.rs:385-393 | for every interval the child timeout exceeds the poll by at least 30 s, by less than 31 s unless it is the default, without saturating |
| Icd.SecondsCover | src/wireless/thread.rs:385-410 | a polling period is rounded up to the least whole seconds that cover it |
| Icd.SupervisionCovers | src/wireless/thread.rs:395-410 | the supervision timeout covers the interval plus one poll exactly up to 65406 s, plus two exactly up to 32703 s; it is 129 s plus two polls from 31 s to 32703 s, 190 s below and 65535 s above |
| Icd.ProgrammedKeepsAlive | src/wireless/thread.rs:333-356 | as programmed, the child timeout outlives the slowest poll by 30 s, by less than 31 s unless it is the default, and supervision follows the current poll: it covers it exactly up to 65406 s and is 129 s plus two of it from 31 s to 32703 s |
| Icd.ChangesAreExact | src/wireless/thread.rs:371-382 | the programmings are one each, in order, for exactly the readings that differ from the one before |
| Icd.ApplyIcdParams | src/wireless/thread.rs:333-356 | on success the radio has all three settings of the parameters |
| Icd.ConfigureSed | src/wireless/thread.rs:321-331 | on success the node is a sleepy end device with those settings |
| Icd.RunIcd | src/wireless/thread.rs:361-383 | the loop ends with the radio programmed for the last reading, one programming per change |
| IcdFollower.InvPreserved | src/wireless/thread.rs:371-382 | every step keeps the applied parameters those of the radio, and a stale one notified |
| IcdFollower.RunInv | src/wireless/thread.rs:371-382 | the same throughout every run |
| IcdFollower.RadioIsCurrent | src/wireless/thread.rs:358-383 | waiting with no notification pending, the radio is programmed for the current parameters; never twice in a row for the same |
| SleepClock.CodesRoundTrip | examples/temp_sensor_battery_thread.rs:568-574 | a saved granularity is read back, and no time as none |
| SleepClock.CodesAreRanked | examples/temp_sensor_battery_thread.rs:568-574 | the codes 1 to 4 are those of a known time, the finer the higher |
| SleepClock.TimeSurvivesExactly | examples/temp_sensor_battery_thread.rs:576-608 | epoch shift and split undo each other: the clock shows the time set plus what elapsed, exactly while the Unix time set and the Matter time shown fit 64 bits |
| SleepClock.Device.SetSystemTime | examples/temp_sensor_battery_thread.rs:594-608 | the system clock shows the time plus the Matter epoch, modulo 2^64, or is untouched on failure |
| SleepClock.Device.SaveClock | examples/temp_sensor_battery_thread.rs:515-546 | keeps granularity and, of a boot set from a real source, its UTC, else the earlier one; nothing if the time is unreliable or the clock could not be set |
| SleepClock.Device.RestoreClock | examples/temp_sensor_battery_thread.rs:563-592 | takes the time from the system clock, with the granularity kept, exactly if that is a known one and the clock is past the epoch |
| SleepClock.Device.TimeSyncDue | examples/temp_sensor_battery_thread.rs:548-561 | due exactly if the time is unreliable, none was kept, or it is more than 86400 s old |
| SleepClock.DeepSleepWhenIdle | examples/temp_sensor_battery_thread.rs:480-513 | sleeps in the first idle period that is a LIT's and still idle, for the shorter of poll and idle time but at least 1 s |
| SleepClockRuns.InvPreserved | examples/temp_sensor_battery_thread.rs:515-592 | every step keeps the slept clock in line with how the boots so far ended |
| SleepClockRuns.RunInv | examples/temp_sensor_battery_thread.rs:515-592 | the same throughout every run of boots and sleeps |
| SleepClockRuns.WakeRestoresTime | examples/temp_sensor_battery_thread.rs:515-608 | waking restores the time saved plus exactly the time slept, with the saved granularity stepped down once, exactly while both times fit 64 bits; and none if none was saved |
| SleepClockRuns.SyncDueExactly | examples/temp_sensor_battery_thread.rs:548-561 | a sync is due exactly if the time is unreliable, no boot ended with a real time since the clock was lost or the latest such boot ended at UTC zero, or more than 24 h have passed since the sleep that ended it |
| Codecs.PackedIsSum | src/thread.rs:1120-1123 | in range the three fields of a timestamp do not overlap |
| Codecs.PackedFits | src/thread.rs:1120-1123 | any packed timestamp fits 64 bits |
| Codecs.PackedIsInvertible | src/thread.rs:1120-1123 | packing is undone by unpacking exactly for 48-bit seconds and 15-bit ticks |
| Codecs.UnpackedIsInvertible | src/thread.rs:1120-1123 | every 64-bit value is one timestamp, packed |
| Codecs.PackedKeepsOrder | src/thread.rs:1120-1123 | packed timestamps compare as the fields do, seconds first |
| Codecs.FoldedBits | src/thread.rs:1127-1140 | flag i of the fold is bit i, and there is no other bit |
| Codecs.PolicyDecodes | src/thread.rs:1125-1142 | the nine flags and three version bits can be read back, the other bits are clear |
| Codecs.ChannelLands | src/thread.rs:516-521 | channel k is bit 7 - k mod 8 of byte k div 8 of the reported mask |
| Hex.PrintParses | src/thread.rs:760-772 | fixed-width hexadecimal is undone by parsing, and is of its width exactly while the number fits |
| Hex.PrintIsInjective | src/thread.rs:760-772 | two numbers print alike only if equal |
| Hex.PrintDigits | src/thread.rs:760-772 | character k is the digit of weight 16^(width-1-k), in the case asked for |
| Hex.HostNameIsInjective | src/thread.rs:759-772 | two nodes share a host name only if they share the EUI-64 |
| Hex.HostNameDigits | src/thread.rs:759-772 | byte k prints at characters 2k and 2k+1, the high half first, in upper case |
| Hex.HostNameFits | src/thread.rs:759-772 | the host name fits its 16 characters, so the `unwrap` cannot fail |
| Hex.OperationalLabelNames | src/thread.rs:882-890 | the label of fabric and node has 33 characters, a dash in the middle, and names exactly those two |
| Hex.OperationalLabelDigits | src/thread.rs:882-890 | on either side of the dash the sixteen digits, highest first, in upper case |
| Nvs.KeyStringIsExact | src/persist.rs:85-90 | every key prints to four characters, different keys differently |
| Nvs.KeyStringDigits | src/persist.rs:85-90 | they are its digits, highest first, in lower case |
| Nvs.ViewOfStore | src/persist.rs:57-71 | storing under the printed key is storing under the number |
| Nvs.ViewOfRemove | src/persist.rs:73-83 | removing the printed key is removing the number |
| Nvs.EspKvBlobStore.SKey | src/persist.rs:85-90 | the buffer holds the printed key, which fits |
| Nvs.EspKvBlobStore.Load | src/persist.rs:40-55 | a success is the blob of that number, or none; a blob larger than the buffer is an error |
| Nvs.EspKvBlobStore.Store | src/persist.rs:57-71 | the map over numbers is updated at that number, or unchanged on failure |
| Nvs.EspKvBlobStore.Remove | src/persist.rs:73-83 | the number leaves the map, or it is unchanged on failure |

## Left out

- The BTP protocol engine, Matter itself, the ICD manager, OpenThread, NimBLE, Bluedroid and NVS: their code is not in the repository. They appear as the operations and signals used, with any answer they may give.
- Endless loops and async control flow: a pump method is one pass of its loop, and the loop, the wait and the wake-up are steps. The central's `run` is a step machine only, and running one client object again is not modelled.
- Netif readings, ICD readings and service sets come as a list instead of from an endless loop; the properties hold for lists of any length.
- The engine may write into the outgoing buffer even when it produces no frame or fails; the model leaves the buffer as it was. Nothing reads it before the next frame is put there.
- Assembly of the advertising payload, device name and address set-up, connection parameters, and Bluedroid's own advertising calls: calls into the stack.
- Prepared writes, writes that need no response, and the attribute value Bluedroid echoes in its answer to a CCCD write: one branch each of the response call, which does not touch the state.
- The overflow of `c2_val + 1` for a characteristic at handle 65535.
- The zone of a raw lwIP address, which the conversion drops too.
- Creation of the GATT service in Bluedroid beyond the handles it yields.
- `LWIP_IPV6_NUM_ADDRESSES`, `MAX_MATTER_SERVICES` and the number of slots of the SRP client: their values are not in the repository, so they are parameters.
- How far setting the time steps its granularity down: done inside Matter, so an arbitrary function given to the restore. The Matter epoch is the one of the Matter specification, 2000-01-01.
- Hardware calls of the deep sleep; real time: timers are steps, clocks are counters that only grow.
- UDP sockets and multicast, Wi-Fi and Ethernet drivers and diagnostics, `NetCtl::connect` and `scan`, DNS resolve and browse beyond the instance label, Thread diagnostics beyond the packed fields, logging, and in-place initialisation: I/O or field copying with easy claims only.
- BluedroidRuns.WriteResponsePairing: counts the writes BTP consumed whose response the stack accepted; a response that fails ends the task, and `BluedroidLimits.FailedResponseRefeeds` says what a rerun makes of it.
