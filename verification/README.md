# A verified model of the WebRTC transport

The transport lets many WebRTC peers share one UDP socket. A dialer's certificate fingerprint travels
inside the ICE username of its first packet; the mux that owns the socket turns that username into a
multiaddress and sends it to the listeners; a listener upgrades the address to a connection; the two
ends then exchange fingerprints over an authenticated pipe. This project models the state and the
protocols of that path and proves what each of them keeps over whole runs.

| file | contents |
|---|---|
| `Text.dfy`, `Fingerprint.dfy`, `Addresses.dfy` | printers and parsers: colon hex, ufrags, usernames, multiaddresses |
| `MuxState.dfy` | the mux's shared state, the effect of each lock-delimited section, the operations they add up to |
| `UdpMux.dfy` | the mux as a class over heap-allocated connections that its two maps share, proved against those operations |
| `MuxRouting.dfy`, `ReportLog.dfy` | runs of operations, refined to a router that is a plain map from addresses to ufrags |
| `MuxFreeRuns.dfy` | runs in which removed connections may send too: exactly when the mux still is that router |
| `MuxWorker.dfy` | the worker's loop as a run of operations, and what stops it for good |
| `MuxTasks.dfy` | any number of calls, the worker and the watchers interleaved, one step for each lock acquisition and each section |
| `MuxTaskIndex.dfy`, `MuxTaskLocks.dfy`, `MuxTaskDrain.dfy`, `MuxTaskReports.dfy`, `MuxTaskWatch.dfy`, `MuxTaskConns.dfy`, `MuxTaskOwners.dfy` | what every interleaving keeps: index, locks, closing, reporting, watchers, connections |
| `MuxTaskRaces.dfy`, `MuxTaskTrace.dfy`, `MuxTaskClosers.dfy` | every field is touched under its own lock only; the history variables and what survives a close, said of the steps alone; one close drains |
| `MuxTaskAlone.dfy` | an uninterrupted task of the interleaved model is exactly one operation of the sequential one |
| `Handshake.dfy`, `Exchange.dfy`, `Sessions.dfy` | both ends of a connection attempt, the fingerprint exchange with short writes, and the two together |
| `Listener.dfy`, `ListenerRuns.dfy`, `Pipeline.dfy` | the listener stream, many listeners on one channel, and the mux and the listeners together |
| `Substreams.dfy`, `SubstreamRuns.dfy` | the channel map, the incoming queue and `close` of one connection |

## What the proofs showed

- The address index refines a last-writer-wins map from addresses to ufrags only while the connections
  that register are live in `conns`. Replacement compares ufrags, not identities (src/udp_mux.rs:339),
  and a removal goes by the removed connection's own set (src/udp_mux.rs:318), so a removed connection
  that sends again can break both halves of "removing `u` deletes exactly the routes of `u`".
  `MuxFreeRuns.RemovalMissesRoute` is a run after which a route of the removed ufrag is left, and
  `MuxFreeRuns.StaleSenderBreaksRouting` one in which another ufrag's route is deleted.
  `MuxState.RemoveDeletesRoutes` gives the exact condition for one removal: the routes of `u` are the routed
  addresses in the set of its live connection. `MuxFreeRuns.RouterExactlyWhenGuarded` gives it for whole
  runs with any senders: the mux is the router if and only if that held before every removal, and
  whenever a connection of the open mux sent to an address that was in its set already, the address was
  routed under its ufrag and not in `new_addrs`. That an entry's connection has the address in its own
  set needs no assumption (`MuxTaskIndex.EntriesBackedBySets`).
- A short write in the fingerprint exchange makes that side reject even an honest peer
  (`Exchange.VerdictExactly`), and if the other side wrote more it never gets to its comparison
  (`Exchange.ReadCanFinish`, `Exchange.StarvedForever`). `Exchange.ShortWriteRejects` is that run for every
  length of short write.
- All dialers of one listener name the same local ufrag, so a dialer's check is reported only while no
  connection is live under it (`Handshake.ReportedExactly`); otherwise it is routed to that connection
  (`Handshake.LiveUfragAbsorbsChecks`).
- A removal watcher goes by ufrag (src/udp_mux.rs:293-298). It removes its own connection if and only if no
  other removal of the ufrag and no drain came before it since the connection was created
  (`MuxTaskConns.OwnExactly`), and a successor if and only if the ufrag got a connection after the last of these
  (`MuxTaskConns.SuccessorExactly`; a run, `MuxTaskOwners.LateWatcherRemovesSuccessor`). Where nobody else removes and
  nobody closes, every watcher removes its own (`MuxTaskOwners.WatchersTakeOwn`).
- `hex_to_cow` unwraps. The worker panics exactly on a packet that no connection wants, from a source not
  yet reported, whose username has a last segment other than 64 hex digits
  (`MuxWorker.PanicsExactly`; one packet to a fresh mux, `MuxWorker.OnePacketStops`), and from then on no packet
  of the run is routed or reported (`MuxWorker.StoppedForGood`).
- `close` of a connection takes its lock twice. What it shuts down at the second it has not flushed in that
  poll if and only if it was handed out between the two (`SubstreamRuns.UnflushedExactly`); so it flushes
  everything before shutting it down if and only if nothing handed out in between is still mapped at the
  second lock (`SubstreamRuns.FlushedBeforeShutdownExactly`). `SubstreamRuns.UnflushedShutdown` is a run that does
  not.

## Assumptions

- A `UDPMuxConn` belongs to the ICE library. Its contract here: it inserts an address that is not yet in
  its own set and then calls `register_conn_for_address`, with at most one registration under way for
  each connection and address; closing it wakes its watcher.
- The runs of `MuxRouting.dfy` let only live connections send. Those of `MuxFreeRuns.dfy` and the interleaved
  model have no such restriction.
- In the interleaved model a read lock counts as an exclusive one: only the worker reads
  `address_map` and `new_addrs` without writing. The `conn.close()` calls of `close` belong to the
  step that takes `conns`.
- A successful or refused `try_send`, a readable socket, an expired `Delay`, a ready watcher and the
  answers of data channels come from the environment. Noise is a faithful first-in first-out byte pipe
  that yields a peer identity, and a side's own fingerprint has the form `fingerprint_to_string` prints.
- A substream is destroyed only by its owner, once. A detached channel is one object and is handed out at most
  once.

## Model

| member | source | states |
|---|---|---|
| `Text.SplitUndoesJoin` | src/udp_mux.rs:400-404 | splitting colon-free segments that were joined by colons gives the segments back |
| `Text.JoinUndoesSplit` | src/udp_mux.rs:400-404 | joining the segments of any string gives the string back, and every segment is colon-free |
| `Text.SplitAtSeparator` | src/udp_mux.rs:400-404 | a username splits into the segments left of any colon followed by those right of it |
| `Text.StripOfConcat` | src/transport.rs:578 | removing colons distributes over concatenation |
| `Fingerprint.PrintedLength` | src/transport.rs:548-551 | every printed fingerprint has 95 characters |
| `Fingerprint.PrintedForm` | src/transport.rs:548-551 | character by character: two lower-case digits for each byte, high half first, a colon between each two bytes |
| `Fingerprint.UfragForm` | src/transport.rs:578 | the same digits with nothing between them |
| `Fingerprint.HexEncodeShape` | src/udp_mux.rs:365-369 | two hex digits a byte, no colon, and decoding gives the bytes back |
| `Fingerprint.EncodeUndoesDecode` | src/udp_mux.rs:365-369 | encoding what was decoded gives the digits back in lower case |
| `Fingerprint.HexDecodeDomain` | src/udp_mux.rs:365-369 | decoding succeeds exactly on an even number of hex digits, half as many bytes |
| `Fingerprint.HexToHashDomain` | src/udp_mux.rs:365-369 | the 32-byte decoder returns exactly on 64 hex digits and panics on every other string |
| `Fingerprint.HexToHashValue` | src/udp_mux.rs:365-369 | the bytes it returns have the string's own digits, in lower case |
| `Fingerprint.UfragDecodes` | src/transport.rs:548-551 | printing and stripping colons gives 64 colon-free digits that decode to the same 32 bytes |
| `Fingerprint.UfragIsInjective` | src/transport.rs:578-579 | neither the printed form nor the ufrag identifies two fingerprints |
| `Addresses.MultiaddrToSocketaddr` | src/transport.rs:523-545 | the scan succeeds exactly on ip, udp, x-webrtc and any number of p2p parts, with that ip and port |
| `Addresses.FingerprintFromAddr` | src/transport.rs:596-605 | the scan returns the first x-webrtc part, and None exactly when there is none |
| `Addresses.GrammarInverse` | src/transport.rs:523-545 | the accepted addresses are exactly the printed ones, and parsing inverts printing |
| `Addresses.OneFingerprint` | src/transport.rs:596-605 | an accepted address has one x-webrtc part, the third, and it is the last part exactly without p2p parts |
| `Addresses.DialAndUpgradeGrammars` | src/upgrade.rs:57-81 | the upgrade accepts exactly the addresses the mux can report; none can be dialled; a diallable address extends one |
| `Addresses.ReportedAddrAccepted` | src/udp_mux.rs:192-195 | the reported address is accepted by the upgrade and parses back to the packet's source and fingerprint |
| `Addresses.ConversionsExactly` | src/transport.rs:492-494 | ip and socket addresses to components and back, component by component for both families |
| `Addresses.LastPeerExactly` | src/transport.rs:472-473 | the dialled peer, and the upgrade's fingerprint, are named by the last component and by no other |
| `MuxState.GetConnKeeps` | src/udp_mux.rs:276-304 | `get_conn` keeps the index invariant and the agreement of the two indexes |
| `MuxState.RemoveKeeps` | src/udp_mux.rs:306-322 | so does a removal |
| `MuxState.SendToEffect` | src/udp_mux.rs:327-353 | a first send, field by field: who gets the entry, who loses the address, what is forgotten |
| `MuxState.RegisterEffect` | src/udp_mux.rs:327-353 | a registration, field by field |
| `MuxState.RegisterKeeps` | src/udp_mux.rs:327-353 | a registration by any connection, live or not, keeps the index invariant |
| `MuxState.SendToKeeps` | src/udp_mux.rs:327-353 | a send by any connection keeps the index invariant, and by a live one the agreement |
| `MuxState.CloseKeeps` | src/udp_mux.rs:234-274 | closing keeps both |
| `MuxState.ReceiveKeeps` | src/udp_mux.rs:166-214 | so does one packet, whatever the worker does with it |
| `MuxState.AgreementMeans` | src/udp_mux.rs:310-344 | for a live connection: an address is in its set if and only if the entry is it; live sets are disjoint; every entry is a value of `conns` |
| `MuxState.RemovedSender` | src/udp_mux.rs:333-345 | when a removed connection sends, the indexes keep agreeing exactly if the address is already in its set, the mux is closed or the entry carries its ufrag |
| `MuxState.RemoveDeletesOwnEntries` | src/udp_mux.rs:315-321 | a removal deletes exactly the entries pointing at the removed connection if and only if none of its own addresses is routed elsewhere; routes of the same ufrag through an older connection are the next row's |
| `MuxState.RemoveDeletesRoutes` | src/udp_mux.rs:306-322 | a removal deletes exactly the routes of its ufrag if and only if these are the routed addresses in the set of the ufrag's live connection |
| `MuxState.AgreementLists` | src/udp_mux.rs:310-344 | where the two indexes agree that condition holds for every ufrag |
| `UdpMux.UDPMuxNewAddr.constructor` | src/udp_mux.rs:103-119 | a new mux is valid and empty |
| `UdpMux.UDPMuxNewAddr.IsClosed` | src/udp_mux.rs:121-123 | closed exactly when the close sender was taken |
| `UdpMux.UDPMuxNewAddr.InsertConn` | src/udp_mux.rs:289-302 | a fresh connection is created, mapped and given one more watcher |
| `UdpMux.UDPMuxNewAddr.EraseEntries` | src/udp_mux.rs:315-320 | the loop erases exactly the entries listed in the connection's own set |
| `UdpMux.UDPMuxNewAddr.PutEntry` | src/udp_mux.rs:333-345 | the entry update, with the displaced connection losing the address in place |
| `UdpMux.UDPMuxNewAddr.CloseAll` | src/udp_mux.rs:251-254 | the loop closes every connection of the map, and touches nothing else |
| `UdpMux.UDPMuxNewAddr.DrainConns` | src/udp_mux.rs:245-254 | closes exactly the connections that were mapped and empties the map |
| `UdpMux.UDPMuxNewAddr.GetConn` | src/udp_mux.rs:276-304 | the new state and answer are those of the operation; a created connection is fresh |
| `UdpMux.UDPMuxNewAddr.RemoveConnByUfrag` | src/udp_mux.rs:306-322 | the new state is that of the operation |
| `UdpMux.UDPMuxNewAddr.RegisterConnForAddress` | src/udp_mux.rs:327-353 | the new state is that of the operation, aliased connections included |
| `UdpMux.UDPMuxNewAddr.SendTo` | src/udp_mux.rs:327-353 | a connection's send, with the contract assumed of `UDPMuxConn` |
| `UdpMux.UDPMuxNewAddr.Close` | src/udp_mux.rs:234-274 | the new state and answer are those of the operation; if the mux was open every mapped connection is closed and the maps are empty, and no other connection's closing changes |
| `UdpMux.UDPMuxNewAddr.ConnFromStunMessage` | src/udp_mux.rs:138-149 | the live connection named by the username's first segment, if any |
| `UdpMux.UDPMuxNewAddr.FindConn` | src/udp_mux.rs:167-184 | by source address first, then by username for STUN packets |
| `UdpMux.UDPMuxNewAddr.IsReported` | src/udp_mux.rs:188 | membership in the reported set |
| `UdpMux.UDPMuxNewAddr.HandlePacket` | src/udp_mux.rs:166-214 | the new state and outcome are those of the operation, in every branch |
| `UdpMux.UDPMuxNewAddr.Worker` | src/udp_mux.rs:151-229 | the loop does what its inputs call for one after another: timeouts are skipped, errors and the close signal end it |
| `MuxRouting.GetConnRefines` | src/udp_mux.rs:276-304 | `get_conn` is the router's, with the same answer |
| `MuxRouting.RemovalMatches` | src/udp_mux.rs:306-322 | a removal is the router's, in any well-formed matching state, if and only if the routes of the ufrag are listed by its live connection |
| `MuxRouting.RemoveRefines` | src/udp_mux.rs:306-322 | a removal, which deletes by the connection's own set, deletes exactly the routes whose ufrag is removed |
| `MuxRouting.SendToRefines` | src/udp_mux.rs:327-353 | a live send makes the route of the address the sender's ufrag |
| `MuxRouting.CloseRefines` | src/udp_mux.rs:234-274 | closing empties the router |
| `MuxRouting.LookupRefines` | src/udp_mux.rs:167-184 | the connection found is that of the ufrag that claims the packet |
| `MuxRouting.ReceiveRefines` | src/udp_mux.rs:166-214 | one packet has the router's outcome in every case |
| `MuxRouting.StepRefines` | src/udp_mux.rs:234-353 | one operation of the mux is one of the router, with the same answer |
| `MuxRouting.RunRefines` | src/udp_mux.rs:167-184 | over every run the mux is the router, state by state and answer by answer, and its indexes agree |
| `MuxRouting.OneConnectionPerUfrag` | src/udp_mux.rs:276-304 | two `get_conn` calls for one ufrag answer the same connection unless it was removed or the mux closed in between |
| `MuxRouting.ClosedIsFinal` | src/udp_mux.rs:245-254 | after closing there is never a connection or a route again, and every later watcher changes nothing |
| `MuxRouting.ClosedExactly` | src/udp_mux.rs:245-254 | over every run the connections the mux has closed are exactly those mapped when a close found it open |
| `MuxRouting.OneWatcherPerConnection` | src/udp_mux.rs:289-302 | in every run each connection ever created has exactly one watcher |
| `MuxRouting.ReportedSinceForgotten` | src/udp_mux.rs:186-200 | the reported set is exactly the addresses sent and not registered or cleared since; none of them is routed; none was sent twice in between |
| `MuxFreeRuns.FreeStepRefines` | src/udp_mux.rs:234-353 | whoever sends, one operation from matching states is the router's if and only if its guard holds before it |
| `MuxFreeRuns.RouterExactlyWhenGuarded` | src/udp_mux.rs:306-345 | over every run, whoever sends, the mux is the last-writer-wins router if and only if every guard held |
| `MuxFreeRuns.FreeRunWellFormed` | src/udp_mux.rs:327-353 | over every run, whoever sends, an entry's connection has the address in its own set and `conns[u]` has key `u` |
| `MuxFreeRuns.AgreementGuards` | src/udp_mux.rs:310-344 | while the indexes agree, removals and live sends meet their guards |
| `MuxFreeRuns.RemovalMissesRoute` | src/udp_mux.rs:315-321 | a run from the start in which a removed connection sends and the next removal of its ufrag leaves a route of the ufrag |
| `MuxFreeRuns.StaleSenderBreaksRouting` | src/udp_mux.rs:336-344 | a run from the start with one stale send, after which removing a ufrag deletes the route of another ufrag's live connection |
| `MuxWorker.AnnouncedExactly` | src/udp_mux.rs:192-195 | a username is announced exactly if its last segment is 64 hex digits |
| `MuxWorker.PanicsExactly` | src/udp_mux.rs:365-369 | the worker panics if and only if it listens, no connection wants the packet, its source is not reported, and its username does not end in 64 hex digits |
| `MuxWorker.OnePacketStops` | src/udp_mux.rs:365-369 | one such packet stops the worker of a fresh mux |
| `MuxWorker.StoppedForGood` | src/udp_mux.rs:216-226 | after a panic, a receive error or the close signal no packet of the run is routed or reported |
| `MuxWorker.WorkIsRun` | src/udp_mux.rs:159-227 | the worker's loop after any run is a run of operations with the loop's outcomes and final state |
| `ReportLog.OutstandingMeans` | src/udp_mux.rs:186-200 | an outstanding report, computed from the end of the history, is one with nothing after it that forgets it |
| `ReportLog.AtMostOnceAfter` | src/udp_mux.rs:186-200 | sending an address that is not outstanding keeps every two sends of one address apart |
| `MuxTasks.LocksKept` | src/udp_mux.rs:234-353 | every step keeps who holds which lock consistent between locks and tasks |
| `MuxTasks.RunLocks` | src/udp_mux.rs:234-353 | so does every interleaving |
| `MuxTaskIndex.StepKeeps` | src/udp_mux.rs:310-345 | every step of every task keeps the index invariant, displacements under way included |
| `MuxTaskIndex.RunSound` | src/udp_mux.rs:310-345 | so does every interleaving, removed connections still registering |
| `MuxTaskIndex.EntriesBackedBySets` | src/udp_mux.rs:333-345 | whenever `address_map` is free an entry's connection has the address in its own set; `conns[u]` always has key `u` |
| `MuxTaskIndex.RemovalLeavesNoEntry` | src/udp_mux.rs:315-321 | right after the second section of a removal no entry points at the removed connection, and no entry was redirected |
| `MuxTaskLocks.NoHoldAndWait` | src/udp_mux.rs:310-353 | only an address set is ever waited for while a lock is held, and that lock is `address_map` |
| `MuxTaskLocks.HolderSteps` | src/udp_mux.rs:333-345 | whoever holds a lock can step, or waits for an address set whose holder can: the task named is one of these two |
| `MuxTaskLocks.NoDeadlock` | src/udp_mux.rs:234-353 | in every reachable state, for every task at or inside a section, that task can step, or the holder of its lock, or the holder of the address set this holder waits for; so no part of the tasks is deadlocked |
| `MuxTaskDrain.RunTraced` | src/udp_mux.rs:239-262 | every interleaving keeps, for each entry of both maps, the call that put it there |
| `MuxTaskDrain.InsideReadOpen` | src/udp_mux.rs:277-300 | whoever is about to insert read the flag as false |
| `MuxTaskDrain.LateReadOpen` | src/udp_mux.rs:277-300 | the calls recorded as in flight when the flag flipped had read it as false |
| `MuxTaskDrain.ConnsAfterDrain` | src/udp_mux.rs:239-254 | after the drain every connection in `conns` was put there by a distinct `get_conn` in flight when the flag flipped, so there are at most that many |
| `MuxTaskDrain.EntriesAfterDrain` | src/udp_mux.rs:256-262 | the same for `address_map` and the registrations in flight |
| `MuxTaskReports.RefusedSendMarksNothing` | src/udp_mux.rs:196-198 | a refused send changes nothing but the worker's place, and keeps what is known of reports |
| `MuxTaskReports.OnlyAcceptedSendsMark` | src/udp_mux.rs:196-201 | in every interleaving an address enters the reported set only where the worker marks it, and the latest send before was of that address and was accepted |
| `MuxTaskReports.ReportedAtMostOnce` | src/udp_mux.rs:186-208 | in every interleaving two sends of one address have a registration or a clearing between them; an outstanding report is in the set or about to be; the set holds only what was sent |
| `MuxTaskWatch.OneWatcherTask` | src/udp_mux.rs:289-304 | in every interleaving each connection ever created has exactly one watcher task, created with it, which wakes at most once; no other connection is ever watched |
| `MuxTaskConns.ConnKept` | src/udp_mux.rs:282-302 | in every interleaving the connection of a ufrag stays the same until a removal of it or a drain finishes its section |
| `MuxTaskConns.SameAnswer` | src/udp_mux.rs:276-304 | in every interleaving two `get_conn` calls of one ufrag answer the same connection unless one of these comes in between |
| `MuxTaskConns.OwnExactly` | src/udp_mux.rs:293-314 | a connection is still its ufrag's, and so what its watcher would remove, if and only if none of these came since its creation |
| `MuxTaskConns.SuccessorExactly` | src/udp_mux.rs:293-314 | a watcher would remove a successor if and only if the ufrag got a connection after it and none of these came since |
| `MuxTaskOwners.WatchersTakeOwn` | src/udp_mux.rs:289-314 | in every interleaving without other removals and closes each watcher removes the connection it was spawned for |
| `MuxTaskOwners.LateWatcherRemovesSuccessor` | src/udp_mux.rs:293-314 | a run from the start in which a called removal makes a watcher remove its connection's successor |
| `MuxTaskRaces.WritesUnderLock` | src/udp_mux.rs:234-353 | in every interleaving a field of the mux, or a connection's address set, is changed only by the task that holds its lock |
| `MuxTaskRaces.ReadsUnderLock` | src/udp_mux.rs:234-353 | where a section leads depends on nothing but what its lock guards |
| `MuxTaskTrace.LogExactly` | src/udp_mux.rs:186-208 | the recorded history of reports is that of the accepted sends, registrations and clearings among the steps |
| `MuxTaskTrace.ReportsApart` | src/udp_mux.rs:186-208 | in every interleaving two accepted sends of one address have a registration of it or a clearing between them, said of the steps alone |
| `MuxTaskTrace.DrainedExactly` | src/udp_mux.rs:239-262 | the mux is closed exactly if a close took the sender, and each map counts as drained exactly if a close drained it |
| `MuxTaskTrace.LateExactly` | src/udp_mux.rs:241-243 | the calls recorded as in flight are those at their insertion at the step that flipped the flag |
| `MuxTaskTrace.SurvivorsBounded` | src/udp_mux.rs:245-262 | after a drain each map never holds more than there were calls at their insertion when the flag flipped |
| `MuxTaskTrace.SurvivorWasInFlight` | src/udp_mux.rs:277-300 | a connection mapped after the drain was inserted after it by a call that was at its insertion at the flip, having read the flag as false before |
| `MuxTaskTrace.EntryWasInFlight` | src/udp_mux.rs:328-345 | the same for an entry of `address_map` and its registration |
| `MuxTaskTrace.ShutExactly` | src/udp_mux.rs:251-254 | in every interleaving the closed connections are exactly those their owner closed or a close drained |
| `MuxTaskTrace.WakesWhenShut` | src/udp_mux.rs:293-298 | a watcher can wake, for as long as it watches, exactly once its connection was closed in one of these ways |
| `MuxTaskClosers.OneDrain` | src/udp_mux.rs:239-254 | however many tasks call `close`, at most one empties `conns`, once, and it is the one that took the close sender |
| `MuxTaskAlone.GetConnAlone` | src/udp_mux.rs:276-304 | an uninterrupted `get_conn` task has the effect of the operation |
| `MuxTaskAlone.RemoveAlone` | src/udp_mux.rs:306-322 | so has a removal |
| `MuxTaskAlone.RegisterAlone` | src/udp_mux.rs:327-353 | so has a registration |
| `MuxTaskAlone.SendToAlone` | src/udp_mux.rs:327-353 | so has a send |
| `MuxTaskAlone.CloseAlone` | src/udp_mux.rs:234-274 | so has a close |
| `MuxTaskAlone.ReceiveAlone` | src/udp_mux.rs:166-214 | so has the worker on one packet, up to the send |
| `MuxTaskAlone.AnnounceAlone` | src/udp_mux.rs:196-201 | so has the send and what follows it |
| `Exchange.StepKeeps` | src/transport.rs:456-469 | every step conserves the bytes of both directions: received, on the wire and unflushed are what `write` accepted |
| `Exchange.RunKeeps` | src/transport.rs:456-469 | so does every run |
| `Exchange.PassedMeans` | src/upgrade.rs:141-154 | a side that passes wrote everything, read the peer's whole fingerprint, and was promised the right one |
| `Exchange.FingerprintsAgree` | src/upgrade.rs:141-154 | over every run, with any short writes: a side that passes has the other's own fingerprint as its remote one, and both wrote all 95 bytes |
| `Exchange.VerdictExactly` | src/transport.rs:460-469 | a side with a full buffer passes if and only if its own write was complete and the promise true |
| `Exchange.ReadCanFinish` | src/transport.rs:460-461 | once everything the other side wrote is on the wire, a side can fill its buffer if and only if it did not write more |
| `Exchange.StarvedForever` | src/transport.rs:458-461 | a side that wrote more than the other never gets to its comparison, in any continuation |
| `Exchange.ShortWriteRejects` | src/upgrade.rs:143-154 | a run between honest peers, for every short length, in which the short writer rejects and the other side is left waiting |
| `Sessions.DialSucceedsExactly` | src/transport.rs:456-478 | over an exchange dialling succeeds if and only if its write was complete, the address carries the listener's fingerprint and names the authenticated peer |
| `Sessions.UpgradeSucceedsExactly` | src/upgrade.rs:141-163 | over an exchange the upgrade succeeds if and only if its write was complete and the address carries the dialer's fingerprint |
| `Sessions.SessionsAgree` | src/transport.rs:456-487 | if both ends succeed each rendered the other's own fingerprint and the credentials the other configured |
| `Handshake.Dial` | src/transport.rs:364-488 | when dialling succeeds, exactly; the target, family, fingerprint and credentials of the session, component by component; when each error is returned, exactly, and with what |
| `Handshake.Upgrade` | src/upgrade.rs:49-164 | when the upgrade succeeds, exactly; the target, family, fingerprint and credentials of the session, component by component; when each error is returned, exactly, and with what |
| `Handshake.CredentialsAgree` | src/transport.rs:501-517 | what one side configures is what the other renders for it if and only if the address carries its fingerprint |
| `Handshake.UsernameNamesBothEnds` | src/udp_mux.rs:138-143 | the username's first segment is the key under which the listener registers if and only if the dialled address carries the listener's fingerprint; its last is the dialer's ufrag |
| `Handshake.UsernameSegments` | src/udp_mux.rs:400-404 | the segments of a username put together from two ufrags |
| `Handshake.UsernameForm` | src/udp_mux.rs:399-404 | the username is the remote ufrag, a colon and one's own; its segments are these when they are colon-free |
| `Handshake.SegmentsExactly` | src/udp_mux.rs:400-404 | of any string: the first segment is what is before its first colon, the last what is after its last one |
| `Handshake.FingerprintRoundTrip` | src/udp_mux.rs:192-195 | printed, stripped, put in a username, split off, decoded, reported, read back and printed again, every fingerprint is unchanged |
| `Handshake.FirstContact` | src/udp_mux.rs:167-208 | the first check is reported; once the connection exists the same check reaches it; once that has answered every packet from the source does |
| `Handshake.LiveUfragAbsorbsChecks` | src/udp_mux.rs:176-184 | while the listener's connection is live a check of any dialer is routed to it, or to the source's own route, and nothing is reported |
| `Handshake.ReportedExactly` | src/udp_mux.rs:176-200 | a dialer's check is reported, with its fingerprint, if and only if the worker listens, the source is neither routed nor reported and the listener's ufrag has no live connection |
| `Listener.Skipped` | src/transport.rs:284-323 | the leading events without an image, and no more |
| `Listener.AddrReceiver.PollNext` | src/transport.rs:345-358 | the oldest queued address; over only when empty and without senders |
| `Listener.WebRTCListenStream.constructor` | src/transport.rs:217-250 | the two wildcard addresses wait for the watcher, any other announces itself; no pause |
| `Listener.WebRTCListenStream.NextAnnouncement` | src/transport.rs:284-323 | the loop consumes events through the first one worth announcing, and announces it |
| `Listener.WebRTCListenStream.NextUpgrade` | src/transport.rs:334-358 | the pause, then the shared receiver |
| `Listener.WebRTCListenStream.PollNext` | src/transport.rs:259-360 | the nested loops end for any finite number of ready events and do what the one-poll function says |
| `ListenerRuns.UpgradeExactly` | src/transport.rs:334-358 | a poll hands out an upgrade if and only if nothing is to announce, no pause is unexpired and an address is queued, and then the oldest; it ends the stream if and only if none is queued and no sender is left; a pause begins with an error and lasts until a poll finds the listener open |
| `ListenerRuns.ImageExactly` | src/transport.rs:287-320 | what each watcher event makes the listener say, component by component: its own family's interfaces with its port, and every failure |
| `ListenerRuns.FailurePauses` | src/transport.rs:271-320 | a failure of the watcher or of its set-up is an error event and begins a pause |
| `ListenerRuns.WildcardWaits` | src/transport.rs:225-282 | a wildcard listener waits, or gives the set-up error, until its watcher is set up; then it takes over all its events and announces the first that concerns it; never its own address |
| `ListenerRuns.NoAddressLost` | src/transport.rs:345-358 | any number of listeners, any schedule: the upgrades followed by the queue are the addresses sent; no stream ends while one is queued |
| `ListenerRuns.AnnounceConsumes` | src/transport.rs:284-323 | one poll consumes a prefix of the ready events and announces exactly that prefix's image |
| `ListenerRuns.AnnouncesImages` | src/transport.rs:284-323 | over every life of a listener its announcements are the image of the events it consumed, in order, other families dropped |
| `ListenerRuns.StandingAddresses` | src/transport.rs:287-310 | announced and not expired addresses are exactly those of the up interfaces of the listener's family |
| `ListenerRuns.SingleAddressOnce` | src/transport.rs:325-331 | a listener on one address announces it in its first poll and never says anything of its own again |
| `Pipeline.StepDelivers` | src/udp_mux.rs:196-200 | one step of the mux or a listener keeps upgrades followed by the queue equal to what was sent |
| `Pipeline.Delivered` | src/transport.rs:345-358 | mux and listeners together: nothing sent is lost, duplicated or reordered; when a stream ends the worker has stopped and everything sent was handed out |
| `Pipeline.UpgradesAcceptable` | src/udp_mux.rs:189-200 | every upgrade handed out stems from a received packet, parses back to its source and is accepted by the upgrade |
| `Pipeline.ReportsExactly` | src/udp_mux.rs:176-200 | a packet is sent to the listeners exactly if the worker listens, no connection wants it, its source is not reported, it announces an address and the channel accepts |
| `Substreams.VisitMeans` | src/connection.rs:293-302 | in any map order a pass succeeds if and only if every channel does, and then visited each exactly once |
| `Substreams.Connection.OnOpen` | src/connection.rs:113-128 | an opened channel is queued if it was detached and the queue takes it |
| `Substreams.Connection.PollEvent` | src/connection.rs:143-168 | the oldest queued channel is mapped and handed out; with none queued the error exactly if the receiver is closed or no sender is left, and else it waits |
| `Substreams.Connection.PollOutbound` | src/connection.rs:201-223 | an opened outbound channel is mapped and handed out |
| `Substreams.Connection.DestroySubstream` | src/connection.rs:264-267 | the identifier is unmapped |
| `Substreams.Connection.FlushAll` | src/connection.rs:293-302 | the loop flushes channels in some order up to the first that is not done, and answers for it |
| `Substreams.Connection.Close` | src/connection.rs:269-291 | Ok if and only if every flush and every shutdown is done; every flush comes before any shutdown; the receiver is closed exactly then |
| `SubstreamRuns.ExactStep` | src/connection.rs:157-159 | one operation keeps the map equal to the substreams in use if and only if it does not reuse a live identifier |
| `SubstreamRuns.MapHoldsInUse` | src/connection.rs:53-61 | over every run the map holds exactly the substreams handed out and not destroyed, if and only if no live identifier is reused |
| `SubstreamRuns.ArrivalsAccountedFor` | src/connection.rs:113-128 | the opened channels are the delivered then the queued ones merged in order with the dropped ones |
| `SubstreamRuns.EventExactly` | src/connection.rs:143-168 | what `poll_event` answers, from the history: the oldest kept channel not yet delivered; with none left the error exactly if no sender is left or a close has succeeded; else it waits |
| `SubstreamRuns.ClosedQueueDrains` | src/connection.rs:284-287 | after the close exactly what was queued is still delivered, in order, and no poll waits |
| `SubstreamRuns.CloseFlushesFirst` | src/connection.rs:269-302 | across the two locks of a successful close everything mapped at each was flushed or shut down, the receiver is closed, and what was not flushed was handed out in between |
| `SubstreamRuns.UnflushedExactly` | src/connection.rs:273-282 | what a close shuts down, to its end or not, was not flushed in that poll if and only if it was handed out between the two locks |
| `SubstreamRuns.FlushedBeforeShutdownExactly` | src/connection.rs:269-302 | a successful close flushed all it shut down if and only if nothing handed out between the two locks was still mapped at the second |
| `SubstreamRuns.UnflushedShutdown` | src/connection.rs:273-285 | a run in which a successful close shuts down a substream it has not flushed |

## Left out

- STUN decoding and `is_stun_message`: a packet carries an optional decoded username and a STUN flag; that the worker inspects its whole buffer, bytes of an earlier packet included, is not modelled.
- Sockets, DTLS, SCTP, the ICE agent, Noise cryptography and certificate generation: their answers are parameters.
- src/sdp.rs and the template engine: only the values passed to the template are kept; nothing in the repository parses the result.
- src/connection/poll_data_channel.rs: delegates to the data channel library.
- `normalize_socket_addr`: not called on this path.
- Timers, wakers, logging and src/error.rs beyond the error cases above.
- IPv6 flow information and scope: a socket address is an IP address and a port.
- The capacity of the two channels: whether `try_send` finds room is the environment's answer, so how many addresses or channels can be queued is not claimed.
- The error inside `open_outbound`'s future, and the futures themselves: `poll_outbound` sees their answer.
- That `new_addrs` stays empty after `close`: the worker may still take packets before it sees the signal, so it is not claimed.
- `Handshake.Dial` and `Handshake.Upgrade` take the text read from the peer as one answer; the bytes behind it are in `Exchange.dfy`, and `Sessions.dfy` joins the two.
