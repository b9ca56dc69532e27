# go-btfs: a verified model of its protocols

This Dafny project models the parts of go-btfs that hold state machines, graph algorithms and
protocols, and proves what they keep over every input, every interleaving and every fault.
One module models one component:

- `GarbageCollector`: mark and sweep over the block store. Everything a collection takes from outside
  (fetch results, hash checks, pin lists, key enumeration, deletions, cancellation) is a `World`
  value, so each theorem holds for every course of events.
- `Ledger`, `Monitor`, `Keys`, `TransactionService`: the nonce-based transaction watcher, the persistent
  pending set and the service that sends, cancels and waits. They are followed through free
  interleavings, crashes and restarts. The chain only grows.
- `Routing`: routers built from a named, possibly cyclic configuration.
- `Tar`: the resumable tar export reader against a plain recursive serializer.
- `Streams`: the registry of forwarded streams.
- `Peering`: the peering service with its timers, notifications and randomised backoff.
- `SenderMatcher`: the persisted verification cache with greylisting.
- `AutoUpdate`: the update and rollback of files by renaming.
- `Publisher`: sequence numbers of published name records.
- `Cat`: a byte range read across several files.

Each component is modelled twice. Classes and methods carry the source's own control flow and
state. Functions on values say what a call does to the state. The method contracts tie the two
together, and the lemmas about whole runs are stated on the functions. `Run` and `Exec` are
predicates on a sequence of states and the steps between them; they leave the order of steps open.

`dafny verify dfyconfig.toml` checks the whole project.

## Where the code and its documentation differ

The model follows the code. The members named give the exact condition and a
counterexample.

- `transaction/monitor.go:213` promises that a cancelled transaction's nonce was used at least
  `cancellationDepth` blocks ago. The comparison at line 222 is `<=`, so a nonce equal to the one found that
  far back passes too. `Monitor.CompetitorBuriedIff`, `Monitor.CancelledTooEarly`.
- `peering/peering.go:75` calls `stop` permanent. A start goroutine that is still pending, or a
  notification after `Start` ran between the two halves of `Stop`, arms the handler again.
  `Peering.StopIsFinalIff`, `Peering.RemovedPeerArmed`, `Peering.StoppedServiceArmed`.
- `peering/peering.go:151-152` promises to reconnect on disconnect. A peer that leaves between a dial's
  success and the check after it leaves the handler with a spent timer, and it is not dialled again.
  `Peering.NeverDialsIff`, `Peering.StuckReached`.
- `gc/gc.go:44-45` promises to keep what is marked. Only version-0 CIDs are also marked under their raw
  form, so a version-1 pin does not protect the raw key of its block in a store that
  enumerates raw keys. `GarbageCollector.RawKeyProtectedIff`,
  `GarbageCollector.PinnedBlockDeleted`.
- The matcher's cache key (`transaction/sender_matcher.go:29-31`) does not hold the network, and calls
  are not serialised, so overlapping calls may ask the backend within the five minutes of line 70 and
  undo a verification. `SenderMatcher.CachedIffSameNetwork`, `SenderMatcher.WrongNetworkAnswered`,
  `SenderMatcher.StaysVerifiedIff`, `SenderMatcher.QueriesFiveMinutesApart`, `SenderMatcher.VerificationLost`.
- `namesys/publisher.go:33` promises sequential numbers. A publisher without a stored record takes
  a routing failure for "never published". `Publisher.NoCollisionIffNewest`, `Publisher.NumberReused`.
- `core/commands/cat.go:35` promises to begin at the offset. With decryption or metadata, reading
  begins at the start of the file that holds it. `Cat.NoSeekRightIff`.
- `autoupdate/main.go:213-222` takes every failed look at a file for absence, and a current file
  that cannot be looked at is overwritten. `AutoUpdate.RollbackRestoresIff`, `AutoUpdate.UpdateLosesIff`,
  `AutoUpdate.RollbackLosesIff`, `AutoUpdate.UnseenFileLost`.
- `p2p/stream.go:113-123` looks streams up by local address. Of two live streams at one address, closing
  either hides the other. `Streams.AlwaysFoundIff`, `Streams.FoundIff`, `Streams.HiddenStream`.

## Model

| member | source | states |
|---|---|---|
| `GarbageCollector.Collector.Run` | gc/gc.go:46-135 | Marking succeeds if and only if the pin lists can be read, everything reachable from a recursive or internal pin can be fetched, nothing reachable from a best-effort root is broken, all of it passes the hash check and no fetch was disturbed; otherwise nothing is deleted. However the collection ends, no store key of anything pinned directly or reachable is deleted (a version-0 CID has its version-1 and its raw key, any other itself). An uncancelled sweep deletes every other key the store lets go, reports each such key removed, once, each other one as not removable, and sums those up |
| `GarbageCollector.Collector.ColoredSet` | gc/gc.go:190-281 | The same condition on paths of links for success, and the marked keys are then exactly the protected ones |
| `GarbageCollector.Collector.Sweep` | gc/gc.go:78-117 | Marked keys stay under every pattern of refused deletions and cancellation, and no key that is marked or still there is reported removed; without cancellation the sweep goes on after a refused deletion, and what it deletes and reports is exact |
| `GarbageCollector.Collector.Descendants` | gc/gc.go:140-178 | Adds exactly the image of everything below the roots, or notices trouble if and only if there is some |
| `GarbageCollector.Collector.Walk` | gc/gc.go:161-175 | The walk without a visited set ends, because ranks fall along links, and meets all of what hangs below its root |
| `GarbageCollector.Collector.GetLinks` | gc/gc.go:142-206 | All links of a fetched node are handed on; an invalid CID or a cancellation is an error; a failed fetch is recorded and yields no links, except a missing block below a best-effort root |
| `GarbageCollector.Collector.Visit` | gc/gc.go:163-169 | The visit adds every marked form of a CID and nothing else |
| `GarbageCollector.Collector.MarkDirect` | gc/gc.go:251-259 | Direct pins add their own image and nothing below them |
| `GarbageCollector.DescendIffReachable` | gc/gc.go:140-178 | The recursive walk meets a CID if and only if a path of fetchable links leads to it |
| `GarbageCollector.DescendAllIsLeastClosed` | gc/gc.go:37-45 | What is marked below roots is the least set that holds them and is closed under links |
| `GarbageCollector.LiveIffKeptAlive` | gc/gc.go:37-45 | The marked CIDs are those pinned directly or reachable by links from a recursive pin, a best-effort root or an internal pin |
| `GarbageCollector.MarkableIff` | gc/gc.go:190-281 | What marking needs, said on paths of links |
| `GarbageCollector.ProtectedIsMarked` | gc/gc.go:181-186 | The marked keys are those of the CIDs kept alive: both version-1 forms of a version-0 CID, any other CID itself |
| `GarbageCollector.ToldExactly` | gc/gc.go:84-110 | An uncancelled sweep reports exactly the unmarked keys, each as removed or as not removable |
| `GarbageCollector.ToldOnce` | gc/gc.go:84-110 | Each removed key is reported once if the enumeration has no repetition |
| `GarbageCollector.RawKeyProtectedIff` | gc/gc.go:181-186 | A raw key is protected if and only if some live CID with its hash has version 0 or is the raw key itself |
| `GarbageCollector.PinnedBlockDeleted` | gc/gc.go:78-117 | An undisturbed collection of a store enumerated under raw keys that deletes the block of a recursive version-1 pin |
| `Ledger.NonceAtStable` | transaction/monitor.go:184-187 | On a growing chain the nonce at a block never changes and never exceeds the number of mined transactions |
| `Ledger.NonceAtMonotone` | transaction/monitor.go:184-187 | The nonce never falls from block to block |
| `Monitor.TransactionMonitor.WatchTransaction` | transaction/monitor.go:76-100 | Registers a new, silent watch and touches no other |
| `Monitor.TransactionMonitor.PotentiallyConfirmedWatches` | transaction/monitor.go:163-174 | In whatever order the map is ranged over, exactly the watches with a lower nonce |
| `Monitor.TransactionMonitor.Classify` | transaction/monitor.go:192-226 | Fails if and only if a receipt query fails or the old nonce is needed and missing; otherwise a watch is confirmed with its receipt if and only if it has one, and cancelled if and only if it has none and its nonce is not above the old one |
| `Monitor.TransactionMonitor.Notify` | transaction/monitor.go:228-241 | Each verdict is sent once, its watch leaves the map, every other watch is unchanged |
| `Monitor.TransactionMonitor.CheckPending` | transaction/monitor.go:183-242 | Fails if and only if a query it makes fails, and then changes nothing; otherwise each watch with a used nonce gets its receipt, or the cancellation if it has none and its nonce is old enough, and leaves the map, and every other watch is unchanged |
| `Monitor.TransactionMonitor.NotifyClosed` | transaction/monitor.go:105-112 | Shutdown tells exactly the watches still in the map |
| `Monitor.StepKeepsInv` | transaction/monitor.go:76-242 | Registration, chain growth, snapshot, each query, delivery and shutdown keep the invariant in any interleaving, although the lock is dropped during a check |
| `Monitor.RunInv` | transaction/monitor.go:80-83 | In every reachable state each watch has at most one message over both channels, every message is justified by the chain, and before shutdown the map holds exactly the watches without one |
| `Monitor.RunLater` | transaction/monitor.go:76-242 | Over any stretch of a run messages are only added, never taken back, and watches keep their transaction |
| `Monitor.MessageIsFinal` | transaction/monitor.go:80-83 | A watch that has its message never gets another, so no send on the buffered channels can block |
| `Monitor.OnlyDeliveryNotifies` | transaction/monitor.go:183-227 | Over any stretch of a run without delivery and shutdown, so through every failing check among other steps, no watch is told anything and none is forgotten |
| `Monitor.ReceiptDelivered` | transaction/monitor.go:194-235 | In every interleaving, a watch that a check finds a receipt for holds exactly that receipt, and is no longer watched, once the check delivers |
| `Monitor.CancellationDelivered` | transaction/monitor.go:202-240 | In every interleaving, a watch that a check finds no receipt for and whose nonce is not above the old one is told exactly once that it is cancelled, once the check delivers |
| `Monitor.GroundsMeanLost` | transaction/monitor.go:163-226 | A cancellation verdict means that another transaction holds the nonce on chain |
| `Monitor.WinnerNeverCancelled` | transaction/monitor.go:183-242 | A transaction that at any time of a run is found to have used its own nonce is at no time, earlier or later, reported cancelled |
| `Monitor.CompetitorBuriedIff` | transaction/monitor.go:213-226 | The competitor is at least cancellationDepth blocks deep if and only if the watched nonce differs from the nonce found that far back |
| `Monitor.CancelledTooEarly` | transaction/monitor.go:213-226 | A run in which a watch is cancelled although its competitor is less deep |
| `Keys.DecodeOfHex` | transaction/transaction.go:342-352 | Reading printed hexadecimal gives back every byte string |
| `Keys.ParsePrintPending` | transaction/transaction.go:350-352 | Parsing a pending key inverts printing it, for every 32-byte hash |
| `Keys.KeysApart` | transaction/transaction.go:29-33 | The three key families do not meet, and stored keys are as different as hashes |
| `Keys.KeysPrinted` | transaction/transaction.go:342-352 | What the keys look like |
| `TransactionService.Service.constructor` | transaction/transaction.go:113-141 | A service made on a surviving store waits for exactly the pending hashes, each once |
| `TransactionService.Service.PendingTransactions` | transaction/transaction.go:416-427 | In whatever order the store iterates, exactly the pending hashes, each once |
| `TransactionService.Service.Send` | transaction/transaction.go:156-214 | Succeeds if and only if nothing it needs fails; then the transaction stored under the returned hash has the nonce the node gave, the request's fields and the asked or suggested price, the next nonce and the marker are stored, no other key is touched and a waiter is started. For every failure: what is stored, and that no marker is left without its transaction |
| `TransactionService.PreparedAsAsked` | transaction/transaction.go:293-340 | The transaction carries the request's fields and the given nonce; an estimated gas limit is raised by a fifth, rounded down, while that fits 64 bits |
| `TransactionService.Service.CancelTransaction` | transaction/transaction.go:473-526 | Succeeds if and only if the original is stored, the price is higher and nothing fails; the new transaction is a zero transfer to the sender with the same nonce, gas limit 21000 and the asked price or one above the old; a failure adds no marker |
| `TransactionService.Service.FinishWaiting` | transaction/transaction.go:240-261 | The marker goes only on a receipt or a cancellation, never when the monitor closes or the context ends; stored transactions stay |
| `TransactionService.Service.ResendTransaction` | transaction/transaction.go:429-471 | Unknown if and only if not stored; rebuilding a stored transaction always gives back its own hash; "already imported" is passed on and every other broadcast error counts as success |
| `TransactionService.PutStoredOk` | transaction/transaction.go:192-204 | Storing a transaction keeps every other one known and adds no marker |
| `TransactionService.PutMarkerOk` | transaction/transaction.go:206-209 | A marker for a stored transaction adds exactly its hash to the pending set |
| `TransactionService.DeleteMarkerOk` | transaction/transaction.go:256-259 | Deleting a marker removes exactly its hash from the pending set and no stored transaction |
| `TransactionService.WrittenOk` | transaction/transaction.go:182-209 | Whichever of the three writes fails, no marker is left without its transaction |
| `TransactionService.StepKeepsInv` | transaction/transaction.go:132-526 | Every write, every move of a waiter, every monitor step, crash and restart keeps the invariant of store, waiters, watches and reports |
| `TransactionService.RunInv` | transaction/transaction.go:132-526 | In every reachable state each pending marker has its stored transaction, each missing marker a report, and each report its ground on the chain |
| `TransactionService.MarkerGoneMeansReported` | transaction/transaction.go:240-261 | Over any number of crashes and restarts, a transaction once marked pending whose marker is gone has had its receipt or its cancellation reported |
| `TransactionService.OnlyVerdictDeletes` | transaction/transaction.go:245-259 | In every run the only step that removes a marker is that of a waiter for it that has heard a receipt or a cancellation, reported before; the end of the monitor, of a context or of the process removes none |
| `TransactionService.HearsVerdictIff` | transaction/transaction.go:391-400 | In every run a waiter has a verdict if and only if it heard a receipt or a cancellation |
| `TransactionService.VerdictDeletes` | transaction/transaction.go:245-259 | A waiter that heard one and whose deletion does not fail removes exactly its own marker |
| `TransactionService.SendLeaves` | transaction/transaction.go:182-211 | A send whose three writes succeed leaves next nonce, transaction and marker stored, and a waiter |
| `TransactionService.CancelLeaves` | transaction/transaction.go:503-523 | A cancellation whose two writes succeed leaves transaction and marker stored, and a waiter |
| `TransactionService.WaiterListens` | transaction/transaction.go:386-414 | A waiter listens to a new watch for its hash and the stored nonce |
| `TransactionService.MarkerGoneMeansSettled` | transaction/transaction.go:240-261 | So a transaction whose marker is gone is mined or has lost its nonce to another |
| `TransactionService.RestartRewatches` | transaction/transaction.go:132-138 | A restart waits for a hash if and only if its marker survived |
| `TransactionService.AtMostOneConfirmed` | transaction/transaction.go:402-414 | Of all transactions with one nonce at most one is reported confirmed in a whole run, across restarts |
| `TransactionService.CancelledStaysUnmined` | transaction/transaction.go:240-261 | A transaction once reported cancelled is at no time of the run mined or reported confirmed |
| `TransactionService.ChainRises` | transaction/transaction.go:479-493 | Along repeated cancellations the nonce stays and the gas price strictly rises between any two links |
| `TransactionService.CancellationsExclusive` | transaction/transaction.go:473-526 | Of an original and all its transitive cancellations at most one is ever reported confirmed |
| `Routing.Parse` | routing/delegated.go:31-63 | In every iteration order of the methods: succeeds if and only if every method's router is well-formed (all reachable names configured, of known type and constructible, none on a cycle); the result is the plain recursive expansion; exactly the reachable names are built, each once over all methods |
| `Routing.Builder.ParseRouter` | routing/delegated.go:65-148 | The memoised depth-first build ends on cyclic configurations too, succeeds if and only if the name is well-formed, and never takes a shared dependency for a loop |
| `Routing.Builder.ParseDeps` | routing/delegated.go:98-134 | The dependencies are wired in order with their settings, or some dependency is not well-formed |
| `Routing.ExpansionUnique` | routing/delegated.go:72-76 | A name has at most one expansion, so memoised and repeated builds agree |
| `Routing.ExpandsBelow` | routing/delegated.go:98-134 | Below an expandable name every name expands, to something strictly smaller |
| `Routing.ExpandsImpliesWellFormed` | routing/delegated.go:78-89 | A name with an expansion reaches no cycle and no missing, unknown or unconstructible router |
| `Routing.ComposerUnique` | routing/delegated.go:40-60 | The composed router does not depend on the order of the methods |
| `Routing.ParallelOfTwo` | routing/delegated.go:98-116 | A parallel router over two leaves is their routers in order, each with its settings |
| `Tar.TarReader.Read` | tar/format.go:114-196 | For every buffer and every behaviour of the file reader, the bytes returned followed by what is still to come are what was to come before; end of file only when nothing is left; every productive call lowers a bound |
| `Tar.TarReader.ReadHeader` | tar/format.go:116-123 | The header is passed on piece by piece, whatever the buffer |
| `Tar.TarReader.ReadChild` | tar/format.go:126-133 | A child reader's bytes and errors pass through in place |
| `Tar.TarReader.ReadFile` | tar/format.go:136-146 | File bytes pass through in any chunking, and the padding fits the bytes counted, whether the end comes with data or later |
| `Tar.TarReader.CopyFile` | tar/format.go:216-220 | The counting reader counts exactly what it passes on |
| `Tar.TarReader.ReadPad` | tar/format.go:149-153 | Padding zeros are passed on piece by piece |
| `Tar.TarReader.NextLink` | tar/format.go:159-193 | A link is taken apart into header and file or children; one that cannot be read gives one error and nothing else is lost |
| `Tar.ExportTar` | tar/format.go:200-209 | Succeeds if and only if the root is marked as an archive; the reader then has the whole serialization before it |
| `Tar.ReadCalls` | tar/format.go:114-196 | Any sequence of reads, with buffers of any size and a stalling or failing file reader, returns a prefix of the serialization, and all of it once the end is seen |
| `Tar.ReadToEnd` | tar/format.go:114-196 | With non-empty buffers and a working file reader, boundedly many reads return exactly the serialization |
| `Tar.RegularIsAligned` | tar/format.go:136-153 | If all links open and all headers are whole blocks, the archive is whole blocks and has no error in it |
| `Tar.SerializedInOrder` | tar/format.go:114-196 | A directory with a subdirectory and a file: headers and contents in order, the file filled up to 512 bytes |
| `Tar.TarReader.EndFile` | tar/format.go:138-144 | At the end of a file the padding brings the bytes counted up to a multiple of 512 |
| `Streams.StreamRegistry.RegisterStream` | p2p/stream.go:76-90 | Gives the stream an unused id, counts it, tags its peer and enters its address, touches no other entry, and keeps the agreement of all of them |
| `Streams.StreamRegistry.DeregisterStream` | p2p/stream.go:93-111 | Removes that stream alone and its address entry, counts its peer down by one, forgets and untags the peer with its last stream, and keeps the agreement; an unknown id changes nothing |
| `Streams.StreamRegistry.GetStreamRemotePeerID` | p2p/stream.go:115-123 | An answer always names the peer of a live stream at that address |
| `Streams.StreamRegistry.Close` | p2p/stream.go:126-130 | Both ends are closed and the stream is gone; a second close changes nothing |
| `Streams.StreamRegistry.Reset` | p2p/stream.go:133-137 | The same with the remote end reset |
| `Streams.RegisterKeepsInv` | p2p/stream.go:76-90 | Registering keeps the agreement of counters, tags, ids and address index |
| `Streams.DeregisterKeepsInv` | p2p/stream.go:93-111 | So does deregistering, for live and unknown ids |
| `Streams.RunInv` | p2p/stream.go:76-137 | After every sequence of operations conns[p] is the number of live streams of p, p is tagged if and only if it has one, ids are below nextID, and every address entry names a live stream at that address |
| `Streams.AlwaysFoundIff` | p2p/stream.go:76-111 | Every live stream is found by its address at all times of a run if and only if no stream is ever registered at the address of a live one |
| `Streams.FoundIff` | p2p/stream.go:87-123 | A stream registered by event k and live after n events is found by its address if and only if no event between registered a stream at that address or removed one live at it |
| `Streams.HiddenStream` | p2p/stream.go:110 | Two live streams at one address: closing the first hides the second |
| `Peering.PeerHandler.NextBackoffStep` | peering/peering.go:87-100 | The new delay in terms of the old one and the two draws; it stays within five seconds and ten minutes, and is above nine minutes from the twelfth call after a reset |
| `Peering.PeerHandler.StartIfDisconnected` | peering/peering.go:140-149 | Arms a timer if and only if there is none and the peer is not connected, and then exactly that one is armed |
| `Peering.PeerHandler.StopIfConnected` | peering/peering.go:127-137 | When connected there is no timer and nothing armed, and a dropped timer sets the delay back to five seconds; otherwise nothing changes |
| `Peering.PeerHandler.Stop` | peering/peering.go:76-85 | The context is cancelled and no timer is armed |
| `Peering.PeerHandler.Reconnect` | peering/peering.go:102-125 | A failed dial arms the timer in the field again with the next delay; a connection drops it; otherwise nothing changes |
| `Peering.BackoffStep` | peering/peering.go:87-100 | One call keeps the bounds, grows the delay by half to one and a half times, and never leaves the last tenth |
| `Peering.BackoffGrows` | peering/peering.go:87-100 | After k calls the delay is settled or at least what growing by half each time gives |
| `Peering.TwelveCallsSettle` | peering/peering.go:20-31 | Whatever is drawn, every delay from the twelfth call on is above nine and at most ten minutes |
| `Peering.ElevenMayNotSettle` | peering/peering.go:87-100 | Twelve is sharp: eleven calls may stay at or below nine minutes |
| `Peering.StepKeepsInv` | peering/peering.go:170-286 | Service calls, notifications, goroutines and timers keep the invariant in any interleaving |
| `Peering.RunInv` | peering/peering.go:76-286 | In every run each handler has at most one armed timer, the one in its field, with its delay in bounds |
| `Peering.DeadForever` | peering/peering.go:245-259 | A handler nothing can start any more never has a timer again |
| `Peering.StopIsFinalIff` | peering/peering.go:75-85 | After removal or shutdown a handler never gets a timer again if and only if no start of it was pending and, at shutdown, notifications are off |
| `Peering.RemovedPeerArmed` | peering/peering.go:245-259 | A run from the empty service that ends with a removed, cancelled handler holding an armed timer |
| `Peering.StoppedServiceArmed` | peering/peering.go:190-206 | A run with a start between the two halves of Stop that ends with a stopped handler armed by a notification |
| `Peering.NeverDialsIff` | peering/peering.go:102-149 | While a peer stays away and neither it is removed nor the service stopped, its handler never dials it again if and only if nothing is armed, no dial is under way, and a timer is left in the field or (while the service is being stopped) no start can come |
| `Peering.StuckReached` | peering/peering.go:102-149 | A run in which a dial succeeds and the peer leaves before the handler looks, that ends with the handler stuck in a running service |
| `Peering.FailedDialRetried` | peering/peering.go:108-116 | In every run a failed dial of a handler that still has its timer leaves it armed and not stuck |
| `Peering.AddedPeerDialled` | peering/peering.go:225-236 | An absent peer added to a running service will be dialled |
| `Peering.StartedPeerDialled` | peering/peering.go:170-188 | So will every absent peer of a service that is started |
| `Peering.LostPeerDialled` | peering/peering.go:275-286 | So will a peer whose disconnection is notified, if there is no timer in the field |
| `Peering.ConnectionStops` | peering/peering.go:263-274 | The notification of a connection drops the timer and resets the delay |
| `SenderMatcher.OverlayKeyInjective` | transaction/sender_matcher.go:29-31 | Whatever characters overlays hold, keys differ whenever overlay or transaction do |
| `SenderMatcher.PassedStaysPassed` | transaction/sender_matcher.go:74-159 | On an append-only chain a passed check passes for ever with the same answer |
| `SenderMatcher.FullCheckIff` | transaction/sender_matcher.go:74-159 | The check used in the run theorems passes and refuses exactly on those grounds |
| `SenderMatcher.Matcher.Matches` | transaction/sender_matcher.go:57-172 | The backend is asked if and only if the pair is neither verified nor marked within five minutes; the call then passes with b if and only if the transaction is found, mined and has a sender, the header after its block names that block as parent and has hash b, and b makes the overlay the one presented; each refusal has its own ground; the pair is stored as verified with b or as marked accordingly |
| `SenderMatcher.StepKeepsInv` | transaction/sender_matcher.go:57-172 | Overlapping calls, chain growth and time keep every verified entry true of the full check |
| `SenderMatcher.RunInv` | transaction/sender_matcher.go:57-172 | In every interleaving every verified entry is what the full check says on the network it was verified on |
| `SenderMatcher.CachedIffSameNetwork` | transaction/sender_matcher.go:61-69 | In every interleaving a cached answer equals the full check of the same call if and only if it names the network of the verification; otherwise the full check says overlay mismatch |
| `SenderMatcher.VerifiedIsFinal` | transaction/sender_matcher.go:67-69 | A verified entry for whose pair no call is under way is the same in every later world, whatever happens |
| `SenderMatcher.StaysVerifiedIff` | transaction/sender_matcher.go:57-172 | A verified entry stays verified in every continuation if and only if no call for its pair is under way |
| `SenderMatcher.MarkStays` | transaction/sender_matcher.go:70-72 | In every interleaving, after a call left its mark every entry for its pair is verified or no older than that mark |
| `SenderMatcher.QueriesFiveMinutesApart` | transaction/sender_matcher.go:70-72 | In every interleaving, a call that begins after another left its mark for the pair asks the backend at least five minutes later |
| `SenderMatcher.VerificationLost` | transaction/sender_matcher.go:57-172 | For every call that would pass, a run in which two calls begin at one time and both ask the backend, one is verified and the other greylists the pair again |
| `SenderMatcher.WrongNetworkAnswered` | transaction/sender_matcher.go:61-69 | For every call that would pass and every other network, a run in which the call for that network is answered from the cache though the full check refuses it |
| `SenderMatcher.SomeCallPasses` | transaction/sender_matcher.go:74-171 | Calls that pass, under overlays that tell networks apart, exist |
| `AutoUpdate.FileSystem.BackupAndSetLatest` | autoupdate/main.go:77-122 | For every pattern of failing operations, the files left and whether the step succeeds |
| `AutoUpdate.UpdateSucceedsIff` | autoupdate/main.go:77-122 | An update succeeds if and only if nothing it does fails; the new file is then in place and the old one is the backup unless it was not seen |
| `AutoUpdate.UpdateLeaves` | autoupdate/main.go:77-122 | After every outcome of an update, what a rollback will find: the old content, a stale backup, or only the new content |
| `AutoUpdate.CleanRollback` | autoupdate/main.go:47-63 | A rollback without faults brings the backup to the current path, or changes nothing if there is none |
| `AutoUpdate.RollbackSucceedsIff` | autoupdate/main.go:77-122 | A rollback succeeds if and only if there is a backup and nothing it does fails; the backup is then in place and the replaced file is the new backup |
| `AutoUpdate.RollbackRestoresIff` | autoupdate/main.go:77-122 | Update with any faults, then rollback: the old content is back if and only if no stale backup was left standing and the current file was not overwritten unseen |
| `AutoUpdate.RollbackRestores` | autoupdate/main.go:47-63 | If files can be seen, the old content is back after every outcome but a failed deletion of the stale backup |
| `AutoUpdate.RollbackAllRestores` | autoupdate/main.go:154-173 | For every platform and pair of directories, and every failure of renames and permissions during the update of the three files, the rollback of all three puts each old file back |
| `AutoUpdate.UpdateAllIsEach` | autoupdate/main.go:154-173 | Each of the three files goes through the three updates as if it were alone |
| `AutoUpdate.RollbackAllIsEach` | autoupdate/main.go:47-63 | Each of the three files goes through the three rollbacks as if it were alone |
| `AutoUpdate.UpdateAllReady` | autoupdate/main.go:154-173 | After the three updates each file is ready to be rolled back |
| `AutoUpdate.UpdateLosesIff` | autoupdate/main.go:77-122 | No outcome of an update loses the new content; current content held nowhere else is lost if and only if the current file cannot be looked at and the new one goes over it |
| `AutoUpdate.RollbackLosesIff` | autoupdate/main.go:77-122 | No outcome of a rollback loses the backed-up content; current content held nowhere else is lost if and only if the current file cannot be looked at and the backup goes over it |
| `AutoUpdate.UpdateRollbackLosesNothing` | autoupdate/main.go:47-63 | An update and the rollback after it, whatever fails in either, lose neither the old nor the new content as long as the current file is seen when it is there |
| `AutoUpdate.UpdateRollbackAllLosesNothing` | autoupdate/main.go:154-173 | The same for the update of the three files and the three rollbacks, for every platform and pair of directories |
| `AutoUpdate.UnseenFileLost` | autoupdate/main.go:213-222 | A current file that cannot be looked at is overwritten and its content lost |
| `AutoUpdate.StepTouchesOnly` | autoupdate/main.go:77-122 | A step changes no path but its own three |
| `AutoUpdate.PathsApart` | autoupdate/main.go:225-253 | For every platform and pair of directories, the paths of each file are distinct and apart from those of the others |
| `AutoUpdate.ConfigOnLinux` | autoupdate/main.go:238-240 | What the configuration's paths look like |
| `AutoUpdate.BinaryOnWindows` | autoupdate/main.go:241-243 | What a binary's paths look like |
| `Publisher.IpnsPublisher.UpdateRecord` | namesys/publisher.go:140-189 | Which failures store nothing; otherwise the value is stored under the number of the stored record, or else of the routing system's, raised by one in 64 bits if the value differs, or under zero without either; no other name and no unparsable one is touched |
| `Publisher.NoCollisionIffNewest` | namesys/publisher.go:108-160 | Whatever is published next, no number gets a second value if and only if the record taken for the previous one is the newest ever published |
| `Publisher.RunKeepsHistory` | namesys/publisher.go:140-189 | In every run of publishes, with any of them failing anywhere, the stored record is the newest of a history with one value per number, as long as a publish that finds nothing stored was told the newest record |
| `Publisher.OneNumberOneValue` | namesys/publisher.go:149-160 | In every such run a stored record is never lost, later numbers are no smaller, and equal numbers mean equal values |
| `Publisher.NumberRisesWithValue` | namesys/publisher.go:155-186 | Each publish of such a run leaves the record alone if a step before storing fails, and otherwise stores its value under the same number if it is the same and under the next if not |
| `Publisher.FullHistoryWraps` | namesys/publisher.go:155-160 | With all 2^64 numbers used, the next change takes number zero again |
| `Publisher.NumberReused` | namesys/publisher.go:119-129 | A publish by a node that lost its store and cannot reach the routing system stores a second value under number zero |
| `Cat.ReadRange` | core/commands/cat.go:121-199 | The readers one after the other are the asked range of the concatenated files and the length is its exact length; fails if and only if a file the range reaches cannot be opened, and then returns nothing |
| `Cat.RangeAcrossFiles` | core/commands/cat.go:121-199 | Three bytes from offset 1 across two files, with and without seeking |
| `Cat.Open` | core/commands/cat.go:141-176 | Which failure each kind of node gives, when a file is passed over, and where reading starts |
| `Cat.Take` | core/commands/cat.go:180-196 | A reader for the rest of a file, cut off exactly where the limit is reached |
| `Cat.Gather` | core/commands/cat.go:140-198 | The loop over the files keeps passed bytes, read bytes and remaining offset in step up to the first file that fills the range |
| `Cat.FileStartBefore` | core/commands/cat.go:161-176 | Without seeking, reading starts before the offset unless the offset is zero or lies beyond all files |
| `Cat.NoSeekRightIff` | core/commands/cat.go:166-176 | Without seeking and under every limit, what is read is the asked range for all contents of these sizes if and only if the limit or the offset is zero or the offset lies beyond all files |

## Left out

- Garbage collection: the datastore's own `CollectGarbage`, the collection lock, the scheduling of the concurrent walk and the texts of errors. Links are assumed to be content-addressed: each leads to a CID of smaller rank.
- Monitor: chain reorganisations; a backend may fail, but what it answers is true of its chain at that moment. Also left out is the polling loop's decision when to check (`transaction/monitor.go:114-154`): a check may start at any block at any time.
- Transaction service: `Call`, `nextNonce` beyond its outcome, wall-clock time and the wrap-around of the stored next nonce. Signing is a function; hashes are assumed not to collide among the transactions that occur.
- Ledger: only the sender's own transactions are recorded in the chain; fees, values and other senders play no part.
- Routing: leaf constructors and the check of the method table are predicates; a parameter value of the wrong Go type is not modelled.
- Composer: the calls that go through the composed router (`routing/composer.go`) only delegate.
- Tar: import and path escaping. The DAG is a tree of values, and the end-of-archive blocks of the ustar Interchange Format in the pax section of IEEE Std 1003.1 are not written, because the reader does not write them.
- Streams: a stream is registered once and closed through its id; the copying goroutines, the wrap-around of the id and closing a stream before it is registered are not modelled.
- Peering: the service's calls are steps on values, because goroutines interleave with them; addresses and connection-manager protection are not modelled.
- Sender matcher: a call reads the backend and writes the cache at one moment; an answer from an earlier moment writes what a backend error would.
- SenderMatcher.CachedIffSameNetwork: assumes that overlays of one sender at one block differ between networks.
- AutoUpdate.RollbackRestoresIff: assumes that the stale backup and the new file differ in content from the current file, since restoring could not be told apart otherwise.
- Auto update: starting the daemon and asking whether it is up, downloads and version comparison.
- Publisher.RunKeepsHistory: the history stays within the 2^64 sequence numbers; `Publisher.FullHistoryWraps` says what happens next.
- Publisher: signing, lifetimes and the put to the routing system.
- Cat: the change of content by decryption and metadata display, and the parsing of options.
- Everything else in the repository: command line, HTTP and RPC servers, reporting loops, generated contract bindings, configuration and key storage.
