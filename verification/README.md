# Verification of the gtp-meter pipeline

gtp-meter parses GTP-U user traffic and Diameter Gy charging traffic, attributes every byte to a
subscriber and a rating group, and writes usage records. This project models that pipeline in Dafny and
proves what it promises: no byte is lost or charged twice between a packet and a usage record, whatever
the sequence of calls and whatever the interleaving of threads (`Runtime.StopAccountsForBytes`).

The modules follow the program's components.

- `Cyclic`, `Probing`, `FlatHash`: the open-addressing table from tunnel identifiers (TEIDs) to bindings,
  with backward-shift deletion in place on two arrays. Any sequence of calls answers as a plain map does.
- `Usage`, `Meter`: the metering engine as a state machine over install, release, packet, charging
  event, poll and drain, with 64-bit and 32-bit wrap-around written out.
- Facts about every run of that state machine. `Tunnels`, `TableLoad`, `Sessions`: which sessions are active,
  that they keep their tunnels, and to whom a packet is charged. `Billing`, `Buckets`, `StaleSlots`: how much is
  billed, to which bucket, and when that goes wrong. `Reporting`, `Fairness`: when records are made, why, and
  how soon. `RecordContents`, `RecordSlots`: what every record says. `Ledger`, `Totals`: where the records go
  and what all of it adds up to. `Crosscheck`: what the charging system reported meanwhile.
- `FlowTable`: the flow table with eviction. `MeterEngine` (module `EngineObject`): the engine as an
  object over both tables, each method proved against the state machine.
- `SpscRing`, `Seqlock`, `Snapshot`: the three lock-free structures as transition systems whose steps are
  single atomic operations.
- `Histogram`: the latency histogram against the sorted list of recorded values.
- `Bytes`, `Gtpu`, `Avps`, `Gy`: the codecs, each with its parser, its printer and the round trip.
  `GtpuGrammar`, `AvpGrammar`, `GyMeaning`: which byte strings they accept and what those say, told position by
  position for every input, not only for what the printers make.
- `IngestStage`: packets to events to rings. `Runtime`: all threads together, from the bytes of packets and
  Diameter buffers to written records and shutdown.

Results where code and comment disagree, or where the code needs a condition:

- Deleting from the table ends if and only if some slot is empty (`Probing.DeletionStopsIffEmptySlot`). So
  every modification and release of a session returns, in every run, if and only if the TEID table has more
  than two slots per subscriber, or more slots than there are TEIDs (`TableLoad.AllEndIff`).
- A write to the snapshot publisher can fail if and only if there are more readers than buffers less two
  (`Snapshot.StarvesIff`), although the comment at include/gtpm/snapshot.hpp:69-70 asks for more readers
  than buffers.
- A reader can pin a buffer that is filled but not yet published, although the comment at
  include/gtpm/snapshot.hpp:97 speaks of the newest published one. Its next pin can then be older
  (`Snapshot.PinsCanGoBack`), exactly as long as the publication is outstanding (`Snapshot.GoesBackIff`).
- A seqlock load that spans `d` stores can return a value that was never stored if and only if `d` is a
  positive multiple of 2^31 (`Seqlock.TornIffWrapped`); all other loads are linearizable.
- The histogram's relative error exceeds the 0.4% of the comment at include/gtpm/histogram.hpp:24 exactly for
  the values of `Histogram.ErrorAbove256thIff`. It is largest at the powers of two, where it is
  `(2^b - 1) / 2^(b + 7)`, just below 1/128 (`Histogram.WorstAtPowers`). The reported edge bounds a value from
  above if and only if the value is below 2^47.
- Two rating groups share a slot without the aggregate flag exactly when the reserved id 0xFFFFFFFF is
  used as a rating group (`Buckets.SharesUnflaggedIffUnset`), and then a slot can hold the bytes of both
  (`Buckets.ReservedGroupLies`).
- A full TEID table refuses a tunnel even if it is stored. A session that is then installed again under another
  rating group keeps that tunnel on the slot of the earlier one, and its next packet is accounted to the wrong
  bucket unflagged. All other runs are honest (`StaleSlots.HonestThroughoutIff`), and all runs are if and only
  if the table has more than two slots per subscriber or more slots than TEIDs (`StaleSlots.AlwaysHonestIff`).
- An extension header of type 0 given to the GTP-U builder ends the chain early and its bytes are received
  as payload (`Gtpu.PayloadSurvivesIff`).
- Under every fair schedule `stop()` returns if and only if the metering batch size is positive or no packet
  is queued when it is called (`Runtime.StopsIff`). With batch size zero one packet is enough
  (`Runtime.ZeroBatchOccurs`).

Counters that the program only displays are unbounded naturals. Usage counters, charging octets, record
numbers, timestamps, ring indices and the seqlock counter have their machine width; reference counts and
table sizes are naturals that are proved or assumed to stay within theirs. `cfg.teidCapacity` is the rounded
capacity of the TEID table.

## Model

| member | source | states |
|---|---|---|
| `Cyclic.BitCeil` | include/gtpm/flat_hash.hpp:154-156 | the capacity is the least power of two that is at least the requested one |
| `Probing.ProbeMiss` | include/gtpm/flat_hash.hpp:69-77 | a key not met before an empty slot, or before a full lap, is not stored |
| `Probing.InsertFresh` | include/gtpm/flat_hash.hpp:94-110 | writing a new key into the first empty slot of its probe path keeps keys unique and every key reachable from its home |
| `Probing.EmptySlotIffRoom` | include/gtpm/flat_hash.hpp:93 | a slot is empty exactly when fewer keys are stored than there are slots |
| `Probing.ShiftMove` | include/gtpm/flat_hash.hpp:163-174 | pulling a key up into the hole keeps the deletion invariant: everything but the hole is stored once and reachable |
| `Probing.ShiftKeep` | include/gtpm/flat_hash.hpp:163-174 | so does leaving a key whose home lies past the hole |
| `Probing.ShiftEnd` | include/gtpm/flat_hash.hpp:175-176 | clearing the hole once the next slot is empty restores the table, without the deleted key |
| `Probing.ApproachesEmpty` | include/gtpm/flat_hash.hpp:161-177 | each iteration of deletion brings the cursor one slot closer to the first empty slot |
| `Probing.FullStaysFull` | include/gtpm/flat_hash.hpp:161-177 | from a full table no iteration makes a slot empty |
| `Probing.DeletionStopsIffEmptySlot` | include/gtpm/flat_hash.hpp:161-177 | deletion terminates if and only if the table has an empty slot |
| `Probing.DeletionStopsIffRoom` | include/gtpm/flat_hash.hpp:161-177 | deletion terminates if and only if fewer keys are stored than there are slots |
| `Probing.VisitsOnce` | include/gtpm/flat_hash.hpp:145-151 | going through the slots meets every stored entry exactly once |
| `FlatHash.FlatHashU32.constructor` | include/gtpm/flat_hash.hpp:45-49 | the table starts as the empty map with the rounded capacity, at least 8 |
| `FlatHash.FlatHashU32.Size` | include/gtpm/flat_hash.hpp:52 | size is the cardinality of the map, reserved key included |
| `FlatHash.FlatHashU32.Find` | include/gtpm/flat_hash.hpp:64-78 | returns exactly the mapped value, or nothing for an absent key |
| `FlatHash.FlatHashU32.Insert` | include/gtpm/flat_hash.hpp:87-110 | updates the map; refuses exactly when all slots are taken, even for a stored key |
| `FlatHash.FlatHashU32.Erase` | include/gtpm/flat_hash.hpp:113-131 | removes the key from the map and says whether it was there |
| `FlatHash.FlatHashU32.RemoveAt` | include/gtpm/flat_hash.hpp:161-177 | the in-place shift removes one key and loses or duplicates no other |
| `FlatHash.FlatHashU32.Clear` | include/gtpm/flat_hash.hpp:133-137 | leaves the empty map |
| `FlatHash.FlatHashU32.ForEach` | include/gtpm/flat_hash.hpp:145-151 | visits each entry of the map once, the reserved key last |
| `FlatHash.FlatHashU32.Replay` | include/gtpm/flat_hash.hpp:64-177 | for every sequence of calls that deletes nothing from a full table, all answers and the final contents are those of a plain map |
| `Usage.Conservation` | include/gtpm/meter.hpp:562-598 | reported plus pending usage is the charged usage, modulo 2^64 always and exactly while it fits 64 bits |
| `Usage.DirectionsCoverSlots` | include/gtpm/meter.hpp:346-357 | no bytes pending in either direction leaves none pending in any slot, while the charges fit 64 bits |
| `Tunnels.StepKeepsTunnels` | include/gtpm/meter.hpp:165-357 | every operation keeps: each binding points to an active subscriber that owns the TEID in the bound direction |
| `Tunnels.RunKeepsTunnels` | include/gtpm/meter.hpp:193-206 | so it holds after every run from an empty engine |
| `Tunnels.OnlyOwnersAreCharged` | include/gtpm/meter.hpp:254-297 | a packet charges at most one subscriber: an active one that owns its TEID, with the packet's bytes, in that tunnel's direction unless learned |
| `Tunnels.InstallBinds` | include/gtpm/meter.hpp:165-208 | an accepted session that has no binding refused has both its tunnels bound, each in its direction and to the slot of its rating group, also when they are swapped, equal or moved |
| `Tunnels.TwoPerSubscriber` | include/gtpm/meter.hpp:450-456 | the table holds at most two TEIDs per subscriber |
| `Tunnels.TeidTableNeverFills` | include/gtpm/meter.hpp:450-507 | with more than two slots per subscriber, in every run the table keeps an empty slot, every bind works and the failure counter stays 0 |
| `Sessions.ActiveSessions` | include/gtpm/meter.hpp:165-237 | in every run the active subscribers with an identity are exactly the sessions installed and not released, each with tunnels and rating group of its last install |
| `Sessions.InstallFrame` | include/gtpm/meter.hpp:193-204 | an install leaves every TEID alone that the session neither had nor gets |
| `Sessions.ReleaseFrame` | include/gtpm/meter.hpp:224-237 | a release leaves every TEID alone that is not the session's |
| `Sessions.PacketFrame` | include/gtpm/meter.hpp:254-267 | a packet binds at most its own TEID, if that was unbound |
| `Sessions.SessionsKeepTunnels` | include/gtpm/meter.hpp:165-237 | if no two active sessions ever share a tunnel and no binding is refused, every active session has its tunnels bound to it in their directions after every run |
| `Sessions.BoundPacketGoesTo` | include/gtpm/meter.hpp:244-296 | a control message charges no one; a packet of a bound TEID charges exactly its subscriber, in the direction of the tunnel or else its own, in the bucket of its QoS flow or else the rating group |
| `Sessions.UnboundPacketGoesTo` | include/gtpm/meter.hpp:254-267 | a packet of an unbound TEID charges a new subscriber without identity exactly if it can be learned, and no one otherwise |
| `Sessions.SessionIsCharged` | include/gtpm/meter.hpp:269-296 | so a packet for a tunnel of an active session is charged to that session and to no one else |
| `Sessions.OriginIsInstall` | include/gtpm/meter.hpp:179-191 | in every run the records of an identity name it and start with the install that began its session |
| `TableLoad.RoomyDeletable` | include/gtpm/flat_hash.hpp:113-131 | with more than two slots per subscriber deleting any TEID from the table ends |
| `TableLoad.AllEndIff` | include/gtpm/meter.hpp:165-237 | every install and release of every run returns if and only if there are more than two slots per subscriber or more slots than TEIDs |
| `Billing.StepKeepsBooks` | include/gtpm/meter.hpp:165-357 | every operation keeps every subscriber's account: counters are the charges, emitted values the reported totals, numbers gapless; resets happen only when nothing is pending |
| `Billing.BillingConserved` | include/gtpm/meter.hpp:562-598 | in every run and for every activation, records plus pending usage equal the charges in each direction and slot; ended activations were billed in full |
| `Billing.DrainReportsEverything` | include/gtpm/meter.hpp:346-357 | after a drain no subscriber has pending bytes in either direction, nor in any slot while its bytes fit 64 bits |
| `Billing.DrainTwice` | include/gtpm/meter.hpp:346-357 | a second drain changes nothing |
| `RecordContents.RecordsAreTrue` | include/gtpm/meter.hpp:562-598 | in every run every record of every activation, current and ended, names its identity and index, starts with the activation or where the previous record ended, and tells exactly what was charged since, modulo 2^64 |
| `RecordSlots.RecordSlotsAreTrue` | include/gtpm/meter.hpp:575-582 | in every run without a tunnel on an old slot every record shows under each label the bytes charged to that bucket since the previous record, slot 2 unless flagged |
| `RecordSlots.LabelsAreFirstThree` | include/gtpm/meter.hpp:461-477 | in every run the labels are the first three buckets that asked for a slot, and the flag says exactly whether there were more |
| `Ledger.RecordsAccountedFor` | include/gtpm/meter.hpp:562-598 | in every run the records taken and refused by the record ring are exactly the records of all activations, each once, and it took as many as it had room for |
| `Buckets.SharesUnflaggedIffUnset` | include/gtpm/meter.hpp:461-477 | two buckets share a slot unflagged exactly when the first is the reserved id, a slot is free and the second is new |
| `Buckets.ReservedGroupLies` | include/gtpm/meter.hpp:461-481 | a run with the reserved id as rating group in which slot 0 holds bytes of two buckets unflagged |
| `Buckets.StepKeepsBuckets` | include/gtpm/meter.hpp:165-357 | every operation keeps bucket honesty, slots resolved in bindings included, unless it installs a session again under another rating group and a full table refuses a tunnel that is stored |
| `Buckets.SlotsAreHonest` | include/gtpm/meter.hpp:292-296 | in every run without such an install slots 0 and 1 hold exactly the bytes of their label, slot 2 too unless flagged, and the three add up to both directions |
| `StaleSlots.StaleLies` | include/gtpm/meter.hpp:191-204 | after each such install one more byte for the tunnel in question makes the account of the session dishonest |
| `StaleSlots.TakenIsHonest` | include/gtpm/meter.hpp:450-458 | every run in which no binding of an install is refused is honest |
| `StaleSlots.HonestThroughoutIff` | include/gtpm/meter.hpp:201-204 | all accounts stay honest throughout a run, whatever packet comes next, if and only if the run has no such install |
| `StaleSlots.AlwaysHonestIff` | include/gtpm/meter.hpp:450-477 | all runs are honest if and only if there are more than two slots per subscriber or more slots than TEIDs |
| `Reporting.DueIff` | include/gtpm/meter.hpp:328-341 | a sweep finds a subscriber due exactly if it is active and its bytes since the last record reach the volume threshold, or there are some and the report interval has passed since that record or the activation |
| `Reporting.PollOnlyDue` | include/gtpm/meter.hpp:317-343 | in every run a poll makes a record only for a subscriber that is due, one, with that reason and the time of the poll |
| `Reporting.PollWaits` | include/gtpm/meter.hpp:318-319 | in every run a poll within the sweep period of the last one that swept does nothing |
| `Reporting.PollIsBounded` | include/gtpm/meter.hpp:323-325 | one poll makes at most one record or as many as the sweep fraction allows |
| `Reporting.DrainExact` | include/gtpm/meter.hpp:346-357 | in every run a drain makes one Shutdown record for exactly the active subscribers with unbilled bytes |
| `Reporting.ReleaseExact` | include/gtpm/meter.hpp:224-237 | releasing an active session makes one Release record, for it, and ends it; any other release changes nothing |
| `Fairness.PendingIsOutstanding` | include/gtpm/meter.hpp:332-333 | the pending value a sweep computes is what was charged and not yet reported |
| `Fairness.SlicesCover` | include/gtpm/meter.hpp:323 | 2f - 1 slices cover all subscribers, f being the sweep fraction or 1 |
| `Fairness.SweepReaches` | include/gtpm/meter.hpp:325-342 | passing over k subscribers reports a due one or comes k closer to it |
| `Fairness.OverdueSessionIsReported` | include/gtpm/meter.hpp:317-343 | with a fixed subscriber count, a continuously active, overdue session gets a record within 2f - 1 effective polls from any cursor position, whatever happens between them |
| `Totals.EventsSorted` | include/gtpm/meter.hpp:244-299 | in every run each event is counted once, as uplink, downlink, control or of an unknown tunnel |
| `Totals.BytesSorted` | include/gtpm/meter.hpp:244-299 | in every run the bytes of all packets are the uplink, downlink, unknown-tunnel and control bytes together |
| `Totals.CountersAreRight` | include/gtpm/meter.hpp:244-313 | in every run the counters of control messages, charging events and octets, releases, installed and learned subscribers and the time of the last event are those of the operations |
| `Totals.ChargesAddUp` | include/gtpm/meter.hpp:277-287 | in every run the charges of all activations, current and ended, add up to the bytes and packets counted in each direction |
| `Totals.RecordsCoverCharges` | include/gtpm/meter.hpp:562-598 | in every run all records taken or refused, together with what is pending, are all charges in each direction and slot, modulo 2^64 and exactly while each activation fits 64 bits |
| `Crosscheck.GyAddsUp` | include/gtpm/meter.hpp:179-191 | until a session of an identity starts afresh, the octets and reports kept for it grow by exactly those of its usage reports, modulo 2^64 and 2^32, through modifications and release, and the time kept is that of the last report |
| `Crosscheck.GySinceActivation` | include/gtpm/meter.hpp:302-313 | in every run what is kept for an identity is exactly what was reported about it since its session last started |
| `FlowTable.PlaceShape` | include/gtpm/meter.hpp:509-542 | putting a flow into a slot of its scanned window keeps keys unique and reachable within the window |
| `FlowTable.TellsEvict` | include/gtpm/meter.hpp:529-541 | after an eviction every remaining entry still tells its bytes and packets since its own insertion, the last packet, and subscriber, tunnel and QoS flow of the first |
| `FlowTable.SpotIff` | include/gtpm/meter.hpp:513-535 | the scan of a window ends with a slot if and only if the window holds the key, a free slot or an entry not stamped 2^64 - 1 |
| `FlowTable.Flows.Update` | include/gtpm/meter.hpp:509-542 | hits bump the entry, misses insert it, and a full window evicts its least recently seen entry; stored plus evicted bytes are all metered bytes, modulo 2^64 |
| `FlowTable.Flows.Scan` | include/gtpm/meter.hpp:513-535 | one pass finds the key, the first free slot, or the least recently seen victim of a full window |
| `FlowTable.Flows.FindFlow` | include/gtpm/meter.hpp:380-391 | returns the entry with precisely the bytes and packets since that key's last insertion, the time of the last packet and the subscriber, tunnel and QoS flow of the first, and nothing for an absent key |
| `EngineObject.MeterEngine.constructor` | include/gtpm/meter.hpp:142-150 | the object starts as the empty engine, whatever its sizes |
| `EngineObject.AssignBucket` | include/gtpm/meter.hpp:461-477 | the two loops compute the slot assignment of the state machine |
| `EngineObject.MeterEngine.InstallSession` | include/gtpm/meter.hpp:165-208 | refines the install step on the table object, re-installs, moved tunnels and refused bindings included, and returns the index exactly when every binding took |
| `EngineObject.MeterEngine.EndSession` | include/gtpm/meter.hpp:224-238 | refines the release step: a last record, the bindings dropped, the session inactive; false for an unknown or inactive session |
| `EngineObject.MeterEngine.LearnTeid` | include/gtpm/meter.hpp:485-507 | refines learning a subscriber from traffic, a full TEID table included |
| `EngineObject.MeterEngine.ApplyEvent` | include/gtpm/meter.hpp:244-299 | refines the packet step; the flow table meters exactly the charged packets, each under its own flow |
| `EngineObject.MeterEngine.ApplyGyEvent` | include/gtpm/meter.hpp:302-313 | refines the charging-event step |
| `EngineObject.MeterEngine.EmitRecord` | include/gtpm/meter.hpp:562-598 | refines emitting a record |
| `EngineObject.MeterEngine.PollTimers` | include/gtpm/meter.hpp:317-343 | refines the poll step, its cursor and its slice |
| `EngineObject.MeterEngine.DrainAll` | include/gtpm/meter.hpp:346-357 | refines the drain step |
| `EngineObject.MeterEngine.Replay` | include/gtpm/meter.hpp:165-357 | over every sequence of calls that all return, the object does what the state machine does, the flow slots are those of its specification, and the flow table meters exactly the charged bytes |
| `EngineObject.DatedAllPlaced` | include/gtpm/meter.hpp:513-541 | with a probe window and without the largest timestamp every charged packet of every run finds a place for its flow |
| `SpscRing.SlotOf` | include/gtpm/spsc_ring.hpp:55-84 | an index finds the same slot before and after it wraps around, because every capacity divides 2^64 |
| `SpscRing.WordsAgree` | include/gtpm/spsc_ring.hpp:50-98 | the 64-bit differences and comparisons of both sides are those of the unbounded counts |
| `SpscRing.WriteIsFree` | include/gtpm/spsc_ring.hpp:49-58 | no write hits a slot the consumer has yet to read |
| `SpscRing.StepKeeps` | include/gtpm/spsc_ring.hpp:49-103 | every atomic step keeps the order of cached and real indices and the published slots |
| `SpscRing.RunIsFifo` | include/gtpm/spsc_ring.hpp:49-103 | under every interleaving of single and bulk operations, however often the 64-bit indices wrap around, the consumed sequence is a prefix of the accepted one, at most a capacity behind |
| `SpscRing.RefusalsAreReal` | include/gtpm/spsc_ring.hpp:49-103 | a push is refused exactly when the ring is full and a pop comes back empty exactly when it is empty, at the instant of the reload |
| `SpscRing.StepIsQueueStep` | include/gtpm/spsc_ring.hpp:49-103 | every step appends the published elements to the queue, takes exactly its first elements, or leaves it alone |
| `SpscRing.PopTakesSome` | include/gtpm/spsc_ring.hpp:74-87 | a bulk pop that goes ahead takes at least one element, unless it may take none |
| `Seqlock.StepKeeps` | include/gtpm/seqlock.hpp:41-83 | every step of writer and readers keeps the counter, word and result invariants, wrap-around of the counter included |
| `Seqlock.SuccessIsCurrent` | include/gtpm/seqlock.hpp:61-83 | a load that passes its check returns the newest completed store, with no store in progress, unless it spans a positive multiple of 2^31 stores |
| `Seqlock.LoadsAreConsistent` | include/gtpm/seqlock.hpp:41-83 | under every interleaving each load that does not span a positive multiple of 2^31 stores returns one store's payload, current throughout the load, and loads of a reader never overlap backwards |
| `Seqlock.TornIffWrapped` | include/gtpm/seqlock.hpp:61-83 | for payloads of two words or more, a load spanning d stores can return a payload that was never stored if and only if d is a positive multiple of 2^31 |
| `Snapshot.StepKeeps` | include/gtpm/snapshot.hpp:60-123 | every step keeps: a count is the number of holders or the writer's mark, and filled buffers hold their fill |
| `Snapshot.PinnedIsComplete` | include/gtpm/snapshot.hpp:98-123 | under every interleaving a pinned buffer is not the writer's and holds the whole payload of one finished fill |
| `Snapshot.PinnedIsStable` | include/gtpm/snapshot.hpp:60-123 | no step changes a buffer while it is pinned |
| `Snapshot.WriterNeverStarves` | include/gtpm/snapshot.hpp:71-85 | with at most N - 2 readers no write fails, even when readers pin and release during its scan |
| `Snapshot.WriterCanStarve` | include/gtpm/snapshot.hpp:69-85 | with N - 1 readers or more, whatever payload is written, some run makes the write fail |
| `Snapshot.StarvesIff` | include/gtpm/snapshot.hpp:69-85 | for buffers of every size some run makes a write fail if and only if there are more than N - 2 readers |
| `Snapshot.PinIsRecent` | include/gtpm/snapshot.hpp:98-123 | a pin is at least as new as what was published when the reader last held no index, so at every load of the index before it |
| `Snapshot.GoesBackIff` | include/gtpm/snapshot.hpp:88-123 | after a pin is released a later pin of the same reader can be older if and only if the first fill still awaits publication |
| `Snapshot.BackByOneAtMost` | include/gtpm/snapshot.hpp:88-123 | later pins are never more than one fill older |
| `Snapshot.PinsCanGoBack` | include/gtpm/snapshot.hpp:91-92 | for every number of buffers and every payload some run leads a reader into that case |
| `Snapshot.GivesUpIff` | include/gtpm/snapshot.hpp:98-123 | a read gives up if and only if nothing is published or it has met the writer's mark sixteen times |
| `Histogram.IndexMonotone` | include/gtpm/histogram.hpp:102-109 | below 2^47 bucket indices grow with the value |
| `Histogram.IndexInRange` | include/gtpm/histogram.hpp:102-109 | every value has a bucket |
| `Histogram.EdgeIsClose` | include/gtpm/histogram.hpp:111-116 | below 2^47 the upper edge is at least the value, equal below 256, and less than 1/128 too high above |
| `Histogram.NeverOptimisticIff` | include/gtpm/histogram.hpp:102-116 | the edge bounds the value from above if and only if it is below 2^47 |
| `Histogram.ErrorAbove256thIff` | include/gtpm/histogram.hpp:24 | exactly which values below 2^47 are reported with an error above 1/256 |
| `Histogram.WorstAtPowers` | include/gtpm/histogram.hpp:102-116 | at a power of two the error is one less than the width of the sub-bucket, and no other value of that power has a larger relative error |
| `Histogram.ErrorAt512` | include/gtpm/histogram.hpp:24 | for instance 512 is reported as 515 |
| `Histogram.Histogram.Record` | include/gtpm/histogram.hpp:31-38 | adds one value to the multiset the histogram stands for |
| `Histogram.Histogram.Reset` | include/gtpm/histogram.hpp:40-46 | forgets all values |
| `Histogram.Histogram.Merge` | include/gtpm/histogram.hpp:48-54 | is recording the other's values, also when merging with itself |
| `Histogram.Histogram.Quantile` | include/gtpm/histogram.hpp:65-75 | returns the edge of the bucket where the cumulative count reaches the rank, close to the value of that rank in every sorted list of the values; the maximum beyond the last rank; 0 when empty |
| `Histogram.WalkFindsRank` | include/gtpm/histogram.hpp:69-73 | that bucket is the bucket of the value with this rank in sorted order |
| `Histogram.QuantileIsClose` | include/gtpm/histogram.hpp:65-75 | so the reported value is at or above the value of that rank and less than 1/128 too high |
| `Gtpu.ParseExtChain` | include/gtpm/gtpu.hpp:105-140 | the loop computes the recursive walk: consumed bytes, links, QoS information or the first error |
| `Gtpu.ParseGtpu` | include/gtpm/gtpu.hpp:146-200 | computes the specified parse, every error in the order of the checks |
| `Gtpu.ChainBounds` | include/gtpm/gtpu.hpp:105-140 | a walk stays inside its buffer and takes at most 1020 bytes per link |
| `Gtpu.ParseSplitsFrame` | include/gtpm/gtpu.hpp:146-200 | every successful parse splits the declared bytes into header and payload, and the header length is at most 16332, so its 16-bit field never truncates |
| `GtpuGrammar.WalkExact` | include/gtpm/gtpu.hpp:105-140 | for every area the walk follows the headers that stand there, at most 16, reads the last container bit by bit, and fails with the reason found where it cannot go on |
| `GtpuGrammar.ParseExact` | include/gtpm/gtpu.hpp:146-200 | for every byte string the parser gives the reason of the first failing check or the fields that stand at their places |
| `Gtpu.BuildChain` | include/gtpm/synth.hpp:232-244 | the loop builds the specified chain of padded headers |
| `Gtpu.BuildGtpu` | include/gtpm/synth.hpp:221-269 | builds the specified packet |
| `Gtpu.WalkEncoded` | include/gtpm/gtpu.hpp:105-140 | walking an encoded chain consumes exactly its bytes and folds its QoS information, and fails only past 16 links |
| `Gtpu.RoundTrip` | include/gtpm/gtpu.hpp:146-200 | parsing a built packet, whatever follows it, returns the fields and the payload after exactly the live links, or reports a chain of more than 16 |
| `Gtpu.PayloadSurvivesIff` | include/gtpm/synth.hpp:221-269 | the payload comes back unchanged exactly when no extra header has the chain-ending type |
| `Gtpu.QosRoundTrip` | include/gtpm/gtpu.hpp:124-133 | flow identifier, PDU type and reflective indicator (downlink only) come back, whatever other headers there are |
| `Gtpu.NoQosRoundTrip` | include/gtpm/gtpu.hpp:124-133 | without a container there is no QoS information |
| `Gtpu.PrefixIsTruncated` | include/gtpm/gtpu.hpp:146-167 | every strict prefix of a built packet is rejected as truncated |
| `Avps.WalkArea` | include/gtpm/diameter.hpp:184-211 | the loop visits exactly the AVPs of the recursive walk and ends with its status |
| `Avps.AcceptedIffCovered` | include/gtpm/diameter.hpp:184-211 | a walk succeeds if and only if the AVPs it visited, with their padding, make up the whole area |
| `AvpGrammar.WalkExact` | include/gtpm/diameter.hpp:184-211 | for every area the walk visits the AVPs that stand there, field by field, up to the end or the first place where none does; a last one whose padding is cut off is still visited |
| `Avps.PutAvp` | include/gtpm/synth.hpp:300-311 | appends exactly one padded AVP and keeps the buffer aligned |
| `Avps.AreaRoundTrip` | include/gtpm/diameter.hpp:184-211 | walking any concatenation of encoded AVPs visits them in order with their data and without padding |
| `Avps.NestedRoundTrip` | include/gtpm/diameter.hpp:184-217 | nested groups come back exactly when they fit the depth cap of 8; deeper ones are reported as too deep |
| `Gy.NoWrap` | include/gtpm/diameter.hpp:258-267 | any 19 digits fit 64 bits |
| `Gy.PackImsi` | include/gtpm/diameter.hpp:258-267 | the 64-bit loop returns the decimal value of 1 to 19 digits and rejects everything else |
| `Gy.PackedInjective` | include/gtpm/diameter.hpp:258-267 | equal-length identities with equal packed values are equal |
| `Gy.ParseUsed` | include/gtpm/diameter.hpp:269-286 | folds the octet counters and falls back to input plus output modulo 2^64 |
| `Gy.ParseMscc` | include/gtpm/diameter.hpp:288-315 | folds one service block, nested units included |
| `Gy.ParseSubscription` | include/gtpm/diameter.hpp:317-337 | takes the identity of the last subscription type and data |
| `Gy.ParseGy` | include/gtpm/diameter.hpp:342-367 | folds all AVPs of a message in order, keeping at most 8 service blocks |
| `Gy.FirstEightKept` | include/gtpm/diameter.hpp:355-362 | the first eight service blocks are kept in order, and the overflow flag is set if and only if there were more |
| `GyMeaning.UsedMeans` | include/gtpm/diameter.hpp:269-286 | for every Used-Service-Unit input, output and total are the last readable 4-byte or 8-byte values of their codes, and a total of 0 is replaced by input plus output modulo 2^64 |
| `GyMeaning.BlockMeans` | include/gtpm/diameter.hpp:288-315 | every service block is extracted as its AVPs say: used and granted units, rating group and service identifier |
| `GyMeaning.SubscriptionMeans` | include/gtpm/diameter.hpp:317-337 | every Subscription-Id sets the IMSI, if it is 1 to 19 digits, or the MSISDN by its last readable type and last data |
| `GyMeaning.MessageMeans` | include/gtpm/diameter.hpp:342-367 | every message is extracted as its AVPs say, with its first eight service blocks |
| `GyMeaning.EventsMean` | include/gtpm/pipeline.hpp:205-237 | every message gives one event for each of its first eight service blocks with what that block says, or one without usage |
| `GyMeaning.HeaderExact` | include/gtpm/diameter.hpp:162-180 | a header is accepted exactly when version, length and alignment are right, with the fields at their places; otherwise the first failing check names the reason |
| `GyMeaning.ScanExact` | include/gtpm/pipeline.hpp:164-187 | every buffer gives the events of the messages that stand in it, up to the first place where none does, and is clean exactly if less than a header is left there |
| `Gy.BuildCcr` | include/gtpm/synth.hpp:371-399 | builds the specified request |
| `Gy.HeaderRoundTrip` | include/gtpm/diameter.hpp:162-180 | a framed AVP area comes back with all header fields, whatever follows |
| `Gy.ReportRoundTrip` | include/gtpm/diameter.hpp:342-367 | extraction recovers the whole report of a built request: names, identity, request type and number, rating group and used octets, their total modulo 2^64 |
| `Gy.StreamRoundTrip` | include/gtpm/pipeline.hpp:164-187 | a buffer that starts with whole requests gives exactly their events in order before those of the remaining bytes |
| `IngestStage.Ingest.PushEvent` | include/gtpm/pipeline.hpp:190-203 | an offered event is taken at the end of the ring or counted as dropped |
| `IngestStage.Ingest.ProcessGtpu` | include/gtpm/pipeline.hpp:109-161 | offers exactly the event of a parsed packet, none for a rejected one; counts it as packet or control message, and a packet without a valid inner one as an inner error; pushed plus dropped stay equal to packets plus control messages |
| `IngestStage.Ingest.EmitGyEvents` | include/gtpm/pipeline.hpp:205-237 | offers one event per service block, or one for a message without any |
| `IngestStage.Ingest.ProcessDiameter` | include/gtpm/pipeline.hpp:164-187 | offers exactly the events of the buffer in order, counts messages and errors, and reports progress only when the ring took one |
| `IngestStage.EventSays` | include/gtpm/pipeline.hpp:118-158 | every field of the event of every parsed packet: type 255 is charged with the inner IP length if configured and valid and with the payload otherwise, all other types with nothing |
| `IngestStage.PacketToEvent` | include/gtpm/pipeline.hpp:109-161 | every packet the builder can express and the parser accepts, of any type and with any chain, becomes the event of its tunnel, type, QoS information and payload size |
| `IngestStage.PacketRecovered` | include/gtpm/pipeline.hpp:109-161 | without an early end of the chain payload, flow identifier and direction are the ones built; unknown direction without a container; the bytes are the inner IP length, the payload size or none |
| `IngestStage.RequestsDelivered` | include/gtpm/pipeline.hpp:164-237 | whole requests all reach a ring that has room for them, in order, after whatever it had taken before, with identity, rating group and used octets |
| `Runtime.IngestIsExact` | include/gtpm/pipeline.hpp:109-237 | in every run the ingest side counts and pushes exactly what arrived, those events in order for which there was room |
| `Runtime.RequestsInHand` | include/gtpm/pipeline.hpp:205-237 | of a buffer of requests the engine gets for each its identity and total octets |
| `Runtime.EventsKept` | src/meter_thread.cpp:89-131 | every move of the metering thread keeps: what the rings took is applied, in hand or queued, in that order |
| `Runtime.MoveKeeps` | src/meter_thread.cpp:79-138 | every move of every thread keeps the event, engine, counter, record and ordering invariants |
| `Runtime.StopConserves` | src/meter_thread.cpp:79-138 | for every interleaving, when stop() has returned all rings are empty, applied plus dropped events are G-PDUs plus control messages, the records sent are those written or failed, in order, nothing is unreported, and each round polled once |
| `Runtime.StopBillsEverything` | src/meter_thread.cpp:133-137 | when stop() has returned, the records of every activation add up to the bytes charged to it, while those fit 64 bits |
| `Runtime.StopFilesEverything` | src/meter_thread.cpp:276-303 | when stop() has returned, written, failed and refused records together are exactly the records of all activations |
| `Runtime.StopAccountsForBytes` | src/meter_thread.cpp:79-138 | when stop() has returned, the bytes of all events the ring took are the uplink, downlink and unknown-tunnel bytes, and written, failed and refused records together have exactly the uplink and downlink bytes, modulo 2^64 and outright while each activation fits 64 bits |
| `Runtime.StopReturns` | src/meter_thread.cpp:79-131 | once called, stop() returns under every schedule that is fair to the thread it waits for, unless the batch size is zero with packets queued |
| `Runtime.AwaitedCanMove` | src/meter_thread.cpp:79-131 | the thread that stop() is waiting for always has a move |
| `Runtime.AwaitedAdvances` | src/meter_thread.cpp:79-131 | every move of the thread that stop() is waiting for brings its end nearer |
| `Runtime.OthersDoNotHinder` | src/meter_thread.cpp:79-131 | no move of a thread that stop() is not waiting for puts its end farther away |
| `Runtime.ZeroBatchNeverStops` | src/meter_thread.cpp:92-129 | in that excepted case no run ever gets to the end |
| `Runtime.ZeroBatchOccurs` | src/meter_thread.cpp:92-129 | the case occurs: with batch size zero, after any packet that parses and finds room |
| `Runtime.StopsIff` | src/meter_thread.cpp:79-131 | under every schedule that is fair from the call on, stop() returns if and only if the batch size is positive or no packet is queued at the call |
| `Runtime.FairScheduleExists` | src/meter_thread.cpp:79-131 | every run in which stop() has been called continues as a fair schedule |

## Left out

- FlatHash.FlatHashU32.Erase: demands an empty slot when the key is stored, because deletion from a full table does not end.
- FlatHash.FlatHashU32.Find: the hash mixing function is a parameter, and the lookup and probe counters are not modelled.
- EngineObject.MeterEngine.InstallSession: a tunnel that has moved must not be stored in a full table, because its deletion would not end.
- EngineObject.MeterEngine.EndSession: neither must a tunnel of a session that is released.
- FlowTable.Flows.Update: the probe window must hold the key, a free slot or an entry not stamped 2^64 - 1, because otherwise the program has no entry to evict.
- EngineObject.MeterEngine.ApplyEvent: the same for a charged packet when flows are tracked.
- EngineObject.MeterEngine.Replay: the same for every charged packet of the run, and for every deletion that it does not meet a full table.
- SpscRing.RunIsFifo: capacities above 2^63 are not covered, for which rounding up is undefined.
- TableLoad.AllEndIff: says nothing of a capacity of exactly 2^32 - 1, which is no power of two.
- StaleSlots.AlwaysHonestIff: says nothing of a capacity of exactly 2^32 - 1 either, and excludes the rating group 0xFFFFFFFF.
- EngineObject.MeterEngine.EmitRecord: the record's wall-clock time is not modelled, and the record ring is an arbitrary sequence of accepted and refused pushes.
- Billing.DrainReportsEverything: packets are not covered, because drain looks at bytes only.
- Sessions.SessionsKeepTunnels: asks that no two active sessions ever share a tunnel, because a later install takes it over and either release unbinds it, and that no binding is refused.
- RecordSlots.RecordSlotsAreTrue: excludes the rating group 0xFFFFFFFF and installs that leave a tunnel on an old slot, as Buckets.SlotsAreHonest does.
- RecordSlots.LabelsAreFirstThree: excludes the rating group 0xFFFFFFFF, which is taken for an unlabelled slot.
- Buckets.SlotsAreHonest: excludes the rating group 0xFFFFFFFF and installs that leave a tunnel on an old slot, with which it fails; a rating group with the top bit set and the QoS flow of the same id are one bucket.
- Histogram.Histogram.Quantile: takes an integer rank; the floating-point step from a fraction to a rank is not modelled. Counts are unbounded.
- Gtpu.RoundTrip: assumes extension contents of at most 1018 bytes and a length below 2^16, beyond which the builder's fields wrap.
- Gtpu.ParseGtpu: on an error only the status is returned, not the fields read before it.
- Avps.WalkArea: the visitor never stops the walk early, as in all extraction code of the program; what visitors do is folded over the visited AVPs afterwards.
- IngestStage.Ingest.ProcessGtpu: the inner IP parser is a parameter; addresses, ports and frame length of an event are not modelled.
- Runtime.StopConserves: traffic arrives only before stop() is called, the records of one engine operation are queued in one move, and publication, latency sampling and start() are not modelled.
- Display counters of the engine are unbounded, and subscriber indices are not truncated to 32 bits.
- Weak memory: fences and acquire/release orders are replaced by interleavings of single atomic operations.
- Ethernet, IP and UDP parsing, pcap and socket input, session files, HTTP reporting, command line, pacing and affinity.
- Credit-control answers, top flows, the rolling detail scan and load-factor statistics.
