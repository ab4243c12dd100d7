# NetFlow and IPFIX exporter: a verified model of the packetisation transaction

The exporter turns a request of log records into NetFlow v5, NetFlow v9 or IPFIX datagrams on one
connected UDP endpoint. This project models that transaction and the protocols around it, and proves
what the code relies on without writing it down.

| files | what they model |
|---|---|
| `Base.dfy`, `Sizes.dfy` | options, Go's integer bounds, write-result classes, checked sizes |
| `LedgerModel.dfy`, `PackedBits.dfy`, `Ledger.dfy` | the request ledger: a plain sequence of record states, its two-bit packing, and the class that keeps counters and one open interval |
| `StateModel.dfy`, `StateLaws.dfy`, `StateRuns.dfy`, `StateTheorems.dfy`, `StateHeaders.dfy`, `StateProgress.dfy`, `ClockLaws.dfy`, `State.dfy` | the protocol state machine: template rounds, refresh, sequence numbers, the logical clock, rollback, and the class that performs the transitions in place |
| `Bootstrap.dfy` | bootstrap of an unpublished candidate |
| `Handoffs.dfy`, `PackerLaws.dfy`, `Outside.dfy`, `Journal.dfy`, `SourceRecords.dfy`, `Packer.dfy` | the packer, driving ledger and state machine together; the log of the answers it got, and what that log says was sent |
| `Headers.dfy`, `Wire.dfy`, `WireDecoder.dfy`, `WireRoundTrip.dfy`, `WireValues.dfy`, `WireRequests.dfy`, `Appender.dfy` | the wire formats: bytes, a reference collector, round trips, and the batch writer and incremental appender over one buffer |
| `SizeAgreement.dfy`, `WriterAgreement.dfy` | agreement of the mapper's, the wire contract's and the destination's size rules, and of the real writers with what the state asks of them |
| `Lifecycle.dfy`, `LifecycleLaws.dfy`, `LifecycleSockets.dfy`, `LifecycleProgress.dfy` | the runtime as a transition system over any number of concurrent calls |
| `ResolverModel.dfy`, `Resolver.dfy`, `Answers.dfy` | DNS maintenance tokens, address freshness, answer normalisation |
| `Retry.dfy`, `RetryLaws.dfy` | record ordinals, the log cursor and the retry subset, told by the answers of the request |

How it is put together. Objects the exporter updates in place are classes here, and each method is
proved equal to a transition on values (`LedgerModel`, `StateModel`, `ResolverModel`, `WireRequests`);
theorems about whole runs are lemmas about those transitions. History that the code does not store is
ghost: the packets committed in an epoch (`trace`), the instants handed off (`handed`), the datagrams of
a request (`handoffs`), the answers it got (`Outside.answers`). Answers from outside (clocks,
availability, write results, an appender's or writer's own error, dial results, cancellation) are drawn
arbitrarily at the point where the code asks for them, so every theorem holds for all of them; the
packer's and the bootstrap's are logged, and what they report is proved of that log. A branch that the proof shows unreachable, such as the
packer's reaction to a refused ledger call, appears as the fact that the call is not refused
(`ledgerFault` stays false). `State`'s refresh and round counters are one value, `progress`; a pair of a
field and its `have` flag is an option.

Findings. The IPFIX contract accepts an absolute time in an 8-, 16- or 32-bit unsigned field whatever
its size, because the width check is skipped for absolute-time fields, and the writer then truncates it;
`ValueRoundTrip` gives the exact condition and `NarrowTimeIsAltered` a whole request. No built-in profile
has such a field. A write admitted while the runtime runs can reach a socket that closing has closed
meanwhile, because the admission does not hold the socket: `WriteMayFindItsSocketClosed` is such a run and
`OneEndpointPerPack` says exactly when a datagram finds its socket open. A record that no packet can hold
still ends the open datagram before it is found invalid, so the next datagram may begin with a record that
would have fitted the one before: `NoEarlyHandoff` therefore names a record between the two. Unreachable are the packer's loop
guard after two attempts, the IPFIX stamp's carry, the error returns of every ledger call, and the internal
failure of a mapped record that cannot be sized (`MappedSizeIsRejection`).

## Model

| member | source | states |
|---|---|---|
| `SourceLedgers.SourceLedger.AddSource` | internal/destination/ledger.go:155-173 | the plain ledger gains exactly one record, unsent or invalid for its reason; a wrong ordinal is refused and nothing changes |
| `SourceLedgers.SourceLedger.EnsureOrdinal` | internal/destination/ledger.go:200-222 | growth keeps every stored class and leaves the bits beyond the covered prefix zero |
| `SourceLedgers.SourceLedger.SetStoredClass` | internal/destination/ledger.go:359-375 | an update changes the class of the named ordinal and of no other |
| `SourceLedgers.SourceLedger.Invalidate` | internal/destination/ledger.go:175-191 | exactly an unsent record that is not in the open packet becomes invalid |
| `SourceLedgers.SourceLedger.BeginPacket` | internal/destination/ledger.go:227-245 | opens a packet exactly when none is open and the request has not stopped |
| `SourceLedgers.SourceLedger.InvalidGap` | internal/destination/ledger.go:331-338 | true exactly when every record of the gap is invalid |
| `SourceLedgers.SourceLedger.AddPending` | internal/destination/ledger.go:247-283 | admits exactly the next unsent record of an open, unfull packet; each refusal is the named error and changes nothing |
| `SourceLedgers.SourceLedger.MarkPending` | internal/destination/ledger.go:323-329 | marking the interval settles exactly the pending records, although no pending bit is stored |
| `SourceLedgers.SourceLedger.ResolvePacket` | internal/destination/ledger.go:285-311 | a full write confirms the whole open packet; any other legal result makes it ambiguous and stops the request; an illegal one changes nothing |
| `SourceLedgers.SourceLedger.AbortPacket` | internal/destination/ledger.go:313-321 | the open packet's records are unsent again and no packet follows |
| `SourceLedgers.SourceLedger.Classification` | internal/destination/ledger.go:98-103 | the stored class of every covered ordinal, and none beyond |
| `SourceLedgers.SourceLedger.Counts` | internal/destination/ledger.go:107-122 | every counter equals its class count and the unsent subtraction never underflows |
| `SourceLedgers.TotalIsCovered` | internal/destination/ledger.go:107-122 | the class counts add up to the covered prefix |
| `LedgerModel.RunKeepsInv` | internal/destination/ledger.go:155-337 | under every call sequence valid records read Confirmed*, one pending or ambiguous packet of at most 1024, Unsent*, and no packet opens after an ambiguous one |
| `LedgerModel.FinalStatesAreFinal` | internal/destination/ledger.go:155-337 | confirmed, ambiguous and invalid records never change again |
| `States.State.ReserveWall` | internal/destination/state.go:500-535 | the clamped instant, or the one refusal that applies, with the exhaustion latch |
| `States.State.BeginTemplate` | internal/destination/state.go:309-311 | every refusal in order, and on success the reservation of the next template of the round under the configured identity, the epoch's sequence number and origin, and no sampling rate |
| `States.State.ReserveTemplate` | internal/destination/state.go:435-484 | reservation, origin capture, the delayed start of a refresh round, and a header that carries the configured identity, the epoch's sequence number and origin, the reserved instant and no sampling rate |
| `States.State.BeginDataStream` | internal/destination/write.go:19-88 | a data packet is reserved only in a published, unexhausted epoch with no refresh due, under a header with the configured identity, the epoch's sequence number and origin, the reserved instant and the rate passed; an appender failure undoes the reservation |
| `States.State.Append` | internal/destination/write.go:101-159 | admits a record exactly when every check passes and then grows the one shared counter; a stale copy is refused |
| `States.State.Finish` | internal/destination/write.go:163-218 | only an exact appender length makes the packet committable; every failure rolls the reservation back |
| `States.State.AbortPacket` | internal/destination/write.go:223-235 | the pending packet, found through any copy, is rolled back; any other is refused |
| `States.State.Encode` | internal/destination/state.go:753-773 | an exact length makes the packet committable, anything else rolls it back |
| `States.State.Commit` | internal/destination/state.go:580-642 | the pending transaction, never the caller's copy, is committed, left ambiguous or rejected by the class of the write result |
| `States.State.RefreshDue` | internal/destination/state.go:299-304 | marks and reports a due refresh; a monotonic clock that runs backwards marks nothing |
| `States.State.Restart` | internal/destination/state.go:676-689 | a fresh epoch that shares nothing but the token counter |
| `States.State.AbortBootstrap` | internal/destination/state.go:694-708 | discards an unpublished epoch's progress and refuses a published one |
| `StateLaws.CommitInv` | internal/destination/state.go:580-642 | a commit keeps the grammar, the sequence law, time order and exact rollback |
| `StateRuns.RunKeepsInv` | internal/destination/state.go:289-790 | every sequence of calls with any arguments keeps the invariant |
| `StateRuns.GrammarIsLayout` | internal/destination/state.go:611-636 | an accepted trace is, mark for mark, the initial copies and then data blocks separated by whole rounds |
| `StateTheorems.EpochLayout` | internal/destination/state.go:423-434 | in every run an epoch is InitialCopies template rounds in catalog order, then data blocks within the count limit with no data inside a round |
| `StateTheorems.SequenceLaw` | internal/destination/state.go:658-671 | in every run each committed header counts, modulo 2^32, the data records (v5, IPFIX) or packets (v9) committed before it |
| `StateTheorems.V9SequenceClosedForm` | integration/testbed/recovery.go:1591-1611 | with no interval refresh the v9 data header after k data commits is k + C*n + n*floor(k/R) modulo 2^32 |
| `StateTheorems.CountsOfTrace` | internal/destination/state.go:611-671 | the packets of an epoch are its data packets plus the templates its layout prescribes |
| `StateTheorems.SendTimesNeverDecrease` | internal/destination/state.go:500-535 | in every run send instants of packets with a legal write result never decrease |
| `StateTheorems.AbortUndoesBeginStream` | internal/destination/state.go:775-790 | Begin, any appends, Abort restores every field but the token counter |
| `StateTheorems.AbortUndoesBeginTemplate` | internal/destination/state.go:775-790 | Begin, Abort of a refresh template leaves only a newly set due mark |
| `StateTheorems.FailedFinishUndoesBeginStream` | internal/destination/write.go:163-218 | Begin, any appends, a failing Finish restores every field but the token counter |
| `StateTheorems.FailedEncodeUndoesBeginTemplate` | internal/destination/state.go:753-773 | Begin of a refresh template, a failing Encode leaves only a newly set due mark |
| `StateTheorems.AbortDiscardsBootstrap` | internal/destination/state.go:644-656 | an unpublished epoch that gives up starts again from copy, shape and sequence zero |
| `StateTheorems.EpochsAreNeverReused` | internal/destination/state.go:676-689 | a restart leaves nothing but the token counter, under an epoch identity no earlier epoch had; over any run identities and tokens only grow |
| `StateProgress.CanPublish` | internal/destination/state.go:435-484 | with one suitable clock sample and healthy answers every unpublished epoch of a reachable state is brought to publication by some calls |
| `StateProgress.NewEpochCanPublish` | internal/destination/publication.go:12-51 | in particular a new v9 or IPFIX epoch, on any first instant when no origin is configured |
| `StateTheorems.TemplateHeaderIsWritable` | internal/destination/state.go:547-558 | every template header the state builds passes its protocol writer's header check |
| `StateTheorems.StreamHeaderIsWritable` | internal/wire/netflow9/writer.go:92-118 | every data header the state builds passes its protocol writer's header check |
| `StateHeaders.CollectorReadsIdentity` | internal/destination/state.go:537-558 | over every run a collector reads from the header of the packet being built the configured source, domain or engine, the sampling mode and the rate it was opened for, the count of what was committed before it, and an export time that is the reserved instant, origin plus uptime |
| `StateHeaders.StreamCarries` | internal/destination/write.go:51-61 | a reserved data packet carries exactly the configuration's identity, its own rate, and the epoch unchanged |
| `StateHeaders.TemplateCarries` | internal/destination/state.go:444-470 | a reserved template carries it without a rate, and is the origin of a v9 epoch that had none |
| `StateTheorems.ExhaustedIsFinal` | internal/destination/state.go:525-528 | after uptime exhaustion nothing is handed off before a restart |
| `StateTheorems.WorkerWakesWhenDue` | internal/destination/refresh.go:103-115 | the refresh worker's remaining delay is zero exactly when the state would find a refresh due, and sleeping it out reaches zero |
| `StateTheorems.CommitTells` | internal/destination/state.go:611-642 | what a commit reports: committed exactly when the packet joined the trace, ready exactly when bootstrap is past, refresh due after a full write exactly when a data packet begun at the same instant is told to refresh first, and sequence numbers that differ by what the packet counts for |
| `ClockLaws.NoRunMisaligns` | clock.go:20-26 | with the millisecond clock no reservation of any run fails for alignment |
| `ClockLaws.ClockNeverMisaligns` | clock.go:20-26 | a granted sample lies on the millisecond grid of the origin |
| `ClockLaws.LifetimePredictsReservation` | internal/destination/lifetime.go:61-101 | latched and zero when the epoch is exhausted, and then every Begin is refused as exhausted; otherwise positive, zero or unknown exactly when reserving the same sample would succeed, exhaust or be unrepresentable; not applicable to IPFIX, which nothing exhausts |
| `Bootstraps.Bootstrap` | internal/destination/publication.go:12-51 | success means a ready epoch after exactly InitialCopies whole rounds in catalog order, and the templates committed are exactly the writes answered in full; every write is of a template just encoded and then admitted |
| `Bootstraps.BootCommits` | internal/destination/publication.go:41-48 | a full write moves the bootstrap by one template; anything else discards the candidate's progress |
| `Packers.Packer.Pack` | internal/destination/packer.go:264-302 | for every clock, availability, write, appender and writer answer: the report (the data writes of the answer log are exactly the hand-offs, each of the records the appender accepted into it; every write is of a complete packet on a destination just found available, and none follows an answer that ends the request; no datagram but the last ends before a record that could not join it; every invalid record has its reason, every other one passed an appender unless the failure is internal; internal and transient outcomes have answers to blame), no refused ledger call, packet counters that count the hand-offs by their answers, committed packets exactly the writes answered in full, and for v5 and IPFIX a sequence number moved by exactly the confirmed records |
| `SourceRecords.ReportMeaning` | internal/destination/packer.go:574-630 | confirmed exactly when a data write that carried the record was answered in full, ambiguous exactly when one was answered otherwise but legally, the appender having accepted it before; no record in two datagrams, every datagram well formed, and a v5 datagram's sampling the rate of each of its records |
| `SourceRecords.NoEarlyHandoff` | internal/destination/packer.go:387-420 | between the last record of a datagram and the first of the next one is a record that could not join the former |
| `SourceRecords.OneDatagram` | internal/destination/packer.go:387-420 | records of one shape and rate that have room together go out in one datagram: a second one takes an appender that found no room |
| `SourceRecords.WhyInvalid` | internal/destination/packer.go:339-379 | the reason of every invalid record: its mapping's own, 6 for no shape of its family, 4 for a rate a v5 header cannot carry, else 11, 12 or 6, each only for the size or the appender's answer it stands for |
| `SourceRecords.SequenceFollows` | internal/destination/state.go:658-671 | ledger and state stay coupled: the sequence number moves by the confirmed count |
| `SourceRecords.CleanRequest` | internal/destination/packer.go:264-302 | a request that met only healthy answers (usable instants, an available destination, an appender and writers that do what they are asked, writes in full) and no interval-long clock leap succeeds, or is permanent with nothing handed off; every record with a shape, a rate a v5 header can carry and room in a packet of its own that no appender refused is confirmed, a record is confirmed exactly when a write that carried it was answered in full, and every other record is invalid |
| `SourceRecords.NothingSentIfNoneConfirmed` | internal/destination/packer.go:295-299 | a permanent failure means nothing was handed off |
| `Packers.Packer.Consume` | internal/destination/packer.go:339-436 | after each record nothing is owed that is not in the open, non-empty datagram, unless the request stopped, and every datagram handed off so far ended because of a record that could not join it |
| `Packers.Packer.Place` | internal/destination/packer.go:381-435 | the destination's availability is asked first, and if refused the request stops with nothing handed off; the open datagram is handed off for a record's sake only if the record could not join it: another shape or v5 rate, full by count, no room with it, or refused there by the appender for want of room; the record ends pending, invalid or, only once the request has stopped, unsent; pending, the appender accepted it and it is last in the open datagram of its shape and rate; unsent, an appender passed it unless the failure is internal |
| `Packers.Packer.OpenData` | internal/destination/packer.go:464-510 | availability is asked first; before a data packet opens at most one refresh round is committed, its templates in order from the round's position, and no data; a failure stops the request |
| `Packers.Packer.AppendRecord` | internal/destination/packer.go:512-536 | an accepted record is one the appender was just asked about and accepted; a refused one changes nothing, and is refused only for want of room, for its size's own error or by the appender; the ledger never refuses one the packet took |
| `Packers.Packer.FlushData` | internal/destination/packer.go:574-630 | at most one datagram is handed off, of exactly the open records in order, and its class is that of the write answer just logged; true exactly when that answer was in full; state and ledger settle by it |
| `Packers.Packer.StopUnavailable` | internal/destination/packer.go:554-572 | stops exactly when the availability answer it asked for is negative, and then leaves the buffered records unsent and the state rolled back |
| `Packers.Packer.DrainRefresh` | internal/destination/packer.go:660-719 | commits the round's templates from its position on, once each and in order, each answered by a write in full, and nothing else; completes exactly when the last one is committed, and otherwise leaves the round where it stopped |
| `Packers.Packer.PreviewUnsent` | internal/destination/packer.go:721-769 | after a stop a record stays unsent only if the validation appender passed it or the request failed internally; otherwise it is invalid for that appender's own reason; nothing else in the ledger moves |
| `Packers.Packer.AbortDataInternal` | internal/destination/packer.go:538-549 | an internal failure gives up the open datagram on both sides |
| `Packers.Packer.NewPacker` | internal/destination/packer.go:223-258 | only a published, unexhausted epoch gets a packer |
| `Packers.Packer.Refresh` | internal/destination/packer.go:634-658 | commits templates of at most one due round, exactly those whose write was answered in full, and never a data record; a failure has a faulty answer or an interruption behind it |
| `Journals.JournalData` | internal/destination/packer.go:596-628 | a data write on a cleared packet adds one datagram of exactly the accepted records to the log, and one committed packet exactly when it was answered in full |
| `Journals.DeliveredSince` | internal/destination/packer.go:697-717 | between two points of a request, what was committed is what was written in full |
| `Handoffs.HandedOnce` | internal/destination/packer.go:512-536 | no ordinal is handed off in two datagrams or twice in one |
| `PackerLaws.DataCommits` | internal/destination/state.go:611-641 | a data commit adds one data packet of exactly its records when the write was full, and nothing otherwise |
| `PackerLaws.TemplateCommits` | internal/destination/packer.go:697-717 | a full template commit adds exactly the next template and moves or ends the round; any other answer leaves the round where it stood |
| `PackerLaws.StreamBegins` | internal/destination/write.go:19-88 | with no refresh due, a data packet opens whenever the epoch is live, the instant usable and the appender begins, and only those can refuse it |
| `PackerLaws.StreamFinishes` | internal/destination/write.go:163-218 | a packet that holds records finishes exactly when the appender reports its length, and that length is its records' |
| `SizeAgreement.MapSizes` | internal/mapping/runtime.go:102-110 | checking every prefix refuses a record exactly when its whole size is refused |
| `SizeAgreement.CalculatorsAgree` | internal/mapping/compiler.go:862-892 | the mapper's, the wire contract's and the catalog's packet sizes agree wherever none overflows |
| `SizeAgreement.MappedRecordFits` | internal/destination/packer.go:771-804 | with equal datagram caps minimumDataPacketFits passes exactly the records the mapper's size check passes |
| `SizeAgreement.FirstAppendFits` | internal/destination/write.go:123-149 | the first Append to a fresh packet never fails for size |
| `SizeAgreement.AppenderFollowsState` | internal/wire/ipfix/stream.go:81-106 | a record the state admitted is refused by the appender only for its times |
| `SizeAgreement.MappedTimeHasStamp` | internal/mapping/runtime.go:446-454 | the mapper admits into an IPFIX nanosecond field exactly the times that have an NTP stamp |
| `SizeAgreement.MappedTimeHasUptime` | internal/mapping/runtime.go:446-470 | elsewhere the mapper admits exactly the times whose uptime the v5 and v9 writers can carry, and into milliseconds any time |
| `WriterAgreement.MappedSizeIsRejection` | internal/wire/model.go:576-590 | sizing a mapped record fails only for a reason on the rejection list |
| `WriterAgreement.AppendIsRejection` | internal/wire/ipfix/stream.go:81-106 | the appender refuses a mapped record with stampable times only for a reason on the rejection list |
| `WriterAgreement.BeginNeverFails` | internal/destination/write.go:62-86 | the appender begins every data packet the state reserves |
| `WriterAgreement.FinishNeverFails` | internal/destination/write.go:163-218 | what the appender finishes has exactly the length the state computed, and Finish succeeds |
| `WriterAgreement.EncodeNeverFails` | internal/destination/state.go:753-773 | the batch writer writes every reserved template at exactly its reserved length, and Encode succeeds |
| `WriterAgreement.PreviewAgrees` | internal/destination/packer.go:721-769 | the preview gives a record the answer it would get as the first of a packet reserved at the same instant |
| `WriterAgreement.PreviewFinishes` | internal/destination/packer.go:762-769 | a record the preview accepts it also finishes |
| `WriterAgreement.BlameIsOutside` | internal/destination/packer.go:264-302 | with the real writers on catalogued shapes and mapped records, an internal failure is left to an epoch already over, an unusable instant or a write count outside the datagram |
| `Wire.RecordBytes` | internal/wire/contract.go:795-861 | a record occupies exactly its computed size, at least the shape's minimum, exactly it when nothing varies |
| `WireRoundTrip.PaddingIsShort` | internal/wire/contract.go:638-658 | alignment padding is shorter than the smallest record and than four bytes, and a set stays unaligned only where it would not be |
| `Headers.HeaderRoundTrip` | internal/wire/netflow5/writer.go:61-72 | every header field reads back, in all three protocols |
| `Headers.UptimeIsExact` | internal/wire/netflow9/writer.go:64-72 | origin plus the header's uptime is the export instant |
| `WireDecoder.PrefixRoundTrip` | internal/wire/ipfix/writer.go:233-242 | the one- or three-byte length prefix is unambiguous (section 7 of RFC 7011) |
| `WireDecoder.RecordRoundTrip` | internal/wire/ipfix/writer.go:165-171 | splitting a record by its template gives back every field content and what follows |
| `WireDecoder.RecordsRoundTrip` | internal/wire/netflow9/writer.go:200-209 | looping while the rest reaches the minimum gives back every record and stops at the padding (section 5.3 of RFC 3954) |
| `WireRoundTrip.TemplateRoundTrip` | internal/wire/ipfix/writer.go:135-152 | a template message reads back as exactly the shape it announces (section 3.4 of RFC 7011), in a set whose identifier, read from the message, is 2 for IPFIX and 0 for v9 |
| `WireRoundTrip.DataRoundTrip` | internal/wire/ipfix/writer.go:154-163 | a collector that knows the template reads exactly the records written (section 3.3 of RFC 7011), as many as a v9 header counts; the padding is zero octets |
| `WireRoundTrip.TemplateThenData` | internal/wire/netflow9/writer.go:187-209 | a template message teaches any collector everything it needs to read the shape's data messages |
| `WireRoundTrip.V5RoundTrip` | internal/wire/netflow5/writer.go:160-203 | v5 records read back without a template |
| `WireRoundTrip.V5ShapeIsValid` | internal/wire/contract.go:1151-1172 | the fixed v5 profile is a valid shape of 48-byte records whose only times are First and Last and whose only constants are the pads |
| `WireRoundTrip.V5SpecsAreFields` | internal/wire/contract.go:1151-1172 | the twenty fields a v5 collector expects are those the writer's table lays out |
| `WireRoundTrip.ValueRoundTrip` | internal/wire/ipfix/writer.go:173-226 | an accepted value reads back as itself exactly when the field can carry it; the lossy cases are the only ones |
| `WireRoundTrip.ContentRoundTrip` | internal/wire/contract.go:795-861 | the other way round: every content a field can have is the encoding of the value read from it, and that value is accepted, but for times past the signed 64-bit range |
| `WireRoundTrip.UptimeContentRoundTrip` | internal/wire/netflow9/writer.go:151-174 | in v5 and v9 every uptime up to the header's own is the encoding of an accepted flow time |
| `WireRoundTrip.SizedIffTaken` | internal/wire/model.go:576-590 | a record has a size exactly when it is of the shape's family and length, its values are within the general bounds and every field takes its own |
| `WireRoundTrip.SameNumberSameBytes` | internal/wire/contract.go:829-845 | an unsigned field takes a number alike whether given as signed or unsigned, and writes the same bytes |
| `WireRoundTrip.AnyTimeIsTaken` | internal/wire/contract.go:962-967 | a time field takes every instant up to the signed 64-bit limit, however narrow it is |
| `WireValues.DataValuesRoundTrip` | internal/wire/ipfix/writer.go:154-226 | every field of every record of a v9 or IPFIX data message reads back as the value written, exactly when the field can carry it |
| `WireValues.V5ValuesRoundTrip` | internal/wire/netflow5/writer.go:160-203 | the same for v5 records |
| `WireValues.NarrowTimeIsAltered` | internal/wire/contract.go:962-967 | a concrete IPFIX shape and record that every call of a packet accepts and whose time the wire alters |
| `WireRoundTrip.NtpExact` | internal/wire/ipfix/writer.go:259-275 | total exactly on its range, no carry, no overflow, and the nearest nanosecond is the one encoded (section 6.1.10 of RFC 7011) |
| `WireRoundTrip.NtpFraction` | internal/wire/ipfix/writer.go:266-270 | the rounded fraction never reaches a second: the carry branch is unreachable |
| `WireRoundTrip.NtpIncreases` | internal/wire/ipfix/writer.go:259-275 | stamps are strictly increasing |
| `WireRequests.StreamIffBatch` | internal/wire/ipfix/stream.go:71-145 | every incremental call of a packet succeeds exactly when the batch writer accepts its records and the record cap allows |
| `WireRequests.SameMessage` | internal/wire/ipfix/writer.go:35-56 | the data-only batch message is byte for byte the stream's message |
| `Sizes.PaddedMonotone` | internal/wire/contract.go:616-659 | padded size is monotone: a prefix of what fits, fits |
| `Appenders.Appender.Begin` | internal/wire/netflow9/stream.go:32-69 | an accepted Begin writes exactly the opening; a refused one leaves packet and buffers untouched |
| `Appenders.Appender.Append` | internal/wire/netflow9/stream.go:71-113 | accepts exactly what fits and is writable; a refused Append changes neither appender nor buffer |
| `Appenders.Appender.Finish` | internal/wire/netflow9/stream.go:115-146 | the buffer starts with exactly the message of the accepted records and is otherwise untouched; a refused Finish changes nothing |
| `Appenders.Appender.Reset` | internal/wire/netflow5/stream.go:31-31 | releases the buffer and invalidates the packet |
| `Appenders.CheckTimes` | internal/wire/netflow9/writer.go:151-174 | exactly the time rules of the writer of the shape's protocol |
| `Appenders.WriteRecord` | internal/wire/netflow5/writer.go:160-203 | writes exactly the record's bytes at its place |
| `Appenders.CheckRequest` | internal/wire/contract.go:664-745 | the exact message length, or the first refusal in order |
| `Appenders.Write` | internal/wire/netflow5/writer.go:36-53 | an accepted request starts the buffer with exactly its message; a refused one leaves it untouched |
| `LifecycleSockets.RunKeepsInv` | internal/destination/lifecycle.go:132-406 | every interleaving of any number of calls keeps slots, counts, permit, ownership and targets |
| `LifecycleSockets.CallsAreCounted` | internal/destination/lifecycle.go:336-341 | the call count is the number of registered calls, never underflows or exceeds five, and the drained channel closes exactly once, when closing has begun and no call is left |
| `LifecycleSockets.DrainedIsFinal` | internal/destination/lifecycle.go:364-381 | after the drain nothing registers, nothing is sent and the channel is not closed again |
| `LifecycleSockets.OneOwner` | internal/destination/publication.go:53-83 | a socket has exactly one owner until it is closed once; the published one is open and fully bootstrapped, and nothing is published once closing |
| `LifecycleSockets.NoSocketIsLeaked` | internal/destination/lifecycle.go:243-260 | once drained and the closer done, every dialed socket was closed exactly once |
| `LifecycleSockets.OneEndpointPerPack` | internal/destination/lifecycle.go:293-353 | a datagram finds its socket open exactly when the closer has not closed that socket since the write was admitted, so always while closing has not begun; all data of one Pack goes to the socket read at its start |
| `LifecycleSockets.AdmittedOpen` | internal/destination/lifecycle.go:343-350 | a write is admitted only before closing and on an open socket |
| `LifecycleSockets.WriteMayFindItsSocketClosed` | internal/destination/lifecycle.go:343-381 | a concrete run in which an admitted write reaches a socket the closer has closed |
| `LifecycleSockets.PublishIsNotOvertaken` | internal/destination/publication.go:62-82 | a publisher holding the permit can be refused only by closing, cancellation or the resolver |
| `LifecycleLaws.CallsStep` | internal/destination/admission.go:13-38 | registration and release keep one call per slot and the exact count |
| `LifecycleLaws.PermitStep` | internal/destination/send.go:22-43 | one holder of the send permit, and it is a registered sender or publisher |
| `LifecycleLaws.CallsReturn` | internal/destination/maintenance.go:34-39 | a call that ends frees its own slot and the count in one critical section |
| `LifecycleLaws.CallsBegin` | internal/destination/refresh.go:12-22 | whatever registers, one call per slot and the exact count stay |
| `LifecycleProgress.WhoIsAdmitted` | internal/destination/admission.go:13-38 | exactly when Start, Pack and Consume are admitted, told by what is in progress |
| `LifecycleProgress.WhoIsReplaced` | internal/destination/maintenance.go:69-90 | exactly when the idle DNS worker starts a replacement attempt, which it then waits for |
| `LifecycleProgress.PublishOwes` | internal/destination/publication.go:62-83 | a call comes to owe the workers exactly when its initial attempt publishes |
| `LifecycleProgress.DnsWorkerStarts` | internal/destination/maintenance.go:12-22 | over any run from a published Start, once its call has returned StartDns registers the DNS worker exactly if the runtime is running and there is a timer |
| `LifecycleProgress.RefreshWorkerStarts` | internal/destination/refresh.go:12-22 | and after that StartRefresh the refresh worker, exactly on the same condition |
| `LifecycleProgress.StartBringsUpWorkers` | internal/destination/lifecycle.go:156-168 | from the publication of an initial attempt in any run, whatever happens in between, both workers are registered in turn while the runtime runs |
| `LifecycleProgress.HealthyAttemptGoesOn` | internal/destination/publication.go:12-83 | in a running runtime an uncanceled attempt whose writes are full goes from dial to publication on the one socket it dialed |
| `LifecycleProgress.HealthySenderGoesOn` | internal/destination/lifecycle.go:293-353 | a sender with the permit sends to what is published until it stops itself; no publication overtakes it |
| `LifecycleProgress.BusyWorkerWaits` | internal/destination/maintenance.go:34-39 | the DNS worker waits only for an attempt that is registered |
| `LifecycleProgress.ClosingCanDrain` | internal/destination/lifecycle.go:336-381 | from every state of every run in which closing has begun some run drains the runtime and closes the drained channel |
| `Resolvers.Maintenance.Begin` | internal/transport/resolver.go:406-423 | one live run; a trigger meanwhile is kept as the pending bit |
| `Resolvers.Maintenance.End` | internal/transport/resolver.go:428-445 | consumes the live token, reports the coalesced trigger, and refuses stale, foreign and in-flight tokens |
| `Resolvers.Maintenance.ClaimLookup` | internal/transport/resolver.go:477-490 | a token claims at most one lookup |
| `Resolvers.Maintenance.CompleteLookup` | internal/transport/resolver.go:182-212 | the answer set carries its token's identity |
| `Resolvers.ResolverState.ApplyLookup` | internal/transport/resolver.go:602-655 | freshness after an answer or an error, with expiry latched before the answer is considered |
| `Resolvers.ResolverState.CommitPublishedCandidate` | internal/transport/resolver.go:662-687 | publishes exactly the address selected by the live token's own lookup |
| `Resolvers.ResolverState.Observe` | internal/transport/resolver.go:689-714 | availability and due as of a sample; a bad clock makes the address unavailable |
| `ResolverModel.RunKeepsInv` | internal/transport/resolver.go:406-781 | every run with any clock keeps the gate, freshness and provenance invariants |
| `ResolverModel.AvailableMeansFresh` | internal/transport/resolver.go:766-781 | available means a published address that some lookup returned, stale for less than the limit |
| `ResolverModel.SnapshotTells` | internal/transport/resolver.go:689-784 | available exactly when published, not expired and stale for less than the limit; due exactly when no refresh was made or the last is a whole interval old; a failing clock makes it unavailable and due |
| `ResolverModel.LookupTells` | internal/transport/resolver.go:602-655 | a result counts as a refresh; confirming the unexpired published address makes it fresh, not confirming it starts or continues its staleness; the candidate is the confirmed address or the least of the set |
| `ResolverModel.HealthyMaintenancePublishes` | internal/transport/resolver.go:406-687 | from any idle state a maintenance run with a working clock and a valid answer publishes an address of its own lookup, the old one if still among them, and frees the gate |
| `ResolverModel.ExpiredIsNotRevived` | internal/transport/resolver.go:638-648 | once expired, only a publication commit makes the address available again |
| `ResolverModel.PublishNeedsOwnLookup` | internal/transport/resolver.go:662-687 | that commit needs a live token whose own lookup returned the published address |
| `ResolverModel.ConsumedIsFinal` | internal/transport/resolver.go:456-458 | a consumed token is never valid again |
| `ResolverModel.OneLiveToken` | internal/transport/resolver.go:406-445 | at most one live token, the newest; a trigger while it lives is refused and kept; a refused End changes and reports nothing |
| `ResolverModel.TriggerIsNotLost` | internal/transport/resolver.go:406-445 | in every run a kept trigger is still owed while its token lives and is reported by the End that finishes it |
| `Answers.NormalizeAnswers` | internal/transport/resolver.go:294-344 | the distinct compatible unmapped addresses, IPv4 before IPv6 and each by rising value, exactly when the raw list is valid and wants one to eight of them |
| `Answers.MappedIsSame` | internal/transport/resolver.go:287-292 | an IPv4 answer stands for the same address as four bytes or mapped into sixteen: itself on udp and udp4, nothing on udp6 |
| `Answers.OtherSixIsItself` | internal/transport/resolver.go:242-252 | any other sixteen-byte answer is wanted as itself on udp and udp6, and not on udp4 |
| `Answers.InsertionSort` | internal/transport/resolver.go:333-341 | in place: the same addresses, ascending |
| `Retry.LogCursor.At` | logs_exporter.go:73-96 | requests that never go backwards agree with flat indexing; earlier ones are refused |
| `Retry.Traverse` | internal/normalize/normalize.go:255-272 | every record is visited once in flat order under its ordinal, and the cursor finds exactly that record |
| `Retry.ReturnedSubset` | logs_exporter.go:103-147 | flattening the subset gives the kept records in order under their own envelopes, with no empty container and each envelope once; which records those are is RetryIsUndelivered's |
| `RetryLaws.RetryIsUndelivered` | logs_exporter.go:103-147 | of a finished request every record is in exactly one of three groups: invalid, carried by a datagram answered in full, or given back; what is given back keeps order and envelopes, and its number is the unsent plus the ambiguous |

## Left out

- State.BeginData (the slice path with `DataRequest`): production code uses `BeginDataStream`; templates go through `Encode`.
- Token and epoch counters are unbounded; the 64-bit counters of the source would need 2^64 reservations to wrap.
- Packers.Packer.Pack: `busy`, which refuses a second concurrent request at once, is left to the lifecycle model; panics are not modelled.
- Mapping and normalisation of values: a record arrives as refused, or as a shape, a sampling rate and an encoded size.
- The family lookup that chooses a catalog shape: the chosen shape is an input, absent when none matches.
- `activeWrites`, a counter of admitted writes that only tests read.
- Observers, metrics and the loss counters of `PackResult`: they change no state.
- Packers.Packer.Pack: the answers of appenders and writers stay arbitrary there; `WriterAgreement` shows separately that on catalogued shapes and mapped records the real ones never fault, which leaves a spent epoch, an unusable instant or an impossible write count to blame (`BlameIsOutside`).
- ClockLaws.LifetimePredictsReservation: milliseconds instead of floating-point seconds, and a snapshot of one published state instead of the locked copy.
- UTF-8 validity, address and MAC parsing: text values are taken as valid UTF-8, addresses as their bytes; borrowed byte views are values.
- Field names, custom-source strings, duplicate identities and PEN limits of `NewShape` and `NewCatalog`: widths, identifiers and encodings that decide bytes are modelled.
- The cursor's bounds errors: writes are placed where the size proofs allow them, so none is reached.
- Lifecycle runs on values: each critical section is one step, and mutexes, goroutines and channels appear only as slots, counts and the permit. Timers, wake channels and `Shutdown`'s waiting and shared result are left out; a due tick and cancellation are arbitrary.
- LifecycleSockets.OneOwner: a bootstrapped socket is a flag set by the attempt's last full template; `Bootstraps.Bootstrap` proves what that takes.
- Dialing, deadlines, the DNS lookup and its timeout: a connected socket, an answer set and an error are inputs.
- Resolvers.Maintenance.CompleteLookup: the end of a lookup is one step, since the token cannot be ended while its lookup is in flight.
- Retry.ReturnedSubset: attributes and byte detachment of the copied records are not modelled; an envelope is its identity.
- Configuration decoding and validation, the mapping compiler's tables and the telemetry of the factory: normalised bounds are preconditions.
