# Peer-to-peer crawler: model and proofs

The crawler walks the Bitcoin peer-to-peer network: it takes addresses from queues, connects, performs the
version handshake, asks each peer for the addresses it knows, and feeds the new ones back into the queues. This
project models the parts in which that can go wrong and proves what the program promises about them. All properties
hold for every input, every interleaving of the threads, every behaviour of the peers and every way the network
delivers bytes.

## How it is organised

**Scheduling.** `NodeStore` is the address store, as a class whose two upserts refine value functions. `Scheduler` is
the crawl as a transition system: marking an entry, counting it, sending it, receiving it, reserving a node slot, each
entry update, the decrement and the closing of each single queue are steps of their own, and any thread may take the
next one. `Crawler` holds the crawler's methods, updating store, queues and counters in place; each call, by whichever
thread of whichever crawl, is shown to be that thread's own steps of a run. The invariant is built in layers: who
holds which address (`SchedulerInvariant`, `SchedulerOwnership`), what is counted (`SchedulerCounting`), and in which
order a run opens and closes (`SchedulerLifecycle`). On it rest the counter's exact meaning (`SchedulerTheorems`),
exact detection of the end (`SchedulerTermination`), the bounds on queues and work (`SchedulerBounds`), a measure
every effective step decreases (`SchedulerVariant`) and the meaning of the final states (`SchedulerVerdicts`).
`SchedulerEntries` says what one step can do to one entry; from it follow what becomes of addresses once the node
limit is used up (`SchedulerLimit`), when a probe ends (`SchedulerProbe`), and that what an entry records of its peer
is what was said on the wire (`SchedulerHandshakes`). `Tally` sums over threads and entries.

**Frontier.** `Frontier` treats one shuffled batch of advertised addresses: when the shuffle cannot matter, and that
it matters in every other case. `Batches` applies that to every address message the parsers accept, and `Gathering` to
the crawl: the message credited, fed and its addresses queued, each a step of the worker that received it.

**Observation log.** `Observation` models workers, the log's writer thread and the checkpoint task with their barrier,
event-id mutex and command channel; `ObservationInvariant`, `ObservationAggregates` and `ObservationTheorems` prove
that at every checkpoint the snapshot and the synced file agree. `ObservationJoint` runs the crawl and the log
together on one store and shows that each side's theorems hold of it; `ObservationScheduler` is why the scheduler's
other steps cannot disturb the log. `ObservationCsv` and `ObservationRecords` are the text of the log and its unique
readability.

**Bytes.** `Wire` has CompactSize and the reading cursor; `AddrMessages` the `addr` and `addrv2` parsers; `Version`
the `version` message; `Envelope` and `Receiver` the framed, buffered receiver, and `ReceiverLimit` exactly which
streams can overflow it; `Conversation` the handshake and `Collection` the collection of addresses over such a
connection. What either makes of the crawl is shown to be its worker's own steps of a run. `Addresses` relates the
wire networks to the textual classifier, with `Base32` and `Text` under it.

## What the proofs say about the program

- `outstanding` reaching zero under `max_nodes`: the comment at src/crawler.rs:226-230 says it never does. It does:
  closed queues drain, and `SchedulerTermination.CrawlDrains` covers those runs.
- The probe seeds whatever it is given, and does not always end. It ends with everything processed if and only if every
  seed is of a network whose transport has workers, which is known before the run starts
  (`SchedulerProbe.ProbeEndsExactly`). Its workers return in just those cases (`SchedulerProbe.WorkersReturnExactly`);
  in every other it hangs, and under any settings one seed without workers is enough for a run that stops short
  (`SchedulerProbe.ProbeHangs`).
- Messages longer than 3,991,809 bytes, though allowed, can overflow the receive buffer depending on how they arrive;
  up to that length they cannot (`ReceiverLimit.BoundIsTight`). Which streams can is exact: those in which such a
  message begins, in order, with at least 4,000,025 bytes from there on (`ReceiverLimit.OverflowsExactly`).
- The result of a batch depends on its shuffle exactly when the address budget cuts into it
  (`Frontier.OrderIrrelevantExactly`, `Batches.MessageShuffle`).
- Addresses in fc00::/8 received in a legacy message are labelled IPv6 while the classifier, and an `addrv2` message,
  call the same text CJDNS (`Addresses.LegacyAgreement`, `Batches.FormatsDisagree`).
- Where the code and its documents differ the model follows the code: the collection ends at the first message of two
  or more addresses (src/crawler.rs:823, 1069), Tor v2 addresses are decoded (src/protocol.rs:505), `num_processed`
  counts retries (src/crawler.rs:303), the peer's verack is required (src/crawler.rs:677), and the payload limit is
  4,000,000 bytes (src/protocol.rs:13).

## Model

| member | source | states |
|---|---|---|
| NodeStore.Store.constructor | src/store.rs:289-297 | a new store is empty and keeps its budget |
| NodeStore.Store.ReserveEntry | src/store.rs:421-432 | a place is granted exactly while the budget has one, and a refusal is counted |
| NodeStore.Store.ObserveSeed | src/store.rs:350-372 | the map and the answer are those of the value function; only a new address within budget is queued |
| NodeStore.Store.FrontierUpsert | src/store.rs:377-419 | the map and the outcome are those of the value function; the map and the entry count stay equal and within budget |
| NodeStore.Store.IncrOutstanding | src/store.rs:316-319 | one more, wrapping at 64 bits |
| NodeStore.Store.DecrOutstanding | src/store.rs:321-324 | one less, wrapping at 64 bits, and the value before |
| SchedulerTheorems.OutstandingExact | src/crawler.rs:131-170 | in every reachable state `outstanding` is the number of Queued or Processing entries, less those marked but not yet counted, plus those terminal but not yet discounted |
| SchedulerTheorems.DecrementExact | src/store.rs:321-324 | no decrement in any run wraps |
| SchedulerTheorems.StepInv | src/crawler.rs:131-531 | every step of every thread keeps ownership, counting and order |
| SchedulerOwnership.StepOwned | src/crawler.rs:131-531 | every live address is in exactly one place: one queue slot or one thread's hands, which knows its state |
| SchedulerCounting.StepNumbers | src/crawler.rs:278-320 | every step keeps `outstanding`, `num_processed` and the address budget equal to what they count |
| SchedulerLifecycle.StepLife | src/crawler.rs:173-301 | every step keeps the order of a run: seeding, crawling, closing, and who may still close what |
| SchedulerTermination.LastFinisher | src/crawler.rs:155-170 | a decrement finds 1 exactly when no other thread has work and no key is queued; then no entry is Queued or Processing |
| SchedulerTermination.QuietForever | src/crawler.rs:174-178 | once `outstanding` is 0 during a run it stays 0, no entry changes any more, and every queue is closed or being closed |
| SchedulerTermination.EndOfRun | src/crawler.rs:266-301 | when all workers have returned without Ctrl+C, no entry is Processing and what is left is exactly what sits in queues without workers; runs stopped by the node limit included |
| SchedulerTermination.CrawlDrains | src/main.rs:276-302 | with validated settings and filtered seeds nothing is left and `outstanding` is 0 |
| SchedulerBounds.QueueSafety | src/crawler.rs:39-45 | every key is in at most one queue slot, and the queues together hold no more than the store, which is within its budget |
| SchedulerBounds.SendFailsOnlyClosed | src/crawler.rs:140 | a send in `enqueue` or `requeue` fails exactly when the queue is closed |
| SchedulerBounds.AttemptBound | src/crawler.rs:329-345 | attempts begun or reserved for an address never exceed `handshake_attempts` |
| SchedulerBounds.WorkBound | src/crawler.rs:303-320 | `num_processed` is the attempts of all entries plus the slots reserved and not yet used, and is at most addresses times attempts |
| SchedulerBounds.NodeLimit | src/crawler.rs:303-320 | with `max_nodes` = N no run processes more than N, and after the first refusal it has processed exactly N for good |
| SchedulerLimit.LimitMeansFull | src/crawler.rs:316-318 | a refusal recorded, or about to be, means that every slot is taken |
| SchedulerLimit.DiscardedAfterLimit | src/crawler.rs:278-284 | once every slot is taken, each key a worker then receives ends BudgetDiscarded, in every run and for good |
| SchedulerLimit.VerdictStands | src/crawler.rs:155-170 | no step of any thread changes a final state |
| SchedulerEntries.StepEntries | src/crawler.rs:131-531 | one step leaves an entry alone but for its timestamp, gives it up when its send was refused, queues it again on fresher gossip, or is an edit by the worker it belongs to; new entries are blank; networks never change |
| SchedulerVariant.StepUses | src/crawler.rs:131-531 | every step of every thread decreases a natural measure, but for the mere repetition of an address and the counting of a message in its sender's figures |
| SchedulerVariant.RunLength | src/crawler.rs:173-242 | a whole run has a bounded number of such steps, whatever peers send |
| SchedulerVerdicts.Verdicts | src/crawler.rs:323-468 | attempts are numbered 1..n; Reachable has handshake data, as the writer expects at src/output.rs:180, and no failure; Unreachable means every attempt failed to connect; HandshakeFailed means some attempt connected; both mean the attempts were used up, the retry met a closed queue or silence is not retried |
| SchedulerHandshakes.ReachableShookHands | src/crawler.rs:394-424 | a Reachable entry's handshake data are those of a version the peer sent in a conversation held for that address, in which our version was written, the peer's was received and parsed, our verack was written and then the peer's was received, in that order |
| SchedulerHandshakes.LossesJustified | src/crawler.rs:425-464 | every attempt recorded as lost in the handshake was lost in a conversation held for that address whose trace justifies the recorded reason |
| SchedulerHandshakes.StepRecords | src/crawler.rs:323-468 | one step changes an entry's handshake or its lost attempts only to what that step was told |
| SchedulerHandshakes.HoldHandshake | src/crawler.rs:393-465 | a handshake held over a new link ends in an event that its trace justifies and the scheduler takes, or the link's supply ends first |
| SchedulerHandshakes.HandshakeLeads | src/crawler.rs:393-465 | whatever a handshake ends with is taken by the worker that began it, by its own steps: on to discovery with the peer's data stored, or to the loss with its reason |
| SchedulerVerdicts.StepKnown | src/store.rs:386-418 | an address is queued from the frontier only if it was not known, and is known from then on |
| SchedulerVerdicts.FrontierOnce | src/crawler.rs:914-928 | an address enters a queue from the frontier at most once in a run |
| SchedulerVerdicts.NeverStuckEarly | src/crawler.rs:266-301 | a run in which no thread can move is over: every worker has returned and nothing is left |
| SchedulerProbe.ProbeEndsExactly | src/bin/probe.rs:125-133 | a probe that comes to a stop has processed everything, and all its workers have returned, if and only if every seed in the store after seeding has workers for its network |
| SchedulerProbe.WorkersReturnExactly | src/bin/probe.rs:68-133 | without a node limit the workers of a probe that comes to a stop have returned if and only if every seed in the store has workers for its network: in every other case the probe hangs |
| SchedulerProbe.NeverDone | src/bin/probe.rs:125-133 | in every run of a probe, Ctrl+C or not, a seed without workers stays queued and counted for good |
| SchedulerProbe.ProbeHangs | src/bin/probe.rs:125-133 | under any probe settings, any one seed whose transport has no workers gives a run that comes to a stop with its workers still waiting |
| SchedulerProbe.ProbeStep | src/crawler.rs:131-531 | every step of a probe keeps the queues open while seeding, every seed sent, and every unserved address queued |
| Crawler.LeadsOccurs | src/crawler.rs:131-531 | from a state of a run, a thread's own steps in a row lead to a state of a run, for every thread of every crawl |
| Crawler.Crawler.constructor | src/crawler.rs:91-111 | a new crawler, with its threads not yet begun, is the initial state of the transition system |
| Crawler.Crawler.CloseQueues | src/crawler.rs:63-67 | every queue is closed and keeps its items |
| Crawler.Crawler.TrySend | src/crawler.rs:140 | a key is appended exactly when the queue is open and has room |
| Crawler.Crawler.Enqueue | src/crawler.rs:131-145 | counts and sends, or undoes both; the calling thread's own steps, whichever thread it is |
| Crawler.Crawler.Finish | src/crawler.rs:155-170 | ends an active entry once, and closes the queues when it was the last; the calling worker's own steps |
| Crawler.Crawler.Requeue | src/crawler.rs:519-531 | puts the key back, or finishes it when the queue is closed; the calling worker's own steps |
| Crawler.Crawler.ReserveNodeSlot | src/crawler.rs:303-320 | grants a slot exactly below the limit and records the first refusal |
| Crawler.Crawler.Admit | src/crawler.rs:278-284 | a received key is processed, or discarded and the queues closed; the calling worker's own steps |
| Crawler.Crawler.FeedBatch | src/crawler.rs:914-928 | each address of a batch is upserted and, when that queues it, enqueued at once; a discovering worker's own steps |
| Crawler.Crawler.FeedOne | src/crawler.rs:914-928 | one address of a batch |
| Crawler.Crawler.SeedAll | src/main.rs:276-302 | the seeds observed and enqueued one by one; the main thread's own steps |
| Crawler.Crawler.SeedOne | src/main.rs:283-294 | one seed, dropped when its network is disabled and the crawl filters |
| Crawler.EnqueueLeads | src/crawler.rs:131-145 | the effect of `enqueue` is that of its small steps, for any thread in any state, whichever way the send goes |
| Crawler.FinishLeads | src/crawler.rs:155-170 | the effect of `finish` is that of its small steps, for any worker of any running crawl |
| Crawler.RequeueLeads | src/crawler.rs:519-531 | the effect of `requeue` is that of its small steps, for any worker of any running crawl |
| Crawler.RefuseLeads | src/crawler.rs:278-284 | so is the effect of a refused reservation |
| Crawler.FedLeads | src/crawler.rs:914-928 | so is the effect of a batch of gossip, for any discovering worker |
| Crawler.SeededOccurs | src/main.rs:276-302 | whatever the seeds, the state they leave is a state of a run |
| Crawler.SeedsCounted | src/main.rs:276-302 | and in it `outstanding` is just the number of seeds queued |
| Crawler.FedIsFeed | src/crawler.rs:914-928 | while the queues are open the store a batch leaves is the one of the frontier results, and exactly the keys it queues enter the queues |
| Frontier.FeedFrontier | src/crawler.rs:914-928 | the loop over the shuffled batch leaves the map and enqueues the keys that the fold of upserts gives |
| Frontier.ShuffleSafe | src/crawler.rs:908-928 | with room for the batch every permutation leaves the same map and enqueues the same keys; timestamps are running maxima, and a new or stale key ends queued exactly when the filter is off or its maximum clears the threshold |
| Frontier.OrderMatters | src/store.rs:399-404 | when the batch overflows the budget, any new key of it is let in by one order and left out by another |
| Frontier.OrderIrrelevantExactly | src/store.rs:377-419 | the order changes neither the map nor the keys queued if and only if the whole batch fits or the store is already full |
| Batches.MessageConsistent | src/crawler.rs:908-928 | every accepted message, of either format, gives each host one network |
| Batches.MessageShuffle | src/crawler.rs:908-928 | so for every accepted message and every store the shuffle changes neither the map nor the keys queued if and only if the budget admits all its enabled addresses or no new one |
| Batches.FormatsDisagree | src/protocol.rs:465-532 | the two formats label the same sixteen-byte address differently if and only if it is in fc00::/8 |
| Observation.LogWriter.constructor | src/addrlog.rs:46-47 | the writer begins with nothing written |
| Observation.LogWriter.Append | src/addrlog.rs:50-60 | the writer's state after an append command, and the answer it sends |
| Observation.LogWriter.Flush | src/addrlog.rs:61-67 | the writer's state after a flush command, and the watermark it answers with |
| ObservationInvariant.WorkerLocks | src/addrlog.rs:77-125 | a worker's step keeps the barrier exclusive, the mutex exact and at most one command in the channel |
| ObservationInvariant.WriterNumbering | src/addrlog.rs:48-69 | while no write fails, the log holds the events 1, 2, 3 and so on, each written whole |
| ObservationAggregates.WorkerBalanced | src/crawler.rs:883-906 | a worker's step keeps each sum equal to what is logged plus what is counted and on its way |
| ObservationAggregates.WriterBalanced | src/addrlog.rs:50-60 | so does the writer's |
| ObservationAggregates.WorkerOutcomes | src/crawler.rs:409-420 | an outcome is stored only with a record of it logged or on its way |
| ObservationAggregates.WorkerFrontier | src/crawler.rs:908-928 | every logged address is in the store as fresh as advertised, refused for lack of room, or still to be fed |
| ObservationTheorems.StepInv | src/main.rs:218-244 | every step keeps all of that, and the agreement of a snapshot being copied |
| ObservationTheorems.CheckpointAgrees | src/main.rs:229-244 | at every checkpoint with no failed write the synced file is exactly the records 1 to the watermark, in order, and every entry's totals, outcome and timestamp are what those records say |
| ObservationTheorems.BarrierExcludes | src/crawler.rs:879 | no worker records anything while a checkpoint holds the barrier, and at most one command waits |
| ObservationScheduler.StepBenign | src/crawler.rs:131-531 | every scheduler step except recording an observation (an outcome, a message credited or found malformed) leaves aggregates, timestamps and budget as the log needs them |
| ObservationJoint.StepTogether | src/crawler.rs:870-930 | every step of crawl and log together, in whatever order they interleave, is a step of a run on each side, on one store |
| ObservationJoint.JointCheckpoint | src/main.rs:229-244 | so at every checkpoint with no failed write of a crawl and its log run together, the file and the snapshot of the crawl's own store agree, and `outstanding` is exact |
| ObservationJoint.CountGoesOn | src/crawler.rs:879-891 | a collecting worker that has begun to record what it heard can count it in both at once: neither side holds the other up |
| ObservationCsv.PushCsvField | src/addrlog.rs:230-245 | appends the field, quoted exactly when it must be |
| ObservationCsv.PushCsvFields | src/addrlog.rs:221-228 | appends the fields with commas between them |
| ObservationCsv.RowThere | src/addrlog.rs:221-245 | a plain CSV reader takes exactly the written row off the front, whatever the fields hold |
| ObservationCsv.RowsThere | src/addrlog.rs:221-245 | and every row of a whole text |
| ObservationRecords.WriteRecord | src/addrlog.rs:77-181 | builds the text of a block, an outcome or a malformed response |
| ObservationRecords.ReadBack | src/addrlog.rs:77-181 | every row of the log is recovered, whatever text the peers chose |
| ObservationRecords.UniquelyDecodable | src/addrlog.rs:77-181 | the text of one log begins with that of another if and only if its records do |
| Wire.WriteCompactSize | src/protocol.rs:73-86 | appends the shortest form |
| Wire.ReadWrite | src/protocol.rs:157-171 | reading a written value gives it back and leaves what follows |
| Wire.WriteRead | src/protocol.rs:157-171 | what is accepted is the one form writing gives |
| Wire.Cursor.constructor | src/protocol.rs:95-97 | a new cursor has everything to read |
| Wire.Cursor.Take | src/protocol.rs:99-107 | takes exactly the next bytes, or nothing and stays |
| Wire.Cursor.U8 | src/protocol.rs:113-115 | takes one byte |
| Wire.Cursor.ULe | src/protocol.rs:127-146 | takes a little-endian number |
| Wire.Cursor.U16Be | src/protocol.rs:122-125 | takes a big-endian number |
| Wire.Cursor.CompactSizeCanonical | src/protocol.rs:157-171 | takes a canonical CompactSize and refuses any other |
| AddrMessages.NextLegacy | src/protocol.rs:355-372 | one legacy entry off the front, or its error |
| AddrMessages.NextV2 | src/protocol.rs:383-400 | one BIP155 entry off the front, or its error |
| AddrMessages.NextV2Address | src/protocol.rs:396-430 | its length, network and address checks, in order |
| AddrMessages.ParseMessage | src/protocol.rs:351-462 | the loop of both parsers computes the specification's result |
| AddrMessages.AcceptedExactly | src/protocol.rs:351-462 | a payload is accepted if and only if it is the encoding of one list of at most 1000 well-formed entries, and gives the known addresses in wire order and the count of the others |
| AddrMessages.DeclaredCounted | src/protocol.rs:448-462 | what a peer declares is what is kept plus what is unknown |
| AddrMessages.TrailingExactly | src/protocol.rs:448-462 | trailing bytes are reported if and only if an acceptable encoding precedes them |
| AddrMessages.TooManyExactly | src/protocol.rs:440-446 | a count is refused if and only if the payload begins with a canonical count above 1000 |
| Version.ParseVersionMessage | src/protocol.rs:226-274 | the parser, step by step, computes the specification's result |
| Version.ReadExactly | src/protocol.rs:226-274 | the fields read are exactly those whose writing gives the payload |
| Version.AcceptedExactly | src/protocol.rs:226-274 | a payload is accepted if and only if it begins with the fields its version number calls for, and means what those say |
| Version.BuildVersion | src/protocol.rs:201-223 | our own payload is our own fields written out, in range |
| Envelope.WriteFrame | src/protocol.rs:33-55 | a frame is built or refused as specified |
| Envelope.CommandExactly | src/transport.rs:193-213 | a command field is accepted if and only if it is a valid command padded with zeros |
| Envelope.CompleteExactly | src/transport.rs:152-191 | an envelope is taken off the buffer if and only if the buffer is its frame and the rest: framing and parsing are exact inverses |
| Envelope.VerdictStands | src/transport.rs:152-191 | bytes that arrive later change neither a message nor an error |
| Receiver.Connection.constructor | src/transport.rs:29-43 | a new connection has an empty buffer and no timer |
| Receiver.Connection.TryParseEnvelope | src/transport.rs:152-191 | takes an envelope off the buffer and otherwise leaves it alone |
| Receiver.Connection.RecvOne | src/transport.rs:67-122 | the receive loop computes the specification's result, buffer, timer and clock |
| Receiver.ChunkingIndependence | src/transport.rs:67-122 | however a stream that cannot overflow the buffer is cut into reads and calls, its messages are handed out in order, none missing or invented, with the same framing error |
| ReceiverLimit.OverflowsExactly | src/transport.rs:112-118 | some cutting of a stream overflows the buffer if and only if, where some message begins in order, its header announces more than 3,991,809 bytes and at least 4,000,025 bytes follow from there |
| ReceiverLimit.BoundIsTight | src/transport.rs:112-118 | no stream whose headers stay within a bound can overflow if and only if the bound is at most 3,991,809 |
| ReceiverLimit.HeavyOverflows | src/transport.rs:112-118 | for each such stream, a cutting that delivers the messages before and then overflows the buffer |
| Receiver.DeadlineIsForPartials | src/transport.rs:77-92 | the timer runs exactly while part of an envelope is held, and the hard deadline fires only after it |
| Conversation.Link.constructor | src/transport.rs:29-43 | a new link has an empty trace and a new connection |
| Conversation.Link.Send | src/transport.rs:58-62 | writes exactly the message's frame, or part of it when the socket fails; a message that cannot be framed is refused and nothing is written |
| Conversation.Link.RecvOne | src/transport.rs:67-122 | one receive, entered in the trace, which uses up some of the stream |
| Conversation.Link.AnswerPing | src/transport.rs:125-150 | a ping with a nonce of eight bytes is echoed, any other refused |
| Conversation.RecvMatching | src/crawler.rs:704-739 | ends with the first message of the command, at the deadline, or when the transport fails, and has skipped only what it may skip |
| Conversation.Handshake | src/crawler.rs:609-700 | every result is justified by the trace: success needs our version written, a version that parses, the negotiation, our verack written, and then the peer's verack |
| Conversation.TraceDecides | src/crawler.rs:609-700 | a trace justifies one result at most |
| Gathering.HandleAddrMessage | src/crawler.rs:870-930 | credits the responder, and feeds the enabled addresses to the store and the queues only if the block was logged; for a discovering worker, its own steps |
| Gathering.RaisedLeads | src/crawler.rs:883-891 | raising the responder's figures is a step of the discovering worker |
| Gathering.HandledLeads | src/crawler.rs:870-930 | all a message makes of the crawl, logged or not, is the discovering worker's own steps of a run, from the state the message finds |
| Gathering.AbsorbedStats | src/crawler.rs:883-891 | the responder's figures rise by what the message declares, and its count of valid messages only when it was logged |
| Collection.OnAddr | src/crawler.rs:758-829 | one address message: what it makes of store, queues and figures, and whether it ends the collection |
| Collection.OnMessage | src/crawler.rs:757-841 | what one message of any kind makes of the collection |
| Collection.OnePass | src/crawler.rs:756-864 | one turn of the loop, with the outcome of every ending |
| Collection.GetAddr | src/crawler.rs:742-867 | the outcome is the one its trace calls for, and store and queues are left as its accepted messages leave them, absorbed in order; for a discovering worker, its own steps of a run |
| Collection.CollectionLeads | src/crawler.rs:742-867 | whatever the peer sends and however the collection ends, its effect is its worker's own steps: from a state of a run it leads to a state of a run |
| Collection.FiguresExact | src/crawler.rs:815-829 | then the responder's valid, malformed and advertised figures are those of the messages in the trace |
| Collection.OutcomeFaithful | src/crawler.rs:742-867 | an outcome says the peer answered if and only if a message was accepted; only the last accepted message can have two or more addresses, and it has exactly when it ended the collection |
| Base32.DecodeEncode | src/address.rs:102-114 | decoding undoes encoding, with the label's length and alphabet |
| Base32.EncodeDecode | src/address.rs:102-114 | what decodes is the encoding of its bytes |
| Addresses.WireNetworkAgrees | src/protocol.rs:487-532 | every address accepted off the wire is classified as the network it came in on |
| Addresses.DistinctHosts | src/protocol.rs:487-557 | distinct pairs of network and bytes give distinct hosts |
| Addresses.LegacyAgreement | src/protocol.rs:465-485 | the legacy decoder agrees with the classifier if and only if the address is outside fc00::/8 |
| Addresses.OnionV3Valid | src/protocol.rs:535-557 | an encoded onion v3 key is a valid label that decodes to the key |
| Addresses.ParseRender | src/bin/probe.rs:208-237 | a rendered node is read back as exactly its host and port |

## Left out

- Worker panics and the second Ctrl+C: a panic can leave an entry queued but uncounted, so the scheduler's statements are about runs without one. The first Ctrl+C is modelled.
- Seed observation and frontier upsert are one atomic step each in the scheduler, as they are under one shard lock; atomics are sequentially consistent.
- SOCKS5, SAM, DNS, preflight probes and the opening of connections: a connection attempt succeeds or fails with any connect failure.
- SHA-256 and SHA3-256, the IPv6 printer and parser, and UTF-8 decoding are any functions; the laws assumed of them are `Addresses.Lawful` and the four-byte length of a checksum. The proofs never rely on collisions being absent.
- The case conversions around the Base32 codec are folded into a lower-case alphabet.
- Message commands, hosts and texts are sequences of bytes or characters; the UTF-8 encoding of the log text is not modelled.
- The clock is a number each read or write reports; the source's two clock readings within one turn of the receive loop are one.
- The write of a log record, within a collection, succeeds or fails as given; `Observation` models the log itself.
- `valid_addr_messages` at a checkpoint: the source raises it outside the barrier, so it may lag the log and no equality is claimed.
- Scheduler: `num_processed` and the attempt counters are unbounded numbers; both are bounded by `SchedulerBounds.WorkBound`.
- ObservationTheorems.CheckpointAgrees: says nothing once a write to the log has failed; a failed write may leave part of a record in the file.
- The breakdown of advertised addresses by network and the version send timestamps: they are updated beside figures that are modelled.
- The run without an observation log: there is then nothing to agree with.
- Result files, manifests, renames, logging, command line, settings parsing, the status monitor and its estimates.
