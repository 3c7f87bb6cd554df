# devmon-agent: a verified model of its stateful cores

devmon-agent exposes a narrow Docker control API to paired devices. This project models the parts of
it that keep state under concurrency, failure or adversarial chunking, and proves what they promise:

- **The event hub.** One lazily started Engine subscription is shared by every connected client.
  `HubModel` is a step machine with one step per critical section, channel operation or call of a
  cancel function, for any number of clients, runs and callers of `stop`; `HubInvariant` is the
  inductive invariant; `HubTheorems` draws the conclusions, `HubOutcomes` says what a client may be
  told and when, and `HubSchedules` what whole schedules add up to. `EventHub` holds the classes whose
  methods are the critical sections, each proved equal to the section of the machine.
  `ContainerEvents` is the allowlist the feed goes through.
- **One event-stream request.** `EventStream` interleaves the select loop, the heartbeat goroutine
  and everything outside them. `EventRegistry` is the newest-wins slot per device, as a class and as a
  machine of interleaved registrations and releases. `Sse` prints and parses the frames.
- **The log demultiplexer.** `Framing` (the Engine's 8-byte frame headers), `LogLines` (the
  declarative split of a byte string and the byte-at-a-time automaton), `LineSplitter` and `Demux` (the
  chunked, stateful code, as classes with loops refining the automaton).
- **Audit retention** (`AuditRetention`), **the schema ladder** (`Migrations`) and **the server
  key files** (`KeyFiles`) under failures, crashes and, for the ladder, racing processes.
- **Rate limits and stream slots.** `RateLimit` (token bucket, bounded registry), `PreAuth` (the
  pre-authentication tiers over them, and the guarded tier's limit) and `StreamBudget` (the two-level allocator).
- **Pairing, renewal, revocation.** `DeviceStore` has one function per SQL statement and the store
  class over the same tables; `PairingModel` interleaves requests statement by statement, with
  rollbacks; `PairingInvariant` and `PairingTheorems` hold the proofs, and `PairingOutcomes` says what
  one request comes to, on literal rows and times.

`dafny verify dfyconfig.toml` checks everything.

How to read it: a machine's `Enabled`/`Apply` (and the `...Enabled`/`...Step` functions of
`HubModel`) are the code's steps; `Reachable` is "by some finite sequence of enabled steps", so a
lemma that requires `Reachable(s)` speaks of every state of every interleaving. A class method's
`ensures` ties it to the function the lemmas are about.

## Where the code and its own text differ

- `PruneAudit`'s comment (internal/state/store.go:264-266) says one device can never evict another
  device's rows. `AuditRetention.InsertSparesOthersIff` says exactly when a device's new row leaves
  every other device's survivors alone. Below the cap a device that already has a row in age does; a
  device's first row does if and only if no other device holds more rows in age than the share it
  leaves them (or the share stays the same), and `AuditRetention.FirstRowEvicts` is the smallest
  input that fails. Once the devices in age reach a positive cap, a device's row spares the others
  if and only if the device has a row in age already and fewer than `maxRows` other devices have a
  newer one, that is, if it has a survivor (`AuditRetention.SurvivesAtCapIff`); otherwise it costs
  another device its last row (`AuditRetention.InterferenceAtCap`), and above the cap such a device
  always exists (`AuditRetention.SqueezedOut`).
- `parseSSEBlock`'s comment (internal/e2e/harness/stream.go:41-47) says a caller can tell a clean end
  from an end inside a frame. The parser answers both with the reader's own error and has no other,
  so they can be told apart if and only if the reader failed differently
  (`Sse.EndsToldApartIff`, `Sse.ErrorIsReaders`). No partial frame comes out in either case.
- The parser's trimming also removes carriage returns, so which events survive the round trip is
  stated as an exact condition (`Sse.EventRoundTripIff`).
- `RevokeDevice` (internal/state/devices.go:170-191) runs two statements, and its success does not
  mean that there is a revoked row. A device row rolled back between them makes the second one a
  no-op that still reports success: `PairingTheorems.RevokeMissesRow` reaches such a state, and
  `PairingTheorems.RevokeCommits` says that after a reported success the device is revoked if and
  only if its row was still there, with nobody active under its id either way.

## Model

| member | source | states |
|---|---|---|
| ContainerEvents.ProjectConcat | internal/dockerx/events.go:127-144 | the allowlist works message by message: filtering a log is filtering its pieces, in order |
| ContainerEvents.AllowlistExact | internal/dockerx/events.go:91-155 | exactly four lifecycle actions and the two exact health actions of containers go through, under which names and health values, with nanoseconds preferred to seconds for the time |
| ContainerEvents.OnlyTheName | internal/dockerx/events.go:120-150 | no label but "name" influences what is forwarded, and the name loses one leading slash only |
| HubInvariant.InvStep | internal/httpapi/eventhub.go:106-259 | every step of every thread keeps the hub's inductive invariant |
| HubTheorems.NoGap | internal/httpapi/eventhub.go:225-259 | in every reachable state a subscriber's deliveries are one contiguous stretch of its run's feed from the registration on, within the buffer cap; the feed is all that the allowlist lets through since the subscription; a registered subscriber already served lacks nothing |
| HubTheorems.HistoryGrows | internal/httpapi/eventhub.go:50-74 | no step takes back a delivery or replaces a close reason |
| HubTheorems.SnapshotMissesNothing | internal/httpapi/events.go:91-117 | for a client the hub still serves or has closed only because the Engine went: everything allowlisted that was logged from the snapshot position on is, in order and without a hole, the tail of what it was delivered |
| HubTheorems.NeverJoinedLate | internal/httpapi/eventhub.go:95-150 | for every client, lagged, detached or in the middle of a fan-out too: its deliveries start at or before the snapshot position, and from there on they are a prefix of what was logged; only the end can be missing |
| HubTheorems.LostOnlyByLagging | internal/httpapi/eventhub.go:236-259 | between fan-outs an undetached client either has every event of its run since it joined, or has been told that it lagged |
| HubTheorems.SingleSubscription | internal/httpapi/eventhub.go:76-150 | subscribers imply a running hub, at most one Engine subscription is live, the shared fields belong to the newest run, and no channel is ever closed twice nor a nil cancel called |
| HubTheorems.NoStrandedClient | internal/httpapi/eventhub.go:186-223 | a client holding a subscriber is registered with the live run, or on its finished run's teardown list, or has exactly one close reason; never two |
| HubTheorems.NoLeakedSubscription | internal/httpapi/eventhub.go:153-170 | a running hub without subscribers has its run cancelled already, or a detach, a client's or the fan-out's own, is about to cancel exactly that run |
| HubTheorems.CancelReachesOnlyItsRun | internal/httpapi/eventhub.go:153-184 | a run starts uncancelled with nobody holding its cancel, and only a holder of that very function can cancel it |
| HubTheorems.AttachCanReturn | internal/httpapi/eventhub.go:134-150 | with a request that never ends: a waiting attach can return by its run's ready or failed channel, or that run's goroutine has a step to take; an ended run has closed failed |
| HubTheorems.WaitEnds | internal/httpapi/eventhub.go:186-230 | each action of that run opens one of the two channels or brings that strictly closer |
| HubTheorems.WaitUndisturbed | internal/httpapi/eventhub.go:106-259 | no other thread's action sets that run back |
| HubTheorems.UnwindingEnabled | internal/httpapi/eventhub.go:134-170 | an attach that failed or was abandoned is never blocked on its way out |
| HubTheorems.AttachAdvances | internal/httpapi/eventhub.go:134-150 | each own step brings a pending attach strictly closer to its single result |
| HubTheorems.AttachUndisturbed | internal/httpapi/eventhub.go:106-150 | no other thread's step moves a pending attach |
| HubTheorems.RunNeverStuck | internal/httpapi/eventhub.go:186-259 | a run's goroutine always has a step outside its select loop, and inside it once cancelled; fan-out never blocks on a client |
| HubOutcomes.AttachTellsTruth | internal/httpapi/eventhub.go:134-150 | in every reachable state an attach is on its failed path only if its run's failed channel was closed, on its abandoned path only if its own request ended, and treated as served only if its run became ready |
| HubOutcomes.LiveAttachSucceeds | internal/httpapi/eventhub.go:134-150 | while its run has not failed and its request lives, the only own step of a waiting attach is to return its subscriber, and it is there once the run is ready |
| HubOutcomes.ServedThroughOpen | internal/httpapi/eventhub.go:134-170 | a client reaches the handler's paths only through a returned subscriber |
| HubOutcomes.ReasonsTellTruth | internal/httpapi/eventhub.go:208-259 | a client told it lagged had a full buffer and has missed an event; one told the Engine went has missed nothing and its run has ended |
| HubOutcomes.FailedAttachToldWhy | internal/httpapi/eventhub.go:137-145 | with no later run since, a failed attach is told the error its run was torn down with, or that the hub is unavailable if there was none |
| HubOutcomes.NoStaleError | internal/httpapi/eventhub.go:115-145 | while any run is going, a failed attach is never told an earlier run's error |
| HubSchedules.FeedErrorIsTold | internal/httpapi/eventhub.go:137-197 | the error StreamContainerEvents returned is the one that reaches every attach that failed on that run, across teardown and whatever else happens, until a later run starts |
| HubSchedules.FeedStartsAtSubscribe | internal/dockerx/events.go:176-212 | a run's feed starts at the Engine's log as it was when it subscribed, and each message read moves it one on, forwarded or not |
| HubSchedules.FeedIsTheLog | internal/dockerx/events.go:176-212 | what a run has emitted is the allowlisted part of exactly the messages read since it subscribed |
| HubSchedules.CleanEndWasAsked | internal/dockerx/events.go:184-211 | a subscription returns without an error only if its run was cancelled or the server's lifetime ended |
| HubSchedules.TakenIsReceived | internal/httpapi/eventhub.go:29-74 | a buffer's occupancy is its deliveries less the handler's receives, so each receive makes room for one event |
| HubSchedules.StopCancels | internal/httpapi/eventhub.go:172-184 | a stop cancels the run that was going when it looked, whatever happens before the call, and nothing when none was |
| HubSchedules.ShutdownReaches | internal/dockerx/events.go:184-187 | after the server's lifetime has ended every run in its loop can leave it cleanly |
| HubSchedules.AbandonedAttachReturns | internal/httpapi/eventhub.go:146-148 | after a client's request has ended its waiting attach can return, whatever the Engine does |
| EventHub.EventHub.Register | internal/httpapi/eventhub.go:106-133 | attach's critical section on the fields is the machine's, and it hands out the run's own channels |
| EventHub.EventHub.Unregister | internal/httpapi/eventhub.go:153-170 | detach's critical section, and the cancel is captured exactly by the last one out of a running hub |
| EventHub.EventHub.TearDown | internal/httpapi/eventhub.go:186-208 | run's critical section: fields reset, every subscriber handed to the teardown list |
| EventHub.EventHub.CloseAll | internal/httpapi/eventhub.go:208-223 | every listed subscriber ends up told once; one told before keeps its first reason |
| EventHub.EventHub.Serve | internal/httpapi/eventhub.go:240-258 | one turn of the loop: with room the event is appended and nothing else changes; without, the fields become those of detach's section, the subscriber's close is the lagged one, and the cancel is called iff detach says so |
| EventHub.ServeIsDrop | internal/httpapi/eventhub.go:240-258 | in the machine the same turn is three steps, each enabled by the one before, with the same fields, the same close and the same cancel |
| EventHub.EventHub.Fanout | internal/httpapi/eventhub.go:236-259 | with no other thread running: each subscriber with room gets exactly this event appended, each without room is dropped and told it lagged, and the run is cancelled iff the last one was dropped |
| EventRegistry.Registry.Register | internal/httpapi/eventregistry.go:54-81 | the device's entry becomes the new slot, other entries stay, and exactly the evicted slot is superseded and cancelled |
| EventRegistry.Registry.Release | internal/httpapi/eventregistry.go:82-91 | removes the entry only while it is still this slot's, once |
| EventRegistry.NewestWins | internal/httpapi/eventregistry.go:54-91 | under any interleaving a slot is in the map iff neither released nor evicted, and then it is the newest of its device and the only one |
| EventRegistry.SupersededIffEvicted | internal/httpapi/eventregistry.go:46-80 | superseded is closed at most once, before cancel, only on eviction by a newer slot of the same device, and for certain once that registration returned |
| EventRegistry.NeverClosesTwice | internal/httpapi/eventregistry.go:77-80 | every close is of an open channel |
| EventRegistry.ReleaseSparesSuccessor | internal/httpapi/eventregistry.go:82-91 | a superseded or repeated release changes no entry, and a release touches no other slot's |
| EventStream.FramesInOrder | internal/httpapi/events.go:109-215 | whatever select picks: the snapshot is first and only once, health frames are an in-order prefix of the deliveries, at most one error frame, and its reason is true |
| EventStream.ShowsTheFeed | internal/httpapi/events.go:180-215 | the k-th health frame on the wire is the k-th event the hub's run emitted since this client registered |
| EventStream.SilentAfterReturn | internal/httpapi/events.go:77-84 | the handler returns only after its heartbeat exited, and nothing is written afterwards |
| EventStream.UnwindReturns | internal/httpapi/events.go:77-84 | a leaving handler's wait cannot hang: one named step of its own threads is always enabled and brings the return nearer |
| EventStream.SupersededIsTold | internal/httpapi/events.go:230-249 | although eviction cancels the handler's own context, the main loop can still send the superseded frame, as the stream's only error frame |
| EventStream.ClosedIsTold | internal/httpapi/events.go:202-215 | the main loop can tell a lagged client from one whose Engine went, in exactly one error frame with that reason |
| EventStream.EndsAreSeen | internal/httpapi/events.go:180-215 | however long ago, a supersession, a disconnect or a closed subscription leaves its branch of the select takable, a heartbeat at rest can leave after a disconnect, and a working check finds a revocation |
| EventStream.RevokedTickEnds | internal/httpapi/events.go:143-228 | over every continuation of a tick that finds the device revoked: the heartbeat never sleeps again, past its claim the Once is taken, after at most three more own actions it is out with the stream's context cancelled; until then it has an action to take, or waits at the Once for the main loop's terminal frame, which the main loop can write and which lets it on |
| EventStream.RevokedIsTold | internal/httpapi/events.go:158-176 | the claimed frame gives the true reason, is the only error frame, and the context is cancelled after it |
| EventStream.RevokedTickTells | internal/httpapi/events.go:143-178 | from the check that finds the revocation, with no reason claimed yet, the heartbeat can send exactly the revoked frame and then cancel |
| EventStream.WatchedWhileOpen | internal/httpapi/events.go:137-178 | while a stream is open, uncancelled and not revoked, its heartbeat is alive and can tick or check |
| EventStream.TicksAreHeard | internal/httpapi/events.go:143-152 | the heartbeats on the wire are exactly the ticks whose write went through |
| EventStream.ClientReadsFrames | internal/httpapi/sse.go:122-184 | parsing the bytes of a whole stream gives back its frames one for one |
| EventStream.BytesTellFrames | internal/httpapi/sse.go:14-19 | two streams from which the client parses the same blocks wrote the same frames one for one, as far as their payloads tell: snapshot, health, error and heartbeat are never confused |
| Sse.PrintShape | internal/httpapi/sse.go:122-184 | the printed form is the source's format string, character for character |
| Sse.RoundTrip | internal/e2e/harness/stream.go:48-89 | parsing inverts printing for every sequence of readable events and comments, comments as keepalives |
| Sse.EventRoundTripIff | internal/e2e/harness/stream.go:48-89 | an event comes back itself, consuming its own bytes, iff no field holds a newline or ends in a carriage return and id and name are not both empty |
| Sse.CutAnywhere | internal/e2e/harness/stream.go:41-89 | a stream cut at any character yields exactly the complete items, never part of one |
| Sse.EndsToldApartIff | internal/e2e/harness/stream.go:41-89 | the empty rest and every proper prefix of an item fail with exactly the reader's error, so a caller tells them apart iff those errors differ |
| Sse.ErrorIsReaders | internal/e2e/harness/stream.go:48-89 | on any bytes the parser's only error is the reader's own |
| Sse.ParsedIsClean | internal/e2e/harness/stream.go:48-89 | on any bytes at all, the fields returned hold no newline and end in no carriage return |
| Sse.ParseSSEBlock | internal/e2e/harness/stream.go:48-89 | the line-reading loop computes the block parser and leaves the reader after the block |
| Sse.SseWriter.Write | internal/httpapi/sse.go:81-184 | headers are committed at most once and before any frame; a frame is reported sent iff it was encoded and nothing failed, and is then on the wire whole; any other left at most a prefix |
| Framing.FramesRoundTrip | internal/dockerx/framing.go:39-83 | decoding the concatenation of any frames of at most 1 MiB gives exactly those frames and a clean end |
| Framing.HeaderMeans | internal/dockerx/framing.go:39-83 | what each header byte means, in literal bytes: kind 1 or 2 and nothing else, three ignored, size big-endian, refused above one mebibyte |
| Framing.CutAnywhere | internal/dockerx/framing.go:39-83 | cut anywhere: exactly the complete frames come out, and the end is clean iff the cut is a frame boundary |
| LogLines.SplitInvertsJoin | internal/dockerx/framing.go:122-202 | the declarative split returns each terminated line once, in order, cut to 8192 and marked iff longer, and a rest only if there is one |
| LogLines.AutomatonSplits | internal/dockerx/framing.go:122-202 | the byte-at-a-time automaton, flushed, computes the declarative split of any byte string |
| LogLines.ChunkingInvisible | internal/dockerx/framing.go:122-202 | for every division into pushes the lines are those of the whole, and the buffer never exceeds 8192 and is empty while discarding |
| LogLines.ExtractKeepsLine | internal/dockerx/framing.go:218-227 | timestamp, space and text put together are the line again, or the text is the whole line; a prefix up to the first space that parses is always extracted |
| LogLines.OutputShown | internal/dockerx/framing.go:122-227 | every emitted line, for any output: one per terminated line and non-empty rest, flagged iff longer than 8192 bytes, less one final carriage return, with its stamp, if it has one, apart from its text |
| LineSplitter.LineSplitter.Push | internal/dockerx/framing.go:122-185 | push emits and leaves behind exactly what the automaton does on its bytes; an emit failure leaves exactly the calls before it |
| LineSplitter.LineSplitter.Flush | internal/dockerx/framing.go:191-202 | flush emits each stream's remainder once, in whatever order; a failure leaves exactly the streams before it |
| Demux.ReadFrame | internal/dockerx/framing.go:39-83 | reading through the reader is the declarative frame parser, error cases included |
| Demux.StreamsIndependent | internal/dockerx/framing.go:100-202 | interleaved streams never mix: each one's state and lines are those of its own bytes |
| Demux.DemuxNonTTY | internal/dockerx/logs.go:191-205 | every line of every complete frame in order; on a clean end each stream's lines are the split of all it wrote; on any other end nothing more; on a refused emit exactly the calls before it |
| Demux.EncodedLogRoundTrip | internal/dockerx/logs.go:191-205 | demuxing any encoded frames ends cleanly with each stream's lines the split of what it wrote |
| Demux.LineShown | internal/dockerx/framing.go:122-227 | one written line, framed and demuxed, is one emitted line that shows what was written |
| Demux.StampedLineShown | internal/dockerx/framing.go:207-227 | stamp, space and text that fit 8192 bytes, ended by a newline with or without a carriage return, come out as that stamp and that text, not truncated |
| Demux.PlainLineShown | internal/dockerx/framing.go:207-227 | a line without a stamp that fits comes out whole, as text, with no stamp |
| Demux.LongLineShown | internal/dockerx/framing.go:148-178 | an over-long stamped line comes out with its stamp, the first bytes of its text up to 8192 in all, and the truncated flag |
| Demux.CutLogLines | internal/dockerx/logs.go:191-205 | cut inside a frame: unexpected end, after exactly the lines of the complete frames |
| Demux.DemuxTTY | internal/dockerx/logs.go:212-229 | the lines are the split of the whole output however the reads divided it; error and refused-emit ends included |
| Demux.History.Emit | internal/dockerx/logs.go:122-143 | the bounded fetch keeps exactly the first 2000 lines offered and reports truncation iff there were more |
| AuditRetention.FairShare | internal/state/store.go:277-351 | with b device buckets in age and b at most maxRows, every device keeps exactly its newest maxRows / b rows in age, or all of them |
| AuditRetention.SameBucketIff | internal/state/store.go:320-338 | two rows share a bucket iff their device columns are equal or both NULL or empty |
| AuditRetention.FairShareByColumn | internal/state/store.go:317-351 | fair share on the device column itself, without the word bucket: each named device, and all unattributed rows as one, keeps exactly its newest maxRows / b rows in age |
| AuditRetention.CountPassIdle | internal/state/store.go:295-301 | under the same condition the final count pass removes nothing |
| AuditRetention.EveryDeviceSurvivesIff | internal/state/store.go:317-351 | every device with a row in age keeps one iff such devices number at most maxRows |
| AuditRetention.RowCap | internal/state/store.go:295-301 | the result never exceeds maxRows rows |
| AuditRetention.NonInterference | internal/state/store.go:260-266 | two tables that differ only in the rows of one device, which has a row in age in both, leave every other device the same survivors while the devices in age fit the cap |
| AuditRetention.InsertSparesOthersIff | internal/state/store.go:260-266 | the exact condition, on the rows of the table before the insert, under which one more row leaves every other device's survivors alone |
| AuditRetention.SurvivesAtCapIff | internal/state/store.go:277-351 | once the devices in age reach a positive cap, a device survives iff it has a row in age and fewer than maxRows other devices have a newer one than its newest |
| AuditRetention.NewDeviceSparesIff | internal/state/store.go:330-347 | below the cap a device's first row leaves device e alone iff the share stays the same or e's rows in age fit the smaller one |
| AuditRetention.FirstRowEvicts | internal/state/store.go:264-266 | the smallest failing input: cap two, two rows of one device, first row of another |
| AuditRetention.InterferenceAtCap | internal/state/store.go:264-266 | with a positive cap that the devices in age reach, on every table, one more row of a device without a survivor, known or new, evicts another device's last row |
| AuditRetention.SqueezedOut | internal/state/store.go:264-266 | above the cap a squeezed-out device always exists |
| AuditRetention.Idempotent | internal/state/store.go:277-351 | pruning again with the same cutoff and cap removes nothing, for every cap |
| AuditRetention.AuditStore.PruneAudit | internal/state/store.go:277-315 | all three passes or, on any failing statement, none, the share pass's own statements included, which run only when a row is in age; the count returned is the number of rows removed |
| Migrations.LadderSafe | internal/state/store.go:167-233 | with any number of processes opening, failing and crashing, the stamp always names exactly the applied rungs, never goes down, and once v2 is in place no device row is lost |
| Migrations.OpenedIsCurrent | internal/state/store.go:167-191 | whoever got the store open has it at the current version |
| Migrations.TooNewUntouched | internal/state/store.go:176-179 | a newer store is never changed and never opened |
| Migrations.StaleUpgradeRollsBack | internal/state/schema.go:32-101 | an opener that read any older version of a store that is by now current fails at the first rung it tries and changes nothing, whatever rows were written meanwhile |
| Migrations.Store.Migrate | internal/state/store.go:167-191 | one opener alone is the machine's opener; it succeeds iff no rung it needs fails, and then an older store is the empty current one; a failed rung leaves the store at the version below, and only a newer store is refused as such, untouched |
| KeyFiles.PairAlwaysMatches | internal/certs/store.go:98-192 | after any starts, failures and kills a whole key and a whole certificate on disk come from one issuance |
| KeyFiles.PairKept | internal/certs/store.go:95-112 | without address drift no start changes an existing pair |
| KeyFiles.HalfIsLoud | internal/certs/store.go:170-192 | half a pair, or a torn one, is never overwritten and never served |
| KeyFiles.StartServes | internal/certs/store.go:40-77 | a start without failures serves, from no files as from a pair, reissuing a drifted pair once |
| KeyFiles.StartServesWhich | internal/certs/store.go:40-77 | after any history, a smooth start serves the pair on disk unless the addresses drifted, and then one issued after everything that was on disk; with no files it serves the next issuance |
| KeyFiles.IssuingFails | internal/certs/store.go:129-168 | what a failure leaves on disk, call by call: nothing before the key exists, the key when it cannot be finished, the key taken back when the certificate fails and its removal works |
| KeyFiles.ReissueFails | internal/certs/store.go:113-127 | the same for a drifted pair: untouched by looking and reading, the certificate removed first, then the key |
| KeyFiles.NothingOverwritten | internal/certs/store.go:199-214 | creating is exclusive: a file that is there is left as it is and the start refuses |
| RateLimit.EvictionRefines | internal/ratelimit/registry.go:42-74 | for any calls with non-decreasing times every keyed answer equals that of a registry that never evicts, charged on keyed calls only |
| RateLimit.ServeBounded | internal/ratelimit/registry.go:42-74 | the registry never holds more than maxKeys keys |
| RateLimit.UnkeyedOnlyWhenThrottled | internal/ratelimit/registry.go:50-58 | a caller is turned away unkeyed only by maxKeys other keys, every one below its burst |
| RateLimit.RateBound | internal/ratelimit/registry.go:42-74 | in any window of any run a key is admitted at most burst + rate * T times, evicted in between or not |
| RateLimit.RetryAfterHonoured | internal/httpapi/ratelimit.go:82-99 | a refused caller that stays silent for Retry-After seconds (section 10.2.3 of RFC 9110) is admitted by its next keyed call, whatever other keys do |
| RateLimit.RetryAfterLeast | internal/httpapi/ratelimit.go:82-99 | no smaller positive whole number of seconds refills a token |
| RateLimit.Registry.Allow | internal/ratelimit/registry.go:42-62 | the method computes the answer and the new map the lemmas speak of, sweep included |
| PreAuth.PreAuthBound | internal/httpapi/ratelimit.go:105-151 | at most 100 + 50 * T unauthenticated requests pass in aggregate, over all interleavings, an unkeyed fallback counting twice |
| PreAuth.PreAuthWindow | internal/httpapi/ratelimit.go:105-151 | the same in any later window, beside the requests already past the global check |
| PreAuth.HundredAtOnce | internal/httpapi/ratelimit.go:30-36 | from below: a fresh server, or one silent for two seconds, lets a hundred requests at once through the global check |
| PreAuth.TierAtMost | internal/httpapi/server.go:174-199 | with n requests per minute configured, or the default 30 and 5 for a value below one, a tier admits one address at most n + n / 60 * T times in any window of T seconds of any run |
| PreAuth.TierAtLeast | internal/httpapi/server.go:174-199 | after sixty silent seconds n requests in a row from one address pass, every one that is keyed, whatever others do |
| PreAuth.DeviceAtMost | internal/httpapi/server.go:191-202 | the guarded tier serves a device at most 2n + n * T requests in T seconds, n per second configured or 20 |
| PreAuth.DeviceAtLeast | internal/httpapi/server.go:191-202 | after two silent seconds 2n requests in a row from a device pass |
| PreAuth.IpCheckMeans | internal/httpapi/ratelimit.go:132-151 | in tokens: an address that is held is answered by its own bucket alone, any other iff the global bucket has a token, which it pays; up to 4096 addresses are held |
| PreAuth.ByIpMeans | internal/httpapi/ratelimit.go:132-151 | in the interleaved machine a request's registry check is its own tier's only, and passes, is refused or falls back by that bucket's level |
| PreAuth.UnauthLimits.WithIPLimit | internal/httpapi/ratelimit.go:132-151 | one tier's check touches only its own registry, and the global bucket only for an unkeyed address |
| StreamBudget.Conservation | internal/httpapi/streambudget.go:51-79 | over any acquires and repeated releases total is the number of unreleased grants and the sum of the per-device counts, each count is in 1..maxPerDevice and matches the device's grants, total stays under its cap |
| StreamBudget.RefusalsExact | internal/httpapi/streambudget.go:55-60 | a device is told it is full iff its own unreleased grants fill its cap, and that the host is full iff they do not and all slots are held |
| StreamBudget.AllReleasedIsNew | internal/httpapi/streambudget.go:65-77 | once every grant is released the budget is as it was built |
| StreamBudget.NoStarvation | internal/httpapi/streambudget.go:18-25 | when the host is full, other devices hold all but at most one device's cap of it |
| StreamBudget.Budget.TryAcquire | internal/httpapi/streambudget.go:51-80 | the counters and the outcome after an acquire, with a release exactly when granted |
| StreamBudget.ReleaseFunc.Call | internal/httpapi/streambudget.go:65-77 | the first call gives the slot back, later ones change nothing |
| DeviceStore.Store.RedeemPairingCode | internal/state/pairing.go:64-86 | one conditional update: live codes are spent and named, any other answer changes nothing |
| DeviceStore.Store.PrunePairingCodes | internal/state/pairing.go:92-105 | exactly the expired rows go, and the count is their number |
| PairingModel.Agent.PairDevice | internal/httpapi/pair.go:154-211 | alone, pairing succeeds iff no call fails, the id and serial are new and the code is live, leaving one named, certified device; a failure with a working rollback leaves at most a spent code |
| PairingModel.Agent.RenewDevice | internal/httpapi/device.go:132-151 | alone, a renewal adds one certificate, deletes and shortens none, and leaves it the device's only unsuperseded one |
| PairingInvariant.InvStep | internal/httpapi/pair.go:154-211 | every statement of every request keeps the registry's inductive invariant |
| PairingTheorems.SingleUse | internal/state/pairing.go:55-86 | no two requests ever redeem the same mint, whatever the interleaving |
| PairingTheorems.SuccessCarriesMint | internal/httpapi/pair.go:154-195 | a successful pairing's device has the minted name and the issued certificate on file |
| PairingTheorems.RowsAccountedFor | internal/httpapi/pair.go:136-153 | each device row belongs to exactly one pairing: running, successful or with a failed rollback |
| PairingTheorems.RowsAreSuccesses | internal/httpapi/pair.go:136-153 | with none in flight and all rollbacks done, the rows are those of the successful pairings |
| PairingTheorems.NothingInterferes | internal/httpapi/pair.go:163-187 | no other request can make a pairing's rename or record fail, nor a rollback delete a certificate |
| PairingTheorems.RevokedUntilGone | internal/state/devices.go:170-191 | a revocation keeps its time in every later state until the device's own pairing is rolled back |
| PairingTheorems.RevocationTotal | internal/httpapi/middleware.go:90-134 | once a device with a certificate is revoked, every certificate of it, later recorded ones included, is rejected in every later state and its streams end |
| PairingTheorems.RevokedInFlight | internal/state/devices.go:172-191 | a device revoked during its own pairing is rejected with the certificate that pairing records |
| PairingTheorems.RevokeCommits | internal/state/devices.go:170-191 | after a reported success nobody is active under that id, no other device's access changed, and the device is revoked iff its row was still there |
| PairingTheorems.RevokeMissesRow | internal/state/devices.go:172-191 | a reachable state in which the revocation succeeds with the row gone |
| PairingTheorems.NeverStranded | internal/httpapi/device.go:126-151 | a recorded certificate stays, with its validity, and authenticates until its device is revoked |
| PairingTheorems.StreamCheckAgrees | internal/httpapi/logs.go:128-140 | the in-stream check ends a stream iff the lookup worked and a new request would be rejected |
| PairingTheorems.SequentialRenewals | internal/state/devices.go:109-123 | renewals one after the other leave exactly the newest unsuperseded and delete none |
| PairingTheorems.RenewalSupersedes | internal/httpapi/device.go:143-145 | in any interleaving a finished renewal leaves none of its device's certificates unsuperseded but its own, and changes nobody else's |
| PairingTheorems.OverlappingRenewals | internal/state/devices.go:113-123 | overlapping renewals can supersede each other, leaving none unsuperseded and both valid |
| PairingTheorems.PruningUnobservable | internal/state/pairing.go:88-105 | with non-decreasing times and fresh codes, dropping every prune from a run changes no pairing, renewal, revocation, device or certificate |
| PairingTheorems.MintBlindIff | internal/state/pairing.go:41-47 | a mint can tell a pruned table from the full one iff it draws a pruned code again |
| PairingTheorems.LivesItsTtl | internal/state/pairing.go:30-86 | over every run after a mint that neither redeems nor mints the code again, prunes included: a redemption without a fault succeeds, under the minted name, iff its second lies before the second the ttl runs out in |
| PairingOutcomes.PrunedIff | internal/state/pairing.go:88-105 | over the same runs a prune takes the code iff its second is past the one the ttl runs out in |
| PairingOutcomes.MintCommitsIff | internal/state/pairing.go:30-53 | a mint commits iff its ttl is positive and its code new, and changes nothing else |
| PairingOutcomes.PairingAlone | internal/httpapi/pair.go:136-211 | a pairing from first step to last, on literal rows: success iff no call fails, the names are new and the code is live; a failure leaves nothing, the spent code, or with a failed rollback the device row, called "pending" unless renamed |
| PairingOutcomes.RenewalAlone | internal/httpapi/device.go:126-151 | a renewal from first step to last: which certificate is recorded with which times, which are superseded and when, which stay |
| PairingOutcomes.RevokeReports | internal/state/devices.go:170-191 | what a revocation answers and leaves, whatever happens between its statements; the time of the first revocation stays |
| PairingOutcomes.RenewalNeedsAccess | internal/httpapi/middleware.go:90-134 | a renewal begins iff the certificate shown is on file for a device that is there and not revoked, and is for that device |
| PairingOutcomes.ForeignKeyKept | internal/state/schema.go:79-89 | every action on any tables keeps the certificates' foreign key; a device's deletion takes its certificates along |

## Left out

- SQLite, database/sql, TLS, x509, JSON and the Docker SDK: a statement is one atomic step that
  commits or fails without effect, a certificate is its serial, a payload is a clean string.
- Random ids, serials, codes, the clock, `time.Parse` and failing calls are parameters of the steps.
- ContainerEvents.AllowlistExact: gives the instant an event carries; its RFC 3339 text, which stops at the
  second, belongs to the payload encoding, which is a parameter.
- `internal/httpapi/eventhub.go:172-184` waiting for the run's goroutine after its cancel, and the
  logging of runs and fan-outs.
- The hub machine names subscribers, channels and cancel functions by client and run numbers; it also
  allows a feed that ends before readiness was announced, a superset of the code's behaviours.
- The event handler, the registry's interleavings, the pairing requests and the key files are step
  machines on values, because their results are about interleavings and crash points; update in place
  is modelled by the classes beside them, except for the handler and the key files.
- PreAuth.PreAuthBound: the registry check and the fallback to the global bucket are separate steps, as
  their locks are, but each step reads its own time; the code reads the clock once for both, so that
  the fallback's time can be older than another request's.
- Demux.DemuxTTY: takes what the reader's successive calls return as a sequence of chunks.
- A line cut short by an end that is not clean is dropped, as in the code; the order in which flush
  visits the streams is free, as is map iteration in the code.
- RateLimit.RetryAfterHonoured: arithmetic is over reals, so rounding in the bucket's floating point
  is not modelled; times are those seen under the lock, taken to be non-decreasing.
- PairingTheorems.PruningUnobservable: a clock read before and used after another request's prune
  could be older than the prune's; times are taken to be non-decreasing in commit order.
- KeyFiles.PairAlwaysMatches: one process at a time, and a write that returned survives the kill;
  power loss and two racing processes are not covered. The CA's own files follow the same protocol.
- Migrations: a version row that is no number, the integrity check and file permissions.
- `last_seen_at`, its throttled update and the listing of devices; the audit rows of the handlers.
- The log stream's handler (internal/httpapi/logs.go:161-330): its terminal frame goes through the
  same once-only protocol as `EventStream`.
- The connection drain at shutdown (internal/httpapi/server.go:248-283), handlers, policy tiers,
  configuration, CLI, log rotation and the health probe: they would add easy members only.
- Fairness and wall-clock liveness: tickers are free steps, and progress is stated as enabled steps
  with a decreasing distance.
