# Verified model of the marketplace node

The node is a peer-to-peer marketplace server. Providers gossip the offers they serve, consumers keep a
table of the offers they have heard of, jobs are created and settled between one consumer and one
provider, and byte streams of a job are joined with streams of local modules. This project models the
parts whose guarantees come from small state machines joined by an unreliable network:

| file | what it models |
|---|---|
| `Base.dfy` | bytes, options, two-level maps |
| `Snapshots.dfy` | the `peers` and `offer_snapshots` tables with their unique indexes and the statements on them |
| `Heartbeats.dfy` | receiving a heartbeat: the clock gate and the two-phase reconciliation of the table it scans |
| `Convergence.dfy` | heartbeats as a replicated register, under loss, reordering and duplication |
| `LiveView.dfy` | a client that queries once and then follows events |
| `Registry.dfy` | which connection provides which offer; provide, disconnect, and the offers of a heartbeat |
| `EndToEnd.dfy` | from one node's registry to another node's active rows; a registry's hold on its own rows |
| `Hashing.dfy` | the job hash's preimage and when it tells jobs apart |
| `Jobs.dfy` | the `service_jobs` transactions and the request handlers around them |
| `Protocol.dfy` | provider, consumer, network and any number of confirm tasks as one state machine |
| `Ledger.dfy` | histories in which the consumer copies what the provider reports: when confirmations succeed, and how the two sides' totals differ |
| `Marketplace.dfy` | a provider's registry, snapshot rows and jobs in one history |
| `Scenarios.dfy`, `GossipScenarios.dfy` | concrete histories: the failures described below do happen |
| `Framing.dfy` | length-prefixed frames: both writers, the reader, the connection's read loop |
| `HandOff.dfy` | connection ids as tickets, from any interleaving of consumers, provider tasks and arrivals |

Tables and registries are classes whose methods do the source's writes in the source's order. Every such
method is proved against a specification function or relation, and the protocol results are proved about
histories of those: the rows of `Jobs.JobTable` below tie the transactions to the functions that `Protocol`,
`Ledger` and `Scenarios` reason about, and the results are there. In `Heartbeats.DisableStale` the scan
takes its rows in any order and may or may not come across rows activated after it began, as SQLite permits.

## Findings

Where the code does not meet a property, the condition under which it does is proved instead.

- A receiver converges for every delivery exactly when the published history is coherent: the provider
  clock never runs against the heartbeat clock and one reading of either stands for one profile and one set
  of offers
  (`Convergence.ConvergesIffCoherent`). Both clocks travel as whole seconds, so for a provider's own history
  the condition is that no two published states that differ share a second of either clock
  (`EndToEnd.RunsConvergeIffSecondsSeparate`). Two changes can share one
  (`GossipScenarios.ChangesCanShareASecond`), and so can two heartbeats, since a late tick is followed by
  one on time (`GossipScenarios.HeartbeatsCanShareASecond`); the receiver then calls the newer one outdated.
- No heartbeat is sent without offers, so withdrawing the last offer is never heard: while a provider
  offers nothing, a receiver is right about it exactly when it never heard of it
  (`EndToEnd.LastOfferIsNeverWithdrawn`, and one that is not in `GossipScenarios.WithdrawnOfferStays`).
- The event filter ignores the provider list when a protocol list is set. The live view is exact for
  every heartbeat of a provider exactly when at most one list is set, or the protocol list is empty, or
  the provider is in the provider list (`LiveView.LiveViewIffFiltersAgree`). A client must subscribe before
  it queries: events it is sent that the answer already shows do no harm (`LiveView.ViewsFollowRuns`).
- Providing an offer sends no offer event on the provider's own node (`EndToEnd.ProvidingIsSilent`, and an
  offer missed by a subscriber to everything in `GossipScenarios.OwnOffersGoUnseen`).
- `offers::upsert` cannot fail on a node's own rows, because those are never disabled; when the pair was
  first provided with another payload it returns the row of the first payload
  (`Registry.UpsertReturnsFirstPayload`, `EndToEnd.ProvidingAnchorsIff`, and a history in
  `GossipScenarios.SecondPayloadIsNotAnchored`). Jobs then store the first payload on the provider and the second
  on the consumer, and with an injective digest a consumer that copies everything faithfully is told that its
  hash is wrong exactly when the two payloads differ, until the job is confirmed or failed (`Ledger.CopyingConfirmsDecided`, `Scenarios.SecondPayloadMismatches`).
- The preimage is not delimited. Two completions of one job with ten-digit times, both deltas present and
  one preimage are equal exactly when their payload lengths are (`Hashing.CollisionsShiftLengths`, with
  two unequal ones in `Hashing.CollisionWithoutEqualLengths`). An absent delta and an empty one look alike.
- `provider_complete_job` does not set `completed_at_local`, which is what `fail_job` tests: a provider
  can fail every job it has not failed yet, completed and confirmed ones included; a consumer exactly its
  open ones (`Protocol.OnlyConsumersGuardFailure`, and a job confirmed and then failed in
  `Scenarios.ConfirmedJobsCanFail`).
- `AlreadyConfirmed` does not mark the consumer's row. The provider-confirmed jobs are the
  consumer-confirmed ones and those whose single Ok was not processed (`Ledger.ConfirmationsPartition`). If
  that Ok is lost, no later step ever confirms the job on the consumer (`Ledger.LostOksAreFinal`,
  `Scenarios.OksCanBeLost`).
- The length prefix is a truncating `u32` cast: a frame is read back exactly when its body is shorter
  than 2^32 bytes (`Framing.FrameRoundTrip`).

## Model

| member | source | states |
|---|---|---|
| `Snapshots.Database.UpsertByPayload` | src/p2p/gossipsub/heartbeat/handle.rs:223-258 | succeeds exactly when the peer is known and every active row of the triple already has the payload; then that payload's row is active and nothing else changed; otherwise nothing changed |
| `Snapshots.Database.UpsertUntargeted` | src/db/offers.rs:196-229 | without an active row of the triple the payload's row becomes active; with one, the tables stay and the result is that row, or a violation only if an inactive row has the payload |
| `Snapshots.Database.Insert` | src/db/migrations/002-create_offer_snapshots/up.sql:35-49 | a plain insert succeeds exactly when the peer exists and neither unique index has the triple |
| `Heartbeats.Visit` | src/p2p/gossipsub/heartbeat/handle.rs:201-304 | one turn of the scan keeps the exact relation between initial table, current table, rows still to visit and events collected so far, with all constraints holding between the writes |
| `Heartbeats.DisableStale` | src/p2p/gossipsub/heartbeat/handle.rs:161-305 | in any visiting order, with or without rows activated meanwhile, the scan ends with every remaining active row offered with its payload and with exactly the removals of rows no longer offered |
| `Heartbeats.EnableMissing` | src/p2p/gossipsub/heartbeat/handle.rs:307-377 | afterwards the active rows are exactly the offers and the events exactly the difference of the two active sets |
| `Heartbeats.InsertAll` | src/p2p/gossipsub/heartbeat/handle.rs:412-453 | the plain inserts of the new-peer branch never violate a constraint and leave exactly the offers |
| `Heartbeats.HandleHeartbeat` | src/p2p/gossipsub/heartbeat/handle.rs:62-453 | all six verdicts: tables unchanged when outdated, when the provider clock went back or without provider data; only the clock moves when it is equal; otherwise the source's active rows are exactly the offers, other providers' rows and all payloads stay, no row disappears, and the events are the exact delta |
| `Heartbeats.ScanReplaces` | src/p2p/gossipsub/heartbeat/handle.rs:207-281 | disabling a row for its payload and enabling its replacement never reactivates a row the scan has yet to reach and adds exactly one update event |
| `Convergence.ScanOrderDoesNotMatter` | src/p2p/gossipsub/heartbeat/handle.rs:161-377 | two reconciliations of one table leave the same active offers and give every earlier row the same flag |
| `Convergence.ActiveExactlyIsEquality` | src/p2p/gossipsub/heartbeat/handle.rs:161-377 | the row-wise exactness statement is equality of the set of active offers with the set in the heartbeat |
| `Convergence.HandlingRefinesReceive` | src/p2p/gossipsub/heartbeat/handle.rs:62-453 | what the handler does to the tables is one step of a last-writer-wins register of profile, clocks and offers for the sender, and nothing for any other provider; each of the two errors and each of the two provider events occurs exactly in the register's corresponding state |
| `Convergence.CoherentHistoriesConverge` | src/p2p/gossipsub/heartbeat/handle.rs:62-137 | for every sequence over a coherent published history, with loss, reordering and repetition, the register holds the profile and offers of its newest heartbeat and the clock error never occurs |
| `Convergence.ConvergesIffCoherent` | src/p2p/gossipsub/heartbeat/handle.rs:62-137 | for any set of published heartbeats, all deliveries converge on the profile and offers of the newest one received if and only if the set is coherent |
| `Convergence.ReceiversAgree` | src/p2p/gossipsub/heartbeat/handle.rs:62-113 | two receivers of the same heartbeats, in whatever orders, hold the same profile and offers, and the same clocks too unless two heartbeats share a second |
| `Convergence.NodesConverge` | src/p2p/gossipsub/heartbeat/handle.rs:62-453 | over any history of a node, mixed with other providers' heartbeats and its own offers, the stored profile and rows of a provider are those of its newest heartbeat received |
| `LiveView.EventFilterIsWeaker` | src/rpc/connection.rs:162-197 | every event the query would want passes the event filter; the two agree for a provider exactly under the caller-visible condition |
| `LiveView.QueryAnswers` | src/db/offers.rs:60-121 | the query answers with exactly the active triples that are in each list that is set, with the rowid and payload of their active row |
| `LiveView.EntryFollows` | src/rpc/connection.rs:199-248 | for each triple the query wants and from any view, the events either set the entry to the query's new answer, snapshot id included, or do not mention it and the answer did not change |
| `LiveView.NothingMissed` | src/db/offers.rs:60-121 | whatever lists are set, the followed view restricted to the query equals the query afterwards |
| `LiveView.LiveViewIffFiltersAgree` | src/rpc/connection.rs:162-197 | the followed view equals the query after every accepted heartbeat of a provider, from any tables, if and only if the filters agree on it |
| `LiveView.ViewsFollowRuns` | src/p2p/gossipsub/heartbeat/handle.rs:458-478 | over any history of heartbeats and own provides, a client that subscribes after k changes, queries after j and receives all events up to m holds the query's answer for every other provider's offer; and the whole answer if the node provided nothing, restricted to what the query wants if its filters disagree |
| `LiveView.HeartbeatsHaveEffects` | src/p2p/gossipsub/heartbeat/handle.rs:461-478 | every handled heartbeat, accepted or not, emits the exact delta that the view lemmas need |
| `LiveView.HandleOfferEvent` | src/rpc/connection.rs:162-248 | exactly one frame for each subscription that wants the event: with a protocol list those that list the protocol, with only a provider list those that list the provider, without lists all |
| `Registry.FindOffer` | src/state.rs:125-150 | finds an offer exactly when some module has it and returns that module and its record; none of the three unwraps can fail |
| `Registry.Server.HandleProvide` | src/rpc/procedure/provider/provide.rs:41-151 | a listed pair is refused with nothing changed; otherwise the whole new registry, with the clock set, and the row it was given; the maps stay inverse and no unwrap fails |
| `Registry.Server.HandleDisconnect` | src/rpc/connection.rs:567-591 | exactly the offers of the connection's module leave both maps, emptied protocols with them, and the clock is set; no unwrap fails |
| `Registry.ProvidingAddsOne` | src/rpc/procedure/provider/provide.rs:68-143 | a new pair adds exactly one offer with its record, to the connection's module or a fresh one, lists it under that module and sets the clock; every other look-up stays |
| `Registry.ClosingRemovesExactly` | src/rpc/connection.rs:567-591 | after a disconnect `find_offer` finds exactly what it found before without the offers of the connection's module, and the clock is set if there was one |
| `Registry.RemoveModule` | src/rpc/connection.rs:567-591 | the loop over the module's offers yields the map without that module's entries |
| `Registry.AlwaysSynced` | src/state.rs:88-117 | after any history of opens, provides and disconnects `offers_module_map[p][o] = m` exactly when module m has (p, o), no inner map is empty, ids are below the counter and each module belongs to one open connection |
| `Registry.NewOfferIsNew` | src/rpc/procedure/provider/provide.rs:68-141 | in a synchronised registry an unlisted pair is absent from the connection's module, so neither `unwrap_none` fails |
| `Registry.StillListed` | src/rpc/connection.rs:567-591 | at every turn of the cleanup the protocol and each offer to remove are still listed |
| `Registry.Server.BuildHeartbeatOffers` | src/p2p/gossipsub/heartbeat/send.rs:13-53 | nothing is built exactly when no offer is listed; otherwise the merge has exactly the listed pairs with the payloads `find_offer` gives |
| `Registry.MergeModule` | src/p2p/gossipsub/heartbeat/send.rs:27-53 | merging a module disjoint from what is there adds exactly its offers and overwrites nothing |
| `Registry.ModulesAreDisjoint` | src/p2p/gossipsub/heartbeat/send.rs:39-50 | no two modules offer the same pair, so the merge's `unwrap_none` cannot fail |
| `Registry.Upsert` | src/db/offers.rs:161-233 | creates the peer if missing, returns an active row of the triple and leaves other rows alone; it can fail only with an inactive row of the payload beside another active one, and then changes nothing; never while the node's own rows are active |
| `Registry.UpsertReturnsFirstPayload` | src/db/offers.rs:196-229 | the returned row has the given payload if and only if the triple never had another one; otherwise it is the row of the first |
| `EndToEnd.RunsStaySynced` | src/state.rs:104-117 | at every moment of a provider's history the registry is synchronised and its clock not ahead of the time |
| `EndToEnd.ChangesAreStamped` | src/rpc/connection.rs:590 | every change, whether an offer comes or goes, sets the clock to its time, and while something is offered nothing else does |
| `EndToEnd.RunsConvergeIffSecondsSeparate` | src/p2p/proto/gossipsub.rs:17-30 | for every history of a provider, restarts with another profile included, all deliveries converge if and only if published states that share a second of the change clock or of the heartbeat clock carry the same profile and offers |
| `EndToEnd.SpacedChangesSeparate` | src/p2p/proto/gossipsub.rs:17-30 | a history whose changes happen, and whose heartbeats are sent, in distinct seconds meets that condition, whatever is said of its clocks |
| `EndToEnd.ReceiversHoldTheRegistry` | src/p2p/gossipsub/heartbeat/send.rs:27-64 | after any history of a receiver that got any selection of the heartbeats, its active rows are the provider's registry at the newest one, its stored profile the provider's then, and the clock error never occurred |
| `EndToEnd.SpacedProvidersAreHeard` | src/p2p/gossipsub/heartbeat/send.rs:27-64 | the same for every provider whose changes and heartbeats fall in distinct seconds |
| `EndToEnd.LastOfferIsNeverWithdrawn` | src/p2p/gossipsub/heartbeat/send.rs:11-25 | for every history of a provider, whatever its clocks, a receiver holds no active rows of it if and only if it never heard of it; so at a moment without offers its rows match the registry if and only if it never heard of the provider |
| `EndToEnd.OffersStayAnchored` | src/rpc/procedure/provider/provide.rs:104-120 | if each own pair always has one payload, every live offer names an active row with its triple and payload, over all histories |
| `EndToEnd.ProvidingAnchorsIff` | src/db/offers.rs:196-229 | one call keeps every live offer on a row with its payload if and only if no row of the pair has another payload |
| `EndToEnd.FoundOffersNameTheirPayload` | src/p2p/reqres/create_job.rs:27-68 | where offers are anchored, a create request finds an offer whose row has the offer's own payload |
| `EndToEnd.OwnRowsStayActive` | src/db/offers.rs:196-229 | no step of a node leaves one of its own rows inactive |
| `EndToEnd.ReferencedRowsNeverChange` | src/db/migrations/003-create_service_jobs/up.sql:41-65 | from the moment a snapshot row is there, inserted by an own provide or a heartbeat, it stays, with its triple and payload, over all histories |
| `EndToEnd.ProvidingIsSilent` | src/rpc/procedure/provider/provide.rs:93-141 | after an own offer an earlier query stays right if and only if the triple was active already or is not asked for |
| `Hashing.HashJob` | src/db/service_jobs.rs:30-48 | feeding the fields one by one digests their concatenation in the source's order, an absent delta adding nothing |
| `Hashing.DecimalInjective` | src/db/service_jobs.rs:39-41 | signed decimal printing is injective |
| `Hashing.DigitsAreDecimal` | src/db/service_jobs.rs:39-41 | printed numbers are decimal notation: digits '0' to '9', most significant first, no leading zero |
| `Hashing.DecimalIsSigned` | src/db/service_jobs.rs:39-41 | negative numbers print with a leading '-' before the magnitude |
| `Hashing.TenDigits` | src/db/service_jobs.rs:41 | times from 10^9 to 10^10 print as ten characters |
| `Hashing.HexRoundTrip` | src/db/service_jobs/consumer/complete.rs:72 | lower-case Base16 (section 8 of RFC 4648) decodes to what was encoded and doubles the length |
| `Hashing.HexCharacters` | src/db/service_jobs/consumer/complete.rs:72 | each byte becomes two characters of the lower-case alphabet, the high half first |
| `Hashing.PreimageDeterminesCompletion` | src/db/service_jobs.rs:30-48 | for one job, ten-digit times and equal payload lengths, preimages are equal if and only if payload, time and delta are |
| `Hashing.PreimageDeterminesDelta` | src/db/service_jobs.rs:30-48 | the same down to the delta text the module gave, through its encoding |
| `Hashing.CollisionsShiftLengths` | src/db/service_jobs.rs:30-48 | among equal preimages, equal payload lengths are exactly what rules out a collision |
| `Hashing.CollisionWithoutEqualLengths` | src/db/service_jobs.rs:33-45 | for every job, two different completions with one preimage |
| `Hashing.OfferPayloadDecides` | src/db/service_jobs.rs:17-28 | jobs differing at most in the offer payload have equal preimages if and only if the payloads are equal |
| `Jobs.JobTable.HandleCreateJobRequest` | src/p2p/reqres/create_job.rs:16-120 | when each of the five answers is given; a row exists exactly when the answer is Ok, with the found snapshot's payload and every column as requested or empty |
| `Jobs.JobTable.ProviderCompleteJob` | src/db/service_jobs/provider/complete.rs:27-146 | when each refusal is given; otherwise delta, public payload and time are stored as given, the private payload as given or kept, and every other column stays |
| `Jobs.JobTable.ProviderConfirmJob` | src/db/service_jobs/provider/confirm.rs:39-141 | when each refusal is given, against the digest of the row's fields with the delta encoded; otherwise signature, time and cleared error |
| `Jobs.JobTable.HandleConfirmJobRequest` | src/p2p/reqres/confirm_job.rs:18-121 | when each of the eight answers is sent, read off the row; a wrong hash or signature is recorded, other refusals write nothing, and the unreachable arms are not reached |
| `Jobs.JobTable.SetJobConfirmationError` | src/db/service_jobs/set_confirmation_error.rs:10-71 | records the error unless the row is missing or confirmed |
| `Jobs.JobTable.ConsumerCompleteJob` | src/db/service_jobs/consumer/complete.rs:30-144 | when each refusal is given; otherwise the delta is stored encoded, hash and signature are over the digest of the row's fields, and the patched record is the stored row apart from hash and signature |
| `Jobs.JobTable.ConsumerConfirmJob` | src/db/service_jobs/consumer/confirm.rs:16-83 | marks a signed unconfirmed row once and clears its error |
| `Jobs.JobTable.HandleConfirmJobResponse` | src/p2p/job_confirmation_scheduler.rs:86-179 | the row after each answer; AlreadyConfirmed changes nothing; the unreachable arms are not reached |
| `Jobs.JobTable.FailJob` | src/db/service_jobs/fail.rs:13-99 | when each refusal is given; otherwise reason, class, private payload and local time are stored and every other column stays |
| `Jobs.JobTable.SpawnConfirmations` | src/p2p/job_confirmation_scheduler.rs:38-58 | one task for exactly the signed, unconfirmed jobs of reachable providers, with their stored hash and signature |
| `Jobs.JobsAreReportedToTheirConsumer` | src/p2p/reqres/get_job.rs:15-44 | a job is reported to its consumer with payload, delta and both times, and to nobody else |
| `Protocol.ConfirmRequestEffect` | src/db/service_jobs/provider/confirm.rs:56-140 | Ok is answered exactly when the row becomes confirmed, from unconfirmed, under the request's hash and signature; no other row moves |
| `Protocol.StrangersChangeNothing` | src/db/service_jobs/provider/confirm.rs:56-60 | a peer that is not the job's consumer is told there is no such job, and nothing is written |
| `Protocol.StepKeepsSafe` | src/p2p/job_confirmation_scheduler.rs:61-187 | every step of provider, consumer, network or task keeps the safety invariant and only advances rows |
| `Protocol.AlwaysSafe` | src/p2p/job_confirmation_scheduler.rs:61-187 | the invariant holds in every reachable state, with any number of concurrent tasks and lost answers |
| `Protocol.ConfirmationIsMutual` | src/p2p/reqres/confirm_job.rs:30-47 | a job confirmed on the consumer is confirmed on the provider, same hash, verifying signature; the provider says Ok at most once per job |
| `Protocol.RunsAdvance` | src/db/service_jobs/provider/complete.rs:77-135 | nothing later changes a completed provider row's hashed fields, undoes a confirmation, or alters a failed or signed consumer row |
| `Protocol.RowsHaveOneState` | src/db/service_jobs/consumer/complete.rs:49-128 | a consumer row is always exactly one of open, failed and signed, a signed row's hash is that of its own fields, and confirmed rows on either side carry no error |
| `Protocol.OnlyConsumersGuardFailure` | src/db/service_jobs/fail.rs:58-93 | failing succeeds on the consumer exactly for open jobs, on the provider exactly for jobs not failed yet |
| `Protocol.DeliveredAnswers` | src/p2p/reqres/confirm_job.rs:18-121 | in every history, a delivered confirm request is answered by what the provider's row says at that moment, each answer exactly in its case, and the row becomes confirmed exactly with an Ok |
| `Protocol.RowsComeFromRequests` | src/p2p/reqres/create_job.rs:27-94 | in every history each provider row carries what one accepted create request named |
| `Protocol.BillsComeFromCompletions` | src/db/service_jobs/provider/complete.rs:98-135 | in every history a completed provider row carries delta, payload and time of one completion by the module for that job |
| `Protocol.SignaturesComeFromCompletions` | src/db/service_jobs/consumer/complete.rs:72-128 | in every history a signed consumer row carries payload, time and encoded delta of one completion by the consumer for that job |
| `Ledger.CopyingRunsAgree` | src/p2p/reqres/get_job.rs:15-44 | when the consumer copies reported values, signed jobs agree on both sides in every reachable state, in all but the offer payload |
| `Ledger.CopyingConfirmsDecided` | src/db/service_jobs/provider/confirm.rs:56-110 | for every undelivered task of every copying history, with an injective digest: it is answered AlreadyConfirmed or AlreadyFailed by the provider's row, else Ok if and only if both sides stored one offer payload and HashMismatch with the provider's hash if and only if not |
| `Ledger.JobsHaveOneOrigin` | src/p2p/reqres/create_job.rs:57-65 | if each found offer names a row with its payload, both sides agree on everything fixed at creation, the offer payload included, for every job and in every reachable state |
| `Ledger.ConfirmedJobsAreBilledAlike` | src/db/service_jobs/provider/confirm.rs:74-96 | in every history, the consumer copying or not: a provider-confirmed job has one preimage on both sides, and with ten-digit times and payloads of one length both sides have the same payload, time and delta |
| `Ledger.HonestConfirmsSucceed` | src/p2p/reqres/confirm_job.rs:30-47 | in every honest history a confirm request is answered AlreadyConfirmed, AlreadyFailed or Ok, exactly by the row's state, whatever the digest, and an Ok confirms the row |
| `Ledger.ConfirmationsPartition` | src/p2p/job_confirmation_scheduler.rs:90-136 | provider-confirmed jobs are the disjoint union of consumer-confirmed ones and those with an unprocessed Ok |
| `Ledger.LostOksAreFinal` | src/p2p/job_confirmation_scheduler.rs:128-136 | once the task that was to receive a job's Ok gave up, no continuation confirms the job on the consumer |
| `Ledger.LedgerBalances` | src/db/service_jobs/consumer/confirm.rs:48-74 | in every copying history, whatever the offer payloads, the provider's confirmed total is the consumer's plus that of the unprocessed Oks |
| `Ledger.CountedDeltasWereBilled` | src/db/service_jobs/provider/complete.rs:98-135 | in every history a provider-confirmed job counts with the delta of one completion by the module |
| `Marketplace.MarketsAreAnchored` | src/p2p/reqres/create_job.rs:27-68 | over one history of modules, gossip, restarts and jobs whose requests are answered from the registry of that moment: if each own pair is always provided with one payload, offers stay anchored and every found offer names a row with its payload |
| `Marketplace.MarketConfirmsSucceed` | src/db/service_jobs/provider/confirm.rs:56-110 | in such a history with a copying consumer every confirm request is answered AlreadyConfirmed, AlreadyFailed or Ok, exactly by the row's state |
| `Scenarios.SecondPayloadMismatches` | src/p2p/reqres/confirm_job.rs:60-71 | a copying history whose confirm request is answered with a hash mismatch |
| `Scenarios.ConfirmedJobsCanFail` | src/db/service_jobs/fail.rs:58-93 | an honest history ending with a provider row both confirmed and failed |
| `Scenarios.OksCanBeLost` | src/p2p/job_confirmation_scheduler.rs:180-186 | an honest history after which a provider-confirmed job is never confirmed on the consumer |
| `GossipScenarios.ChangesCanShareASecond` | src/p2p/proto/gossipsub.rs:17-30 | a provider's history with at most one heartbeat a second that violates the condition for convergence |
| `GossipScenarios.HeartbeatsCanShareASecond` | src/p2p.rs:155-163 | a provider's history with changes in distinct seconds that violates it through two heartbeats in one second |
| `GossipScenarios.WithdrawnOfferStays` | src/p2p/gossipsub/heartbeat/send.rs:11-25 | a provider that ends without offers and a receiver that ends with one of its offers active |
| `GossipScenarios.SecondPayloadIsNotAnchored` | src/rpc/procedure/provider/provide.rs:104-120 | for any pair and two payloads, a history after which the live offer names the row of the first |
| `GossipScenarios.OwnOffersGoUnseen` | src/rpc/procedure/provider/provide.rs:93-141 | an own offer after which an earlier query without filters is wrong |
| `Framing.PrefixRoundTrip` | src/util/cbor.rs:13-27 | four big-endian bytes give back the length modulo 2^32 |
| `Framing.PrefixBytes` | src/util/cbor.rs:13 | the four bytes are those of the length modulo 2^32, most significant first |
| `Framing.FrameRoundTrip` | src/util/cbor.rs:4-45 | reading a frame consumes exactly its bytes if and only if the body is below 2^32 bytes, and then yields the body's decoding |
| `Framing.DrainFrames` | src/rpc/connection.rs:469-511 | any list of frames is read back in order, undecodable bodies in their places, before whatever follows |
| `Framing.TruncatedTail` | src/util/cbor.rs:24-34 | a stream cut inside a length just ends; cut inside a body it yields one error and ends |
| `Framing.FramesInjective` | src/util/cbor.rs:4-45 | different lists of bodies have different encodings |
| `Framing.WriteCbor` | src/util/cbor.rs:4-16 | appends exactly one frame, or nothing when encoding fails |
| `Framing.OpenOutboundStream` | src/p2p/stream.rs:44-55 | the second writer appends the same frame |
| `Framing.ReadCbor` | src/util/cbor.rs:18-45 | the result and the bytes consumed are those of the frame specification |
| `Framing.ReadConnection` | src/rpc/connection.rs:469-511 | the loop reads on after an error and stops only at the end of the stream |
| `HandOff.FutureConnections.Open` | src/rpc/procedure/consumer/open_job_connection.rs:109-124 | takes a fresh id and puts the stream under it, overwriting none |
| `HandOff.FutureConnections.TakeId` | src/p2p/stream/job_connection.rs:126-132 | takes a fresh id; the stream is inserted later |
| `HandOff.FutureConnections.Insert` | src/p2p/stream/job_connection.rs:141-145 | the later insert overwrites no waiting stream |
| `HandOff.FutureConnections.HandleYamuxStream` | src/rpc/connection.rs:369-418 | an arrival gets the stream waiting under its id and removes it, or nothing |
| `HandOff.AlwaysSound` | src/p2p/stream/job_connection.rs:126-145 | over all interleavings an id is in one table only and a stream under one id only, hence joined at most once |
| `HandOff.AlwaysAccounted` | src/rpc/connection.rs:381-418 | ids handed out are streams held, waiting and joined, added up |
| `HandOff.WaitingStreamsSurvive` | src/rpc/connection.rs:381-406 | a stream that waits under an id at any time later still waits there or was joined under it |

## Left out

- libp2p, gossipsub, request-response, Yamux, tokio and locks: messages may be lost, reordered or repeated, and each database function is one atomic step.
- SQLite itself: tables are maps with the constraints of the migrations; `ON CONFLICT` is an update of a conflicting row.
- Integer widths of counters and row ids (module ids, connection ids, rowids): unbounded here.
- Local-clock columns of `peers` and of job rows that nothing reads back.
- SHA-256, key decoding, signatures, CBOR and 256-bit number parsing: arbitrary functions (`Jobs.Env`, `decode`, `encode`); `Ledger.IdealSignature` says what an honest signer's key satisfies.
- Liveness: a wake-up can be missed and a lost Ok leaves the consumer unconfirmed, so nothing is claimed to happen eventually.
- Cancellation of a partial frame read inside `select!`: reading a frame is atomic here.
- Connections that panic and skip their cleanup, and events dropped by a lagging broadcast receiver.
- `query_jobs` paging, the job and provider event filters, subscription bookkeeping, configuration, logging and DTO conversions: no result here depends on them, as they neither write the modelled tables nor choose among the modelled messages.
- Self-dialling and calls that name a foreign provider: consumer and provider are distinct peers, and a provider's job ids are fresh.
- Job rows are keyed by (provider, job id) rather than rowid, and carry the snapshot columns their query joins in; `EndToEnd.ReferencedRowsNeverChange` is what makes that the same.
- Job arguments, and the texts of recorded confirmation errors, which are a datatype here.
- Protocol: one consumer and one provider, with other peers only as strangers asking to confirm; its transitions are the specification functions that the methods of `Jobs.JobTable` are proved against.
- `HandOff`: streams are ids, and copying bytes between two joined streams is not modelled.
- Registry.Server.HandleProvide: assumes the node's own rows to be active, which `EndToEnd.OwnRowsStayActive` shows for every history of a node that does not receive its own heartbeats; otherwise `offers::upsert` could fail, which the source answers with a panic.
- Jobs.JobTable.CreateJob: assumes a provider's job id to be new in the table, as rows are keyed by it; the source would insert a second row.
- A provider's wall clock that steps back: a provider's history is ordered by time. A node that restarts begins with an empty registry and the time of its start.
