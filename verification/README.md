# Rate authority, egress gateway and copy-trading core: a Dafny model

This project models the parts of the system in which an error would cost money or get the account
banned, and proves what they promise for every input, every run and every interleaving.

* **The host rate authority** is the PL/pgSQL state machine that hands out permits to call Binance: a
  fencing lease, all-or-nothing reservation over several rate windows, single-use permits tied to
  single-use nonces, an idempotent outcome journal, and header reconciliation with authority blocks.
  `RateTables` holds the rows, `RateAuthority` gives each transaction as a function from the state it
  finds to the state it commits, `RateDatabase` is the step-by-step database object proved equal to
  those functions. `ReservationLaws`, `AuthorityAnswers` and `HeaderNames` say what those functions mean over
  the rows and texts themselves: when each answer is given, and what it writes. `FencingLaws`, `LedgerLaws`,
  `PermitLaws`, `PolicyLaws`, `JournalLaws`, `ReadingLaws` and `BlockLaws` give one invariant each,
  `AuthorityRuns` combines them, and `AuthorityTheorems` states what holds over whole runs. `EpochGap` exhibits
  one run that reaches the epoch gap described below.
* **The send pipeline** consumes a permit, transports at most once, journals the outcome with three
  tries and latches shut when they fail. `EgressHost` has any number of gateways acting in small steps
  beside arbitrary database users, `EgressAnswers` spells out what each step does, `EgressLaws` is the host's
  invariant, `EgressTheorems` has the end-to-end results and `OutcomeLaws` what recorded outcomes say about the
  wire. `DenialGap` is one run that reaches the NOT_SENT gap described below, and `GatewayService` the gateway
  object whose calls are proved to be runs of that host.
* **Copy trading**: `Sizing` (exact sizing of an increase under exchange rules and margin caps) with
  `SizingLaws` (what that means in money), `SupersededEntries` (the bounded paging loop that cancels pending
  entries) with `SupersededAnswers` (what each receipt leads to and what true means), `SupersededFills` (how the
  fills it credits add up, call after call) and `LeaderSlots` (stable slot assignment).
* **Evidence and retention**: `EventSanitizer` and `EventJournal` (the hash-chained, deduplicating
  user-event journal with restart and crashes) with `EventAnswers` (which names, lines, documents and files are
  taken), and `Retention` (the deletion planner).

## Modelling decisions

* A transaction is one step. Acquire, reserve and consume lock the `fencing_state` row and the journal
  locks the permit row, so steps are serial. Clock readings are arguments and are never assumed
  monotone; a reservation has two, one for the lease check and one for itself. The header trigger reads the
  clock separately for the delay, the fallback and the window filter; the model gives it one reading.
* A constraint violation is the reply `Aborted` with the state unchanged. Quantities and identifiers are
  unbounded, times are microseconds, hashes are opaque strings. No result assumes that a hash is injective;
  `FinalDigestDeterminesFile` says which weakness of the hash two differing files would exhibit.
* Cost vectors are stored in the order the reservation scans them. If several windows of one key are open
  at once the model charges the one with the lowest identity. The SQL lookup has no `ORDER BY` and could
  return any of them, so for overlapping windows of one key that choice is an assumption of every result about
  reservations; `FindWindowUnique` shows that there is no choice to make when they do not overlap.
* A header observation without an HTTP status satisfies neither `NOT IN (418, 429)` nor `= 418` in SQL
  and so takes the 429 branch; the model does the same.
* A message that names no epoch or no canonical hash is not compared on it, since SQL compares it as unknown.
* `consume_permit_v2` compares the caller's epoch with the current one only, whereas the journal compares
  with the permit's. A permit reserved before a takeover can therefore be spent under the new epoch, and its
  outcome is then refused. `JournalableIffOwnEpoch` states exactly when an outcome can be journaled,
  `OtherEpochEndsLatched` that such a gateway ends up latched, and `SpentUnderLaterEpoch` reaches the case from
  the migrated database.
* A transport that itself raises `GatewayDenied` is reported as NOT_SENT although the request may have gone
  out; `NotSentIsFinal` states exactly that exception over whole runs, and `NotSentButOnWire` reaches it.
* Outcome identifiers are drawn fresh: an event that would reuse one does not happen.
* Schema checks, caller lists, catalog and hash derivations of a send request are boolean inputs.
* Reals stand for Decimals. The exact arithmetic makes the late refusals of the allocator unreachable;
  Decimal's rounding to 28 digits is not modelled.
* Decisions and positions of the copy-trading repository are rows of append-only tables, and the current one is the
  latest by time and then by digest. A call writes all its rows under one time. So a clock that is not past a
  stored decision can leave an entry pending although the call answers true (`StaleClockLeavesPending`), and the
  second of two fills credited in one call can be hidden behind the first (`SecondFillCanBeHidden`).
  `TrueMeansNonePending` and `FillsAddUp` give the exact conditions; the results that need decisions to take say
  so by `Fresh`, which a forward clock and differing digests ensure.
* A written evidence line reads back as the value written.

## Model

| member | source | states |
|---|---|---|
| RateDatabase.Database.AcquireFencingLease | migrations/host_control/versions/0003_fencing_lease.py:57-145 | updating the fencing row and appending the event is exactly the lease transition, for every epoch, holder, time to live and clock |
| FencingLaws.LeaseGrantedIff | migrations/host_control/versions/0003_fencing_lease.py:78-145 | a lease is granted if and only if the request is well formed, names the current epoch and meets no other holder's live lease |
| AuthorityAnswers.AcquireAnswers | migrations/host_control/versions/0003_fencing_lease.py:76-143 | each answer with exactly its circumstances: malformed, stale epoch, held by another, renewed, acquired under the next epoch, each grant expiring its whole time to live from now |
| AuthorityAnswers.AcquireWrites | migrations/host_control/versions/0003_fencing_lease.py:84-143 | what each answer leaves: the new fencing row and one log row, a log row alone, or nothing |
| FencingLaws.AcquireKeepsFencing | migrations/host_control/versions/0003_fencing_lease.py:84-143 | every acquire keeps the log ordered, owned by one instance per epoch, free of overlapping tenures and in agreement with the fencing row |
| AuthorityTheorems.LeaseLog | migrations/host_control/versions/0003_fencing_lease.py:84-143 | over every run epochs grow, each is opened by exactly one acquisition and renewed only by its owner, and each tenure starts no earlier than the last recorded expiry before it |
| AuthorityTheorems.GrantNeedsCurrentEpoch | migrations/host_control/versions/0004_multiclass_policy.py:339-347 | a reserve or consume is granted only when it carries the current epoch and the lease has not run out |
| AuthorityTheorems.StaleEpochNeverGranted | migrations/host_control/versions/0006_consume_v2.py:43-51 | once a lease of some epoch has been granted, no later reserve or consume carrying an older epoch is granted in the whole run |
| ReservationLaws.PolicyDecides | migrations/host_control/versions/0004_multiclass_policy.py:177-207 | what the policy row of authority, endpoint and catalog allows, refusal by refusal: signed, contracted and in force, caller listed, class listed, a nonempty vector |
| ReservationLaws.ItemAnswers | migrations/host_control/versions/0004_multiclass_policy.py:214-244 | an item passes if and only if the first open window of its key is not blocked and has room for the cost over both counters under limit and ceiling; otherwise the reason is exactly the one that applies |
| ReservationLaws.VectorPassesIff | migrations/host_control/versions/0004_multiclass_policy.py:209-245 | a vector passes if and only if every item does |
| ReservationLaws.FirstFailureDecides | migrations/host_control/versions/0004_multiclass_policy.py:209-245 | otherwise the first item that does not pass gives the reason |
| ReservationLaws.ReserveGrantedIff | migrations/host_control/versions/0004_multiclass_policy.py:124-302 | for every state and every request under a new key: granted if and only if the lease runs, the expiry lies within five seconds, the authority is not blocked, the policy in force lists caller and class, every item of its vector passes, no window serves two items, and nonce and permit are new |
| ReservationLaws.ReserveRefusals | migrations/host_control/versions/0004_multiclass_policy.py:124-199 | the refusals before the items, each with exactly its cause |
| ReservationLaws.ItemRefusals | migrations/host_control/versions/0004_multiclass_policy.py:209-245 | past the policy, the first failing item refuses the reservation for its own reason and nothing is written |
| ReservationLaws.IdentityRefusals | migrations/host_control/versions/0004_multiclass_policy.py:247-298 | past the items, a used nonce is the replay refusal, a used permit identity or a window named twice aborts, and nothing else is in the way |
| ReservationLaws.RepeatGrantedIff | migrations/host_control/versions/0004_multiclass_policy.py:145-175 | a known key is granted again if and only if the gates are open and the stored permit is reserved, unexpired and equal in every bound field |
| ReservationLaws.GrantWrites | migrations/host_control/versions/0004_multiclass_policy.py:247-302 | the permit, nonce and key rows of a grant field by field, and what it leaves alone |
| PolicyLaws.EveryPermitIsBacked | migrations/host_control/versions/0004_multiclass_policy.py:177-298 | in every reachable state each permit was reserved while a signed policy in force listed its caller and class, and was charged exactly that policy's vector |
| RateAuthority.FindWindow | migrations/host_control/versions/0004_multiclass_policy.py:221-231 | the lookup returns an open window of the key, or none exactly when none is open |
| StepShapes.FindWindowUnique | migrations/host_control/versions/0001_host_rate_control.py:29-46 | without overlapping windows of one key the lookup has no choice to make |
| StepShapes.PlanSound | migrations/host_control/versions/0004_multiclass_policy.py:209-245 | every item that passes the check names its open window, starts at the higher of used and observed, and ends within the hard limit and its class ceiling |
| RateDatabase.SecondPassAgrees | migrations/host_control/versions/0004_multiclass_policy.py:275-298 | reading the windows already changed by earlier items, the apply pass finds the window and level the check pass found, unless an earlier item took that window |
| RateDatabase.Database.CheckVector | migrations/host_control/versions/0004_multiclass_policy.py:209-245 | the check loop denies with the reason of the first failing item, or passes exactly when every item passes |
| RateDatabase.Database.ApplyVector | migrations/host_control/versions/0004_multiclass_policy.py:275-298 | the apply loop succeeds exactly when no window is named twice, and then equals one simultaneous charge of all windows with its ledger rows |
| RateDatabase.Database.ReserveNewKey | migrations/host_control/versions/0004_multiclass_policy.py:176-302 | select, check, nonce, permit and apply together equal one atomic transition |
| RateDatabase.Database.ReservePermitV2 | migrations/host_control/versions/0004_multiclass_policy.py:307-358 | the whole reservation, with its lease check, equals the reserve transition |
| StepShapes.ReserveAllOrNothing | migrations/host_control/versions/0004_multiclass_policy.py:124-298 | a reservation either writes one whole grant or leaves the entire state unchanged |
| AuthorityTheorems.GrantIsAtomicCharge | migrations/host_control/versions/0004_multiclass_policy.py:275-302 | a grant moves the window that serves each item of the policy's vector from the higher counter to that plus cost within both ceilings, writes the matching row, and moves no other window |
| AuthorityTheorems.RepeatedWindowAborts | migrations/host_control/versions/0001_host_rate_control.py:89-99 | a vector two of whose items one window serves writes nothing, and aborts once it passes every other gate |
| LedgerLaws.VectorKeepsLedger | migrations/host_control/versions/0004_multiclass_policy.py:275-298 | charging a vector of distinct windows keeps used equal to the last row's after and every row chained |
| LedgerLaws.GrantedCovered | migrations/host_control/versions/0004_multiclass_policy.py:288-297 | the costs granted against a window add up to no more than its last recorded after |
| AuthorityTheorems.NoWindowOverspent | migrations/host_control/versions/0004_multiclass_policy.py:209-298 | in every reachable state granted costs are at most used, used is the last row's after, and used is at most the hard limit |
| AuthorityTheorems.LedgerNeverRefunds | migrations/host_control/versions/0004_multiclass_policy.py:288-297 | every ledger row starts at or above the previous row of its window and ends at before plus cost within the limit |
| AuthorityTheorems.CountersNeverFall | migrations/host_control/versions/0006_consume_v2.py:65-73 | over a run neither counter of a window ever falls: no expiry, refusal or unsent outcome refunds anything |
| PermitLaws.ReuseOfRequestKey | migrations/host_control/versions/0004_multiclass_policy.py:145-175 | a known request key never writes, and is granted again with the stored permit if and only if that permit is reserved, unexpired and identically bound and the gates are open |
| AuthorityTheorems.RepeatedReserve | migrations/host_control/versions/0004_multiclass_policy.py:124-175 | repeating a granted request after any further run charges nothing and returns the same permit exactly while it is live and the gates are open |
| RateDatabase.Database.ConsumePermitV2 | migrations/host_control/versions/0006_consume_v2.py:19-131 | the row updates equal the consume transition, early returns included |
| PermitLaws.ConsumeMoves | migrations/host_control/versions/0006_consume_v2.py:60-126 | a consume leaves everything, expires permit and nonce together, or consumes both together |
| PermitLaws.ConsumeGrantedIff | migrations/host_control/versions/0006_consume_v2.py:75-122 | a consume is granted if and only if the lease is current, the permit reserved and unexpired and the envelope identical; the nonce refusal is unreachable |
| PermitLaws.ConsumeGrantedMeans | migrations/host_control/versions/0006_consume_v2.py:113-131 | a granted consume marks permit and nonce consumed by that gateway, sets a deadline within 50 ms and the expiry, and touches no window |
| AuthorityAnswers.ConsumeAnswers | migrations/host_control/versions/0006_consume_v2.py:43-73 | the refusals for lease, unknown, consumed and expired permits, each with exactly its circumstances |
| AuthorityAnswers.ConsumeMismatches | migrations/host_control/versions/0006_consume_v2.py:74-111 | for a live permit, which difference between reserved and presented envelope gives which refusal, in order |
| AuthorityAnswers.DeadlineIs | migrations/host_control/versions/0006_consume_v2.py:127-129 | the deadline is fifty milliseconds off or the expiry, whichever comes first |
| PermitLaws.StepKeepsPermits | migrations/host_control/versions/0001_host_rate_control.py:48-87 | every step keeps each permit coupled to its own nonce row, nonces unshared and the key index exact |
| AuthorityTheorems.PermitMatchesNonce | migrations/host_control/versions/0006_consume_v2.py:107-126 | in every reachable state a permit and its nonce agree on state, expiry and payload hash |
| AuthorityTheorems.ConsumedAtMostOnce | migrations/host_control/versions/0006_consume_v2.py:60-126 | two granted consumes of one run concern different permits and different nonces |
| PermitLaws.IntegrityCountsZero | src/ai_quant/binance_egress/database_measurements.py:105-113 | the duplicate-nonce and consumed-without-gateway counts are zero |
| RateDatabase.Database.RecordGatewayMessage | migrations/host_control/versions/0005_gateway_journal.py:74-198 | receipt, outcome and observation rows with the header trigger and rollback equal the record transition |
| JournalLaws.RecordAllOrNothing | migrations/host_control/versions/0005_gateway_journal.py:112-198 | anything but a first recording leaves the whole state unchanged |
| JournalLaws.RecordAppends | migrations/host_control/versions/0005_gateway_journal.py:170-195 | a first recording appends exactly its own outcome or observation row |
| AuthorityAnswers.RecordRefusals | migrations/host_control/versions/0005_gateway_journal.py:91-168 | malformed, repeated, replayed, mismatched and stale messages, each with exactly its circumstances |
| AuthorityAnswers.OutcomeAnswers | migrations/host_control/versions/0005_gateway_journal.py:170-198 | a new outcome that belongs to its permit is recorded if and only if it is one of the three codes and the permit has none yet |
| AuthorityAnswers.ObservationAnswers | migrations/host_control/versions/0005_gateway_journal.py:184-198 | a new observation that belongs is recorded if and only if it can be filed and, for a header, every figure the trigger reads can be read |
| AuthorityAnswers.FiledUnderIs | migrations/host_control/versions/0005_gateway_journal.py:190 | an observation is filed under its own authority, or else its permit's |
| AuthorityTheorems.RedeliveryOverRuns | migrations/host_control/versions/0005_gateway_journal.py:112-124 | a message recorded once is a no-op whenever it is delivered again later in the run |
| AuthorityTheorems.OneOutcomePerPermit | migrations/host_control/versions/0005_gateway_journal.py:27-46 | each permit has at most one outcome, from the gateway that consumed it |
| JournalLaws.FirstOutcomeIsRecorded | migrations/host_control/versions/0005_gateway_journal.py:132-184 | the first matching outcome naming the permit's own epoch is recorded whatever lease is current |
| AuthorityTheorems.OutcomeSurvivesTakeovers | migrations/host_control/versions/0005_gateway_journal.py:132-195 | after a granted consume and any further run, takeovers included, that outcome is still recorded |
| EpochGap.SpentUnderLaterEpoch | migrations/host_control/versions/0006_consume_v2.py:43-51 | a run from the migrated database in which a permit is spent under a later epoch and its outcome is refused when it names that epoch |
| HeaderNames.IntervalIsSpelled | migrations/host_control/versions/0007_header_reconciliation.py:34-39 | a header name is read as an interval if and only if its text is a stem, a whole run of digits and s, m, h or d, and the interval is SECOND_, MINUTE_, HOUR_ or DAY_ with those digits |
| HeaderNames.ReadableIff | migrations/host_control/versions/0007_header_reconciliation.py:29-40 | a header group can be read if and only if every entry whose text names an interval is an integer or null |
| RateDatabase.Database.ObserveGroup | migrations/host_control/versions/0007_header_reconciliation.py:29-49 | the loop over header entries raises each charged window to the maximum of its reading and the matching entries |
| RateDatabase.Database.ReconcileHeader | migrations/host_control/versions/0007_header_reconciliation.py:14-133 | both loops and the block upsert equal the reconciliation of the transition function, or fail closed |
| ReadingLaws.RaisedByIsMax | migrations/host_control/versions/0007_header_reconciliation.py:29-70 | raising entry by entry gives the maximum of the start value and all readings whose header text names the interval |
| AuthorityTheorems.ReadingsOverRuns | migrations/host_control/versions/0007_header_reconciliation.py:29-70 | in every reachable state a window's observed value is the maximum of 0 and all values that recorded headers, read by their text, report through permits charged to it |
| ReadingLaws.ReadingIsOrderIndependent | migrations/host_control/versions/0007_header_reconciliation.py:41-48 | two histories reporting the same values, in any order and repetition, give the same reading |
| ReadingLaws.GrantStartsAboveReadings | migrations/host_control/versions/0004_multiclass_policy.py:238-244 | the next grant starts no lower than anything reported for its window |
| BlockLaws.BackoffBounds | migrations/host_control/versions/0007_header_reconciliation.py:90-108 | the computed wait lies between 60 and 900 seconds and never shrinks with the count |
| BlockLaws.BlockLastsLongEnough | migrations/host_control/versions/0007_header_reconciliation.py:90-128 | a finite 429 block lasts at least the retry delay and 250 ms past every open window of the authority |
| BlockLaws.BackoffBlocks | migrations/host_control/versions/0007_header_reconciliation.py:72-128 | a recorded 429 blocks its authority from that moment |
| AuthorityAnswers.BackoffIsDefault | migrations/host_control/versions/0007_header_reconciliation.py:95-97 | the default wait is 60, 120, 240, 480 and then 900 seconds |
| AuthorityAnswers.BlocksOtherwise | migrations/host_control/versions/0007_header_reconciliation.py:72-88 | a 418 blocks its authority for good, and any other status but 429 changes no block |
| AuthorityAnswers.BlocksAfter429 | migrations/host_control/versions/0007_header_reconciliation.py:90-128 | a 429 blocks up to exactly the latest of delay, open windows plus 250 ms and the block there was, keeps an indefinite block, and counts consecutive waits without a given delay |
| AuthorityAnswers.HeaderBlocks | migrations/host_control/versions/0007_header_reconciliation.py:72-129 | a recorded header leaves exactly those blocks |
| AuthorityAnswers.OnlyHeadersReconcile | migrations/host_control/versions/0007_header_reconciliation.py:26-28 | no other message changes a block or a window |
| AuthorityTheorems.BlocksNeverWeaken | migrations/host_control/versions/0007_header_reconciliation.py:72-128 | over a run no block is lifted or brought forward and an indefinite one stays indefinite |
| AuthorityTheorems.NothingGrantedAfter418 | migrations/host_control/versions/0004_multiclass_policy.py:135-143 | after a recorded 418 no later reservation for that authority is granted or changes anything |
| AuthorityRuns.StepKeepsInv | migrations/host_control/versions/0004_multiclass_policy.py:80-302 | every step of every kind keeps fencing, ledger, permit, journal and reading invariants together |
| AuthorityRuns.RunEvolves | migrations/host_control/versions/0001_host_rate_control.py:116-130 | between any two moments of a run logs only grow, permits leave the reserved state at most once and bound fields never change |
| AuthorityAnswers.OpenWindowAnswers | migrations/host_control/versions/0001_host_rate_control.py:29-46 | a window is added, empty, if and only if its times and limit make sense and its start is new for its key |
| RateDatabase.Database.Perform | migrations/host_control/versions/0004_multiclass_policy.py:307-358 | each call on the database object is the step of the state machine and keeps the ledger keys |
| EgressLaws.EventKeeps | src/ai_quant/binance_egress/gateway.py:224-443 | every event of every gateway or database user keeps wire, gateways and database consistent |
| EgressAnswers.AdmitsIff | src/ai_quant/binance_egress/gateway.py:491-569 | a message is admitted if and only if the latch is down, every check on it holds, its binding equals its request and both are in time |
| EgressAnswers.ConsumeForIs | src/ai_quant/binance_egress/gateway.py:571-603 | what is presented to be consumed: the request's own figures with the binding's permit, capability and epoch |
| EgressAnswers.EchoAcceptedIff | src/ai_quant/binance_egress/gateway.py:445-489 | the allocator's answer is accepted if and only if the trusted service gave it and a granted deadline lies inside both expiries |
| EgressAnswers.SubmitRefuses | src/ai_quant/binance_egress/gateway.py:238-263 | a gateway that is busy, latched or not satisfied with the message, or whose request is lost, changes nothing |
| EgressAnswers.SubmitAnswers | src/ai_quant/binance_egress/gateway.py:253-345 | an admitted request consumes its permit; the gateway becomes ready on an accepted grant, reports NOT_SENT on a grant it does not accept, and is done otherwise |
| EgressAnswers.DocumentIs | src/ai_quant/binance_egress/gateway.py:624-651 | an outcome document names its gateway, permit, epoch, canonical hash and outcome |
| EgressAnswers.TransmitAnswers | src/ai_quant/binance_egress/gateway.py:346-417 | a ready call goes out if and only if destination, both times and permit are good, once, and the report says how it ended |
| EgressAnswers.TransmitNeedsReady | src/ai_quant/binance_egress/gateway.py:346-362 | a gateway that is not ready sends nothing |
| EgressAnswers.NotifyAnswers | src/ai_quant/binance_egress/gateway.py:652-663 | a try succeeds if and only if the report was recorded and acknowledged, and the third failure latches |
| EgressTheorems.WireAtMostOnce | src/ai_quant/binance_egress/gateway.py:346-362 | in every run of the host each permit reaches the transport at most once |
| EgressTheorems.WireWithinBudget | src/ai_quant/binance_egress/gateway.py:224-443 | the summed cost of everything ever put on the wire never exceeds a window's hard limit |
| EgressTheorems.WireIsAuthorised | src/ai_quant/binance_egress/gateway.py:732-772 | whatever is on the wire was reserved for exactly that request, field by field, consumed by that gateway, sent before its deadline and to an allowed destination |
| EgressTheorems.OnlyLastSendUnjournaled | src/ai_quant/binance_egress/gateway.py:346-417 | over any lifetime of a gateway, from a restart on, a request it put on the wire without an outcome row in the database is its last, and the gateway is still trying or latched |
| EgressTheorems.LatchedIsInert | src/ai_quant/binance_egress/gateway.py:491-500 | a latched gateway stops before consume and before transport: the host does not change |
| EgressTheorems.LatchHolds | src/ai_quant/binance_egress/gateway.py:652-663 | once latched a gateway never sends again in that lifetime, however the host goes on |
| EgressTheorems.OnlyRestartUnlatches | src/ai_quant/binance_egress/gateway.py:499-500 | no event but its own restart lifts a gateway's latch |
| EgressTheorems.JournalableIffOwnEpoch | src/ai_quant/binance_egress/gateway.py:605-663 | the outcome of a spent permit is journaled if and only if the binding carries the permit's own epoch |
| EgressTheorems.OtherEpochEndsLatched | src/ai_quant/binance_egress/gateway.py:652-663 | a gateway busy with a permit granted under another epoch than its own, by an accepted or a mismatched answer, is never idle again in that lifetime without being latched |
| EgressTheorems.PendingReportIsTrue | src/ai_quant/binance_egress/gateway.py:346-417 | in every run a pending report is SENT_DEFINITE_RESULT if and only if its permit's transport call returned, SENT_UNKNOWN if and only if it raised, and NOT_SENT if and only if the permit is not on the wire or its call raised a denial |
| OutcomeLaws.RecordedOutcomeIsTrue | src/ai_quant/binance_egress/gateway.py:346-417 | in every run in which only gateways report outcomes, every outcome row is right about the wire in the same three ways |
| EgressTheorems.UnsentStaysOffWire | src/ai_quant/binance_egress/gateway.py:362-380 | a call found unsent while it is journaled never reaches the wire, however the run goes on |
| EgressTheorems.NotSentIsFinal | src/ai_quant/binance_egress/gateway.py:362-380 | a request reported NOT_SENT is on the wire at any later moment if and only if its transport call had itself raised a denial |
| DenialGap.NotSentButOnWire | src/ai_quant/binance_egress/gateway.py:349-380 | a run from the initial host that ends with a NOT_SENT report for a permit on the wire |
| EgressTheorems.EnvironmentsAreSeparate | src/ai_quant/binance_egress/gateway.py:720-729 | testnet requests go only to testnet hosts and all others only to production hosts |
| EgressAnswers.DestinationsAre | src/ai_quant/binance_egress/gateway.py:720-729 | the six allowed combinations of environment, authority, transport, scheme and host |
| GatewayService.GatewaySendApplication.Submit | src/ai_quant/binance_egress/gateway.py:224-345 | admission, consume and response check equal the host's submit event and give exactly the expected verdict; a raised latch stops before consume |
| GatewayService.GatewaySendApplication.SendOnce | src/ai_quant/binance_egress/gateway.py:732-772 | the last checks and the single transport call equal the host's transmit event, and the document says how the call ended |
| GatewayService.GatewaySendApplication.SendOutcome | src/ai_quant/binance_egress/gateway.py:605-663 | the three-try loop is a run of notify events, succeeds or raises the latch, and puts nothing on the wire |
| GatewayService.GatewaySendApplication.HandleCall | src/ai_quant/binance_egress/gateway.py:224-443 | a whole call is a run of the host with at most one transport call; its result is definite exactly when the transport returned, unknown exactly when it raised and not sent otherwise, and the recorded row says the same; a request sent without journaling its outcome leaves the latch set |
| Sizing.FloorIsGreatest | src/ai_quant/copy_trading/allocation.py:262-265 | rounding down gives the greatest step multiple that is not above |
| Sizing.CeilIsLeast | src/ai_quant/copy_trading/allocation.py:268-270 | rounding up gives the least step multiple that is not below |
| Sizing.SizedIsGreatest | src/ai_quant/copy_trading/allocation.py:219-240 | the rounded quantity is the greatest step multiple under both the desired quantity and what the margin pays for |
| Sizing.TargetCore | src/ai_quant/copy_trading/allocation.py:219-250 | past the early guards approval depends on the effective minimum alone: the three late refusals never fire |
| Sizing.IgnoredMinimumNeverEntered | src/ai_quant/copy_trading/application.py:634-649 | no request makes the caller record an ignored minimum |
| Sizing.SizingIsExact | src/ai_quant/copy_trading/allocation.py:213-259 | an increase is approved if and only if some step multiple lies between the effective minimum and both bounds, and then the greatest one is taken |
| Sizing.ApprovedIff | src/ai_quant/copy_trading/allocation.py:149-259 | in closed form, for every request: no early guard fires and the minimum rounded up to the step fits both bounds |
| Sizing.AlignedSizing | src/ai_quant/copy_trading/allocation.py:213-259 | with a step-aligned minimum inside the range, approval is exactly margin capacity covering the effective minimum |
| Sizing.UnalignedMinimumIsRefused | src/ai_quant/copy_trading/allocation.py:232-243 | without alignment an affordable minimum can still be refused, and is blamed on a margin cap |
| Sizing.ApprovedQuantity | src/ai_quant/copy_trading/allocation.py:219-259 | an approved quantity is a step multiple within the exchange's minimum and maximum |
| Sizing.ApprovedMargin | src/ai_quant/copy_trading/allocation.py:241-259 | the reported notional, margin, leverage and scale are those of the quantity, and minimum notional is met |
| Sizing.ApprovedIsSound | src/ai_quant/copy_trading/allocation.py:172-211 | an approved margin is positive, within the order cap, fits the shared ceiling and leaves the reserve |
| Sizing.CommittedStaysUnderCeiling | src/ai_quant/copy_trading/allocation.py:172-211 | charging any sequence of approvals keeps committed margin at or below the ceiling |
| SizingLaws.LeverageLaw | src/ai_quant/copy_trading/allocation.py:156-159 | the leverage is the smaller of the policy's and the exchange's |
| SizingLaws.BindingCapIs | src/ai_quant/copy_trading/allocation.py:174-206 | a margin is within the binding cap if and only if it fits the entry allocation, the configured ceiling, the reserve and the order cap |
| SizingLaws.BindingReasonIs | src/ai_quant/copy_trading/allocation.py:192-206 | the reason named is that of the least cap, the earlier of equals |
| SizingLaws.AffordableIff | src/ai_quant/copy_trading/allocation.py:230-233 | a quantity is affordable if and only if the margin it takes is left |
| SizingLaws.EffectiveMinimumIs | src/ai_quant/copy_trading/allocation.py:219-222 | the effective minimum is the exchange's minimum quantity, or the least step multiple that reaches its minimum notional |
| SizingLaws.ApprovedIffAllowed | src/ai_quant/copy_trading/allocation.py:213-259 | past the early guards, approved if and only if some step multiple is at least the minimum, has no more notional than the leader's delta times reference price times multiplier unless it is the minimum, and fits the exchange maximum and the margin left |
| SizingLaws.ApprovedAllowed | src/ai_quant/copy_trading/allocation.py:213-259 | the approved quantity is such a step multiple |
| SizingLaws.ApprovedIsGreatestAllowed | src/ai_quant/copy_trading/allocation.py:213-259 | and the greatest one |
| SizingLaws.ApprovedNotional | src/ai_quant/copy_trading/allocation.py:213-240 | an approved notional is at most the leader's delta times reference price times multiplier, or the quantity is the minimum |
| SizingLaws.NextStepOvershoots | src/ai_quant/copy_trading/allocation.py:213-240 | where exchange maximum and margin leave room for a greater step multiple, its notional exceeds the leader's |
| SizingLaws.ApprovedMarginFits | src/ai_quant/copy_trading/allocation.py:174-211 | an approved margin fits every cap |
| SizingLaws.GreaterMultiplierSizesMore | src/ai_quant/copy_trading/allocation.py:213-240 | a greater follow multiplier never turns an approval down or makes it smaller |
| SizingLaws.EarlyReasons | src/ai_quant/copy_trading/allocation.py:149-250 | every refusal with its cause: the early guards exactly, and otherwise the binding cap |
| SupersededEntries.DecideEffect | src/ai_quant/copy_trading/repository.py:3376-3394 | a recorded decision becomes its signal's latest exactly if its digest is new and it outranks the stored rows, and no other signal's latest changes |
| SupersededEntries.ForwardClockOutranks | src/ai_quant/copy_trading/repository.py:3164-3168 | a time past every stored decision of the signal is enough to outrank them |
| SupersededEntries.DecidingTheFirst | src/ai_quant/copy_trading/repository.py:3163-3185 | deciding the oldest pending entry removes exactly it from the pending query if its row outranks and is not uncertain, and otherwise removes nothing |
| SupersededEntries.PagingIsSinglePass | src/ai_quant/copy_trading/application.py:987-1039 | when decisions take, paged rounds equal one pass over as many of the oldest entries as the rounds can reach |
| SupersededEntries.RoundsAreOnePass | src/ai_quant/copy_trading/application.py:987-1039 | whatever the clock, the rounds settle, in one pass, the entries they visit |
| SupersededEntries.CancelExact | src/ai_quant/copy_trading/application.py:981-1039 | when decisions take, exactly the resolved prefix of the first thousand entries is taken off, and the result is true if and only if fewer than 1,000 were pending and all resolve |
| SupersededEntries.TrueMeansNonePending | src/ai_quant/copy_trading/application.py:987-1039 | when true is returned, no entry of that leader, symbol and side is left pending if and only if every pending entry's decision outranked the stored ones |
| SupersededAnswers.SettleAnswers | src/ai_quant/copy_trading/application.py:999-1034 | what each receipt leads to, by state and reason code: a usable final fill is decided FILLED, an unusable one writes nothing, a confirmed cancellation is decided CANCELLED, anything else UNCERTAIN, and only the first and third settle |
| SupersededAnswers.FillAnswers | src/ai_quant/copy_trading/application.py:1041-1080 | the ledger row of a fill: its quantity, its share of the leader's delta and the resulting position, unless the signal has one already |
| SupersededAnswers.LatestDecisionIs | src/ai_quant/copy_trading/repository.py:3164-3168 | the latest decision of a signal is one of its rows, and none of them comes after it by time and then digest |
| SupersededAnswers.LatestPositionIs | src/ai_quant/copy_trading/repository.py:2947-2956 | the current position is that of the key's last row by time and then digest |
| SupersededAnswers.PendingIs | src/ai_quant/copy_trading/repository.py:3163-3185 | pending are exactly the limit orders of increases on the key whose latest decision is SUBMITTED or UNCERTAIN |
| SupersededAnswers.TrueMeansSettled | src/ai_quant/copy_trading/application.py:987-1039 | whatever the clock, when the call answers true every entry that was pending was answered with a usable FILLED, RECONCILED or terminally PARTIALLY_FILLED receipt, or with REJECTED and the cancellation code |
| SupersededAnswers.TrueMeansNoted | src/ai_quant/copy_trading/application.py:1012-1026 | and the decision table then holds its FILLED or CANCELLED row |
| SupersededFills.StaleClockLeavesPending | src/ai_quant/copy_trading/repository.py:3164-3168 | with a clock behind a stored decision the call answers true and the entry stays pending |
| SupersededFills.FillsAddUp | src/ai_quant/copy_trading/application.py:1041-1080 | over a call the position grows by exactly the fills that show, no other position moves, and it grows by everything credited if and only if every credited row outranks the ledger rows before it |
| SupersededFills.SecondFillCanBeHidden | src/ai_quant/copy_trading/repository.py:2947-2956 | two fills credited in one call share its time, and the second does not show if its digest is the lower one |
| SupersededFills.AttributionBounded | src/ai_quant/copy_trading/ledger.py:62-81 | attributed source is never more than the source deltas of the credited entries |
| SupersededFills.CreditedOnceOverPolls | src/ai_quant/copy_trading/repository.py:3886-3891 | over any sequence of calls a signal is credited at most once and no credit is withdrawn |
| SupersededFills.PollingDrains | src/ai_quant/copy_trading/application.py:1035-1039 | while cancellations resolve and decisions take, each poll takes the thousand oldest entries off |
| SupersededEntries.CopyRuntime.RecordIncreaseFill | src/ai_quant/copy_trading/application.py:1041-1080 | an unusable receipt is refused unchanged; a usable one is credited once and the entry decided |
| SupersededEntries.CopyRuntime.CancelSupersededEntries | src/ai_quant/copy_trading/application.py:981-1039 | the nested bounded loops equal the specified rounds; when decisions take, true means nothing pending and is returned exactly below 1,000 resolving entries |
| LeaderSlots.StableSlotAssignments | src/ai_quant/copy_trading/leader_slots.py:76-111 | the loop over the iterator gives the specified assignment, or the error of the first failing validation |
| LeaderSlots.AcceptedIff | src/ai_quant/copy_trading/leader_slots.py:87-99 | the validations pass if and only if there are as many different named leaders as different slots and no leader holds two of them |
| LeaderSlots.NewcomersFillVacancies | src/ai_quant/copy_trading/leader_slots.py:106-110 | there are exactly as many newcomers as vacated slots: the iterator never runs dry |
| LeaderSlots.AssignmentIsBijection | src/ai_quant/copy_trading/leader_slots.py:87-111 | target slots and ranked leaders correspond one to one |
| LeaderSlots.IncumbentsStay | src/ai_quant/copy_trading/leader_slots.py:100-105 | every reselected incumbent keeps its slot |
| LeaderSlots.NewcomersInRankOrder | src/ai_quant/copy_trading/leader_slots.py:105-110 | of two vacated slots the earlier gets the better ranked newcomer |
| LeaderSlots.RerankingNeverSwaps | src/ai_quant/copy_trading/leader_slots.py:76-85 | an assignment fed back with the same leaders in any order is returned unchanged |
| EventSanitizer.SanitizeCleans | src/ai_quant/binance_egress/testnet_user_stream.py:458-481 | sanitizing leaves no secret name at any depth, leaves clean values alone and is idempotent |
| EventSanitizer.EventIsClean | src/ai_quant/binance_egress/testnet_user_stream.py:354-373 | a sanitized event holds no secret name, account updates included |
| EventAnswers.SecretIff | src/ai_quant/binance_egress/testnet_user_stream.py:463-474 | a name is secret if and only if its lower-case letters and digits spell one of the eight names |
| EventAnswers.OnlyPlainCounts | src/ai_quant/binance_egress/testnet_user_stream.py:463 | only lower-case letters and digits of a name count, in their order |
| EventAnswers.FieldSurvives | src/ai_quant/binance_egress/testnet_user_stream.py:458-476 | a field survives, with its value sanitized, if and only if its name is not secret |
| EventAnswers.EventFieldSurvives | src/ai_quant/binance_egress/testnet_user_stream.py:354-373 | every field of an event but the account survives as it would in any object |
| EventAnswers.AccountIsCut | src/ai_quant/binance_egress/testnet_user_stream.py:356-369 | of an account update only the reason and the list of positions are kept |
| EventJournal.VerifyUserDataEvidence | src/ai_quant/binance_egress/testnet_user_stream.py:382-455 | the verifier loop returns the first fault in line order or the gathered figures |
| EventJournal.AcceptsIffChained | src/ai_quant/binance_egress/testnet_user_stream.py:382-455 | a file is accepted if and only if every record is sound, linked to the one before and unrepeated, and the figures then describe it |
| EventAnswers.MeaningfulIff | src/ai_quant/binance_egress/testnet_user_stream.py:418-436 | the semantic test of a record, field by field |
| EventAnswers.LineAnswers | src/ai_quant/binance_egress/testnet_user_stream.py:400-442 | which fault a line is refused for, each with exactly its circumstances |
| EventAnswers.AcceptedLinesAreGood | src/ai_quant/binance_egress/testnet_user_stream.py:400-442 | every line of an accepted file has a good content, its own digest and the digest of the line before |
| EventJournal.FinalDigestDeterminesFile | src/ai_quant/binance_egress/testnet_user_stream.py:410-442 | for every hash, accepted files with the same final digest are equal, or hold two different records with one digest or a record with the genesis digest |
| EventJournal.ReplacedEvidenceIsRefused | src/ai_quant/binance_egress/testnet_user_stream.py:122-128 | a different evidence file put in place of the recorded one is refused at the next start, unless it exhibits such a weakness |
| EventJournal.UserDataEventJournal.Open | src/ai_quant/binance_egress/testnet_user_stream.py:44-134 | loading equals the specified start, or refuses and leaves both files alone |
| EventAnswers.StartAnswers | src/ai_quant/binance_egress/testnet_user_stream.py:77-134 | when a start refuses the state file, the evidence or their disagreement, and what it starts from otherwise |
| EventJournal.UserDataEventJournal.RecordEvent | src/ai_quant/binance_egress/testnet_user_stream.py:168-203 | recording equals the specified delivery on memory and both files |
| EventAnswers.HeaderIff | src/ai_quant/binance_egress/testnet_user_stream.py:169-175 | a document is taken if and only if it names a known event type and an integer time |
| EventAnswers.DeliverAnswers | src/ai_quant/binance_egress/testnet_user_stream.py:168-183 | a document is recorded if and only if it is taken and new; otherwise exactly one counter moves |
| EventAnswers.AcceptedRecordIs | src/ai_quant/binance_egress/testnet_user_stream.py:184-223 | the record an accepted document is written as, and the counters after it |
| EventJournal.DeliverKeepsSync | src/ai_quant/binance_egress/testnet_user_stream.py:168-223 | every delivery leaves a file the verifier accepts with exactly the journal's count, type counts, seen set and final digest |
| EventJournal.RestartRestores | src/ai_quant/binance_egress/testnet_user_stream.py:119-134 | a restart on synchronised files restores exactly the journal |
| EventJournal.CrashRestart | src/ai_quant/binance_egress/testnet_user_stream.py:205-223 | a restart after a crash at any point restores exactly the journal before the event, or refuses, and refuses exactly when part or all of an unsaved record was written |
| EventJournal.EveryRunIsVerifiable | src/ai_quant/binance_egress/testnet_user_stream.py:168-223 | from empty files every run of deliveries, restarts and crashes that is not refused ends with a chained file in step with the journal |
| EventJournal.RedeliveryAddsNothing | src/ai_quant/binance_egress/testnet_user_stream.py:177-183 | a document delivered again after any run adds nothing to the evidence |
| EventJournal.StartWithoutEvidence | src/ai_quant/binance_egress/testnet_user_stream.py:119-122 | with the evidence file missing a start succeeds, and is in step if and only if nothing had been recorded |
| EventJournal.LostEvidenceIsCaught | src/ai_quant/binance_egress/testnet_user_stream.py:122-128 | a lost evidence file is refused at the restart after the next accepted event |
| Retention.PlanVerifiedDeletions | src/ai_quant/archive/retention.py:17-43 | the two loops give the specified plan |
| Retention.SortSorts | src/ai_quant/archive/retention.py:28 | the age order is sorted by time then path and is a permutation of the candidates |
| Retention.PathLeqIs | src/ai_quant/archive/retention.py:28 | paths compare as strings do: by the first character that differs, a prefix first |
| Retention.AgeOrderIs | src/ai_quant/archive/retention.py:28 | the age order is by time and then by path |
| Retention.OldIsPrefix | src/ai_quant/archive/retention.py:31-34 | for every input the over-age verified files are exactly the first of the verified files in age order |
| Retention.PlanIsShortestPrefix | src/ai_quant/archive/retention.py:28-43 | unless a verified file at or after the cutoff repeats an earlier path, the plan is the shortest age-ordered prefix of verified files that holds every over-age one and brings the rest within the limit, or all verified files |
| Retention.RightIffNoYoungRepeat | src/ai_quant/archive/retention.py:28-43 | for files of positive size, the plan is that prefix under every limit if and only if no verified file at or after the cutoff repeats an earlier path |
| Retention.RepeatedPathStopsShort | src/ai_quant/archive/retention.py:35-42 | a concrete repeated path with which the plan stops before the limit is met |
| Retention.OnlyVerifiedAreChosen | src/ai_quant/archive/retention.py:31-42 | for every input only verified candidates are chosen and every over-age one of them is |

## Left out

- The first versions of reserve and consume, superseded and not granted to the runtime role.
- Roles, grants, audit tables, downgrades and the business schema: definitions without an algorithm.
- NULL arguments, a missing message type, malformed cost items and column overflow: each raises an error and rolls back.
- The wall-clock column of a lease event; the model keeps the clock reading the decision was taken on.
- The startup count of outcomes missing past their deadline, which depends on when gateways stop.
- The gateway's second look at the wire bytes it has already hashed during admission (gateway.py:346-348).
- The gateway's second comparison of the grant with the request, after the first has passed on the same fields, and a failure to parse a response that matched: neither can differ from the modelled outcome.
- Signatures, canonical JSON bytes, SHA-256, base64 and schema validation: opaque values or boolean inputs.
- Startup attestation and measurement, websocket and file plumbing, and the archive receiver: input and output.
- EgressTheorems.JournalableIffOwnEpoch: assumes that no outcome has been recorded yet, because a later one is refused as a conflict whatever its epoch.
- SupersededEntries.PagingIsSinglePass: requires decisions to take (`Fresh`), because an entry whose decision does not take comes back in the next page; `RoundsAreOnePass` covers that case.
- SupersededEntries.CancelExact: requires decisions to take for the same reason; `TrueMeansNonePending` covers every clock.
- SupersededFills.PollingDrains: requires decisions to take, and gives every poll the same time and answers.
- SupersededEntries.CopyRuntime.CancelSupersededEntries: does not model entries added by others during the call, an exchange that answers a repeated cancellation differently within one call, the exchange's own cancellation protocol, profit-and-loss rows and their consistency error, colliding position digests or leverage range errors of the position store.
- OutcomeLaws.RecordedOutcomeIsTrue: assumes that no other database user reports send outcomes, because the journal takes any well-formed message in a gateway's name; `PendingReportIsTrue` needs no such assumption.
- SizingLaws.GreaterMultiplierSizesMore: assumes a reference price that is not negative, as every public order has.
- EventAnswers.AccountIsCut: assumes that the name "a" is not secret under the platform's lower-casing, which is a parameter.
- Retention.RightIffNoYoungRepeat: assumes positive sizes, because with a file of size 0 two prefixes can meet the same limit.
- Construction errors of the sizing inputs (policy, usage and rules outside their ranges) and the leverage echoed in a rejected size; the model starts from valid inputs.
- The rejection of a planning time that is not UTC, in the retention planner.
- LeaderSlots.StableSlotAssignments: the slot enumeration is a type parameter; nothing depends on which slots exist.
- EventJournal.UserDataEventJournal.RecordEvent: does not model the status and connection counters of the state file, its schema checks beyond one usable flag, or the file system's own failures other than a crash.
- The rest of the trading application (polling, order building, symbol rules), control, automation and contracts: the model starts from normalized signals and ends at decisions and ledger rows.
