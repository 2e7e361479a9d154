# Gateway operational core: a verified model

A Dafny model of the stateful core of the Gateway's operational tools, with proofs of what that core is for. Verify
it with `dafny verify dfyconfig.toml`.

| Part | Files | Main results |
|---|---|---|
| Incident history, owner cursor, publication bookmarks | `Incidents`, `Cursor`, `Paging`, `CatchUp`, `Bookmarks`, `ReadHistory`, `Chain`, `OwnerOutcomes`, `OwnerStore` | the ledger replays to the table; paging is exact under any interleaving and changing row policies; a bookmark is issued exactly when the last recorded answer of every page was all of it; nobody reads another's snapshot; what a start, resume, ..., resume client was given folds to the table |
| Pressure controller | `Pressure` | for each mode exactly when it is left and for which; leaving a pause needs two unbroken minutes of evidence; NORMAL is at least 210 s away from a pause; exactly where the automaton is not monotone |
| Alert outbox | `AlertModel`, `AlertProtocol`, `AlertBudgets`, `AlertLag`, `AlertQuotas`, `AlertSafety`, `AlertFinality`, `AlertWitness`, `AlertPace`, `AlertRetry`, `AlertCoverage`, `AlertEpisodes`, `AlertOutcomes`, `AlertSeverities`, `AlertRenewal`, `AlertOutbox` | at-most-once acceptance over every interleaving if denials are final, and when they are; conservation and finiteness of budgets; the deadline binds before the cap, and every number of attempts up to it happens; no lost alert; one alert for each phase of an episode; quotas |
| Publication | `Coalescing`, `ControlPlane`, `Publication` | `active.json` only names a verified, activated manifest; the exact condition under which it agrees with the plane |
| Install and rollback | `Rollout`, `Retrofit`, `Routes`, `RouteInstall` | the original container can be put back from any crash point; exactly when a candidate is staged; route installation is all-or-nothing or names the ids it is not sure of |

## How it is modelled

Every committed SQLite transaction is a function from tables to tables that either commits or leaves them alone.
Classes (`IncidentStore`, `OwnerTables`, `PressureController`, `Outbox`, `AdminPort`, `FileStore`, `Publisher`,
`Docker`, `AdminServer`) hold those tables as fields, update them step by step as the code does, and are proved to do
exactly what the transaction functions say; the results about all runs are proved of the functions. UUIDs are drawn
from a counter, digests are the digested value, and time is a real number. What the world does (clock readings, the
transport's outcome, the answers of the Admin port, the fate of a Docker command) is a parameter of each step, so
"for every run" includes every failure. What the code does in several transactions is several steps: a start or resume
is a capture and later the binding of its scope, and a bookmark read is a cursor read, later its record, and later the
issue. In between anything else may run, or nothing may follow; a run is legal if what a later step carries over was
given by an earlier one. The class methods for whole calls run these transactions one after the other. `AlertOutcomes`, `OwnerOutcomes` and the
lemmas called `...Outcome` elsewhere say what each transaction does without its definition: exactly when it commits,
which error it gives otherwise, and what it has written, in the fields of the tables and with the numbers.

`AlertSafety` adds the world around the outbox: attempts under way, a provider that may accept each of them, and
queries. Claim, acceptance, return and finish are separate steps, so other workers interleave between them, and a
crash is a run in which the remaining steps of a worker never come. What the world may do is one predicate,
`Allowed`: an attempt may be accepted at any time after its claim, while its call runs, after the call raised, after the
lease; the clock readings of workers are arbitrary; and a not-accepted answer, from the send or from a query, is true
when it is given. `AtMostOnce` takes one more assumption, `DenialsHold`: a denial is final, so an attempt that has been
denied is not accepted later. `AlertFinality` proves that this follows if every attempt ends with its call or its lease
and no worker reads a future clock to claim (`AtMostOnceIfAttemptsEnd`), and that a denial that is merely true when it
is given is not enough (`TrueDenialsAreNotEnough`; `DenialsMustBeFinal` is a whole such run). `AlertPace` assumes
besides that a worker reads its clock for the outcome no earlier than it did for the claim.

## Where the code differs from its documentation

- `docs/OPERATIONAL_PRESSURE_REFERENCE.md` says that a current failure during probing pauses the scope. A sample that
  is high by failure rate alone leaves a probing scope where it is (tools/operational_pressure.py:95-96); a milder
  sample that is not low pauses it (line 100). `FailingProbeKeepsItsSlot`, `ProbePausesIff` and `WorseSampleGetsMoreIff`
  give the example and the exact conditions.
- The same document says that a sample gap resets recovery evidence. It does so in RECOVERING (line 105) but not in
  PROBE (line 101): `GapDoesNotResetProbe`, `ProbeAdvancesIff`.
- `docs/OPERATIONAL_ALERT_OUTBOX_REFERENCE.md` gives 128 attempts and 24 hours, first limit wins. Unless an ambiguous
  outcome is reconciled back to pending, the backoff lets at most 124 attempts happen, so only the 24 hours can win:
  `DeadlineBindsFirst`.
- A claim that finds less than five seconds left exhausts the delivery and leaves its budget session ACTIVE
  (tools/operational_alert_outbox.py:174-175). `ClaimLagsIff` and `ExhaustedSessionLags` say exactly when the two
  disagree: from such a claim until the next dispatch that gets past its checks, or the renewal of that delivery.
- `docs/OPERATIONAL_ALERT_OUTBOX_REFERENCE.md` also says that ambiguity settled as not accepted permits a safe resumption. That is so if the answer is
  final: `TrueDenialsAreNotEnough` gives, for any attempt under way, a run in which an answer that was true when it was
  given is followed by two acceptances, all within the lease.
- A bookmark read and its record are two transactions (tools/operational_bookmarks.py:136-148), so the record of an
  earlier, unredacted read may come after that of a later, redacted one, and a bookmark then follows:
  `LateRecordHidesRedaction`. What holds in every run is stated of the answers recorded last: `RecordIsLatestAnswer`,
  `IssueMeansAllShown`, `RunChainIsTable`.
- With a saved state filter, a resume does not report an incident that has left that state, so a client that overlays
  catch-ups keeps showing it: `CatchUpExactIff` gives the exact condition, `FilteredCatchUpCanGoStale` an example.
- Restoring a route treats the answer 404 to a PUT as success (ops/apisix/deploy_status_execute.py:54-55,
  ops/apisix/deploy_internal_m2m_routes.py:100-101). If that answer came without effect the route stays changed and
  no error names it: `LostRestoreIsSilent`; `RestoresTableIff` is the exact condition. An original route that is the
  empty object is deleted instead of put back.
- The automatic rollback of ops/udp/rollout_authorization_retrofit.py restores the original only if the rename had
  already happened; otherwise it removes it: `AutomaticRollback`.

## Model

| member | source | states |
|---|---|---|
| Incidents.IncidentStore.constructor | tools/operational_cursor.py:62-69 | rows that predate the history each become one baseline ledger entry, and the ledger replays to the table |
| Incidents.IncidentStore.OpenIncident | tools/operational_incidents.py:91-116 | insert or merge on the dedup key, with its trigger entry; rejected reports change nothing |
| Incidents.IncidentStore.MarkRecovering | tools/operational_incidents.py:118-125 | the recovering update of the row with that key and its trigger entry, or nothing |
| Incidents.IncidentStore.ResolveIncident | tools/operational_incidents.py:127-135 | the resolving update of the row with that key and its trigger entry, or nothing |
| Incidents.IncidentStore.ListIncidents | tools/operational_incidents.py:143-163 | the first `limit` rows of the one listing of the matching rows; limits outside 1..200 are refused |
| Incidents.PriorityIsTotal | tools/operational_incidents.py:158-161 | the listing order never ties, so `order by ... limit` has one answer |
| Incidents.ListedInOrder | tools/operational_incidents.py:158-161 | in the listing unresolved rows come before resolved ones, and then a Critical before an Error, that before a Warning, and that before an Info; among equals the later change first |
| Incidents.FilterOutcome | tools/operational_incidents.py:143-157 | exactly which rows a filter matches |
| Incidents.OpenOutcome | tools/operational_incidents.py:91-116 | exactly which reports are accepted, and the row field by field that a first or a repeated report leaves |
| Incidents.RecoverOutcome | tools/operational_incidents.py:118-135 | exactly when a recovery or a resolution writes, and the row field by field |
| Incidents.ApplyKeepsValid | tools/operational_cursor.py:42-49 | over every write the ledger only grows, and replays to exactly the table |
| Incidents.LatestIsReplay | tools/operational_cursor.py:151-153 | the highest revision of an incident is its row in the replayed table |
| Incidents.CapturedExactly | tools/operational_cursor.py:135-156 | a captured item is, both ways: the incident as of the watermark, matching the filter, changed above the lower bound |
| Incidents.CaptureNowIsTable | tools/operational_cursor.py:151-156 | a capture with no lower bound selects exactly the rows `list_incidents` selects |
| Cursor.CaptureKeepsInv | tools/operational_cursor.py:115-168 | a capture keeps the item sums within 200,000 and 64,000 for a tenant, sessions within 4096/128/16, cursors on page starts |
| Cursor.PageKeepsInv | tools/operational_cursor.py:91-110 | a page read keeps the same invariant; the next cursor is the next page start inside the items |
| OwnerOutcomes.PageOutcome | tools/operational_cursor.py:82-113 | a read is answered if and only if the token is stored, its session is live, identity and policy are the session's, and it has not expired; the error of each failure; the answer item by item |
| OwnerOutcomes.ShownItems | tools/operational_cursor.py:91-105 | a row policy shows exactly the items it is true of, one by one and in order |
| OwnerOutcomes.ReadersAreOwners | tools/operational_cursor.py:84-88 | over every run, an answered read is by the identity and under the policy of the capture, start or resume that stored the session |
| OwnerOutcomes.AdmitOutcome | tools/operational_cursor.py:126-168 | exactly when a capture is stored, with every quota as a number and a count, the refusal of each failure, and what is stored |
| OwnerOutcomes.CaptureOutcome | tools/operational_cursor.py:115-168 | a capture first makes room by the session it evicts, and what it then stores |
| OwnerOutcomes.DropOutcome | tools/operational_cursor.py:123-125 | a cleanup takes one session with its cursors, scope and records, and nothing else |
| Paging.PageCountIsCeiling | tools/operational_bookmarks.py:152 | the number of page starts below n, or 0, is max(1, ceil(n/L)) |
| Paging.ReReadGivesSameNext | tools/operational_cursor.py:106-110 | reading a cursor again, any time later and under any other row policy, gives the same next token; under the same policy the same answer |
| Paging.PagingIsExact | tools/operational_cursor.py:82-110 | following next tokens under any interleaving takes max(1, ceil(n/L)) <= 200 reads; each returns what its own row policy shows of its page, and the pages put together are the captured list |
| Paging.SteadyPagingIsExact | tools/operational_cursor.py:82-110 | when the reads' policies agree on the items they read, what they return is what that policy shows of the captured list, in order |
| CatchUp.CatchUpExactIff | tools/operational_cursor.py:137-156 | old snapshot overridden by catch-up equals new snapshot if and only if no shown incident left the filter |
| CatchUp.CatchUpLosesNothing | tools/operational_bookmarks.py:105-117 | with no filter, exactly the incidents changed since the watermark are returned and the override is the table at the new watermark |
| CatchUp.FilteredCatchUpCanGoStale | tools/operational_bookmarks.py:113-117 | an OPEN-only client is never told of an incident that was resolved |
| CatchUp.CapturedStable | tools/operational_cursor.py:135-137 | later writes do not change what a capture at an earlier watermark selects |
| Bookmarks.RunKeepsInv | tools/operational_bookmarks.py:90-208 | over every run of writes, captures, reads and issues: ledger and table agree, session, item and bookmark quotas (32,768, 4096 a tenant, 512 a principal) hold, scoped sessions hold exactly their capture |
| Bookmarks.IssueMarksBoundary | tools/operational_bookmarks.py:163-205 | the returned token, new or reused, carries this session's watermark and filter |
| Bookmarks.CountIsCoverage | tools/operational_bookmarks.py:151-157 | counting the complete positions reaches the expected number if and only if they are exactly all page starts |
| Bookmarks.IssueNeedsFullCoverage | tools/operational_bookmarks.py:169-176 | an issued bookmark means every captured item lies on a page recorded complete |
| OwnerOutcomes.IssueOutcome | tools/operational_bookmarks.py:163-208 | exactly when a bookmark is issued and what it says: coverage, expiry, reuse and quotas in this order, then 90 days for the claims of the session |
| OwnerOutcomes.IssueUnbound | tools/operational_bookmarks.py:163-176 | an issue is refused as changed exactly if the session or its scope is not there |
| OwnerOutcomes.ReuseOutcome | tools/operational_bookmarks.py:179-191 | a session's own bookmark is returned again, else an oldest equivalent one, and none exactly if there is neither |
| OwnerOutcomes.ResumeOutcome | tools/operational_bookmarks.py:97-117 | a resume is for the same claims whatever the login, under the same policy, live and above the floor; it captures above the watermark |
| OwnerOutcomes.StartOutcome | tools/operational_bookmarks.py:90-95 | a start captures everything that matches, from the beginning of the history |
| OwnerOutcomes.BindOutcome | tools/operational_bookmarks.py:119-125 | exactly when a session can be bound, and the scope it gets |
| OwnerOutcomes.RecordOutcome | tools/operational_bookmarks.py:136-148 | exactly when a read is recorded, and that only its page is |
| Bookmarks.ReadRecordsRedaction | tools/operational_bookmarks.py:136-148 | an uninterrupted read records complete exactly when the row authorization showed every item of that page, and touches no other page |
| Bookmarks.CaptureAgreesWithList | tools/operational_cursor.py:151-156 | a capture stores the whole of `list_incidents` at that moment, in the same order |
| ReadHistory.RecordIsLatestAnswer | tools/operational_bookmarks.py:136-148 | over every run, with reads and records as separate transactions, a page is on record exactly while its session lives and an answer was recorded for it, and complete exactly when the answer recorded last was the whole page |
| ReadHistory.CompletePageWasReadUnredacted | tools/operational_bookmarks.py:145-148 | over every run, a page recorded complete was returned whole by a read of the run, and no answer was recorded for it since that one |
| ReadHistory.LateRecordHidesRedaction | tools/operational_bookmarks.py:136-148 | for every page of a live scoped session there is a run after which it is recorded complete although its latest read showed nothing of it |
| ReadHistory.IssueMeansAllShown | tools/operational_bookmarks.py:169-176 | over every run, an issue is refused for coverage exactly when the answer recorded last for some page was not all of it; when issued, those answers put together are the captured list |
| ReadHistory.RunPagingIsExact | tools/operational_cursor.py:82-110 | exact paging for the reads of a client anywhere in a run of the whole machine |
| ReadHistory.RunReReadGivesSameNext | tools/operational_cursor.py:106-110 | in a run, two answered reads of one token give the same next token whatever the policies |
| Bookmarks.LiveBookmarkStays | tools/operational_bookmarks.py:192-199 | a live bookmark is never deleted or changed before it expires, over every run |
| Bookmarks.ResumeFailsOnlyOnCapacity | tools/operational_bookmarks.py:97-117 | a resume past its guards fails only for capacity: its watermark is never in conflict |
| Chain.RoundHolds | tools/operational_bookmarks.py:90-95 | one start or resume with its page chain holds exactly the capture between its two boundaries |
| Chain.RoundsMeet | tools/operational_bookmarks.py:105-117 | the next round begins exactly at the watermark where the previous one ended |
| Chain.ChainFoldsToSnapshot | tools/operational_bookmarks.py:90-117 | any start, resume, ..., resume chain with anything in between folds to the table at its last watermark |
| Chain.RunChainIsTable | tools/operational_bookmarks.py:90-161 | in every run, whatever the row policies did meanwhile, the answers recorded last for each page, folded over the rounds of a client, are the incident table as of its last capture |
| OwnerStore.OwnerTables.EarliestExpired | tools/operational_cursor.py:123-125 | the one cleanup picks a session that has expired, of the earliest expiry, or none if none expired |
| OwnerStore.OwnerTables.CaptureSnapshot | tools/operational_cursor.py:115-168 | the capture transaction on the tables, rolled back as a whole on refusal |
| OwnerStore.OwnerTables.ReadCursorPage | tools/operational_cursor.py:82-113 | who may read, in terms of the stored token, session, identity, policy and expiry; the error of each refusal; the visible items of the page; next cursor found or inserted |
| OwnerStore.OwnerTables.RecordRead | tools/operational_bookmarks.py:137-148 | the record of a read, on its own: scope and frame checked, completeness replaced |
| OwnerStore.OwnerTables.BindScope | tools/operational_bookmarks.py:119-125 | a session is bound once, to its filter, parent and frame |
| OwnerStore.OwnerTables.ReadBookmarkPage | tools/operational_bookmarks.py:127-161 | a call that nothing interrupts: the read, its record, and the bookmark issued with the last page of a covered session |
| OwnerStore.OwnerTables.IssueBookmark | tools/operational_bookmarks.py:163-208 | the issue transaction: reuse, one cleanup, quotas, insert |
| OwnerStore.OwnerTables.StartSnapshot | tools/operational_bookmarks.py:90-95 | start, uninterrupted: capture, then scope, then the first page |
| OwnerStore.OwnerTables.ResumeSnapshot | tools/operational_bookmarks.py:97-117 | resume, uninterrupted: guards, floor, capture bounded below by the watermark, then scope, then the first page |
| OwnerStore.ServeOutcome | tools/operational_bookmarks.py:127-161 | a bookmark comes with a page exactly if that was the last one, wholly shown, with every page now on record as complete; each refusal, and what it leaves |
| OwnerStore.OpenOutcome | tools/operational_bookmarks.py:94-125 | what start and resume bind and serve |
| OwnerStore.ServeIsSteps | tools/operational_bookmarks.py:127-161 | a whole bookmark read is a read step, a record step and at most one issue step of the machine the run theorems are about |
| Pressure.PressureController.RegisterScope | tools/operational_pressure.py:45-61 | idempotent registration within 1024 scopes; a scope stored under another profile is refused |
| Pressure.ScopeRefOutcome | tools/operational_pressure.py:47 | exactly which scope references are taken |
| Pressure.PressureController.Observe | tools/operational_pressure.py:63-117 | validation, duplicate, version check, transition; the stored row is what its accepted observations make of a new scope; a newer sample of which half of at least 20 failed leaves at most 2 slots |
| Pressure.PressureController.Transition | tools/operational_pressure.py:81-110 | the branches of the automaton |
| Pressure.PressureController.CurrentDecision | tools/operational_pressure.py:119-128 | the decision speaks for the accepted samples: fresh exactly when the last one is -5 to 30 s old; slots only then, never while paused, at most 8 |
| Pressure.NormalOutcome | tools/operational_pressure.py:93-96 | exactly when a NORMAL scope stays NORMAL with 8 slots, turns CAUTIOUS with 2, or is paused, with the thresholds written out |
| Pressure.CautiousOutcome | tools/operational_pressure.py:93-110 | exactly when a CAUTIOUS scope recovers, pauses or stays |
| Pressure.PausedOutcome | tools/operational_pressure.py:93-100 | a PAUSED scope is probed with one slot after two calm minutes and only then |
| Pressure.ProbeOutcome | tools/operational_pressure.py:93-102 | exactly when a PROBE recovers, pauses or stays |
| Pressure.RecoveringOutcome | tools/operational_pressure.py:93-110 | exactly when a RECOVERING scope doubles its slots, turns NORMAL, CAUTIOUS or is paused |
| Pressure.PausedIff | tools/operational_pressure.py:93-100 | exactly when a sample leaves a scope paused, whatever its mode |
| Pressure.SampleRecorded | tools/operational_pressure.py:81-91 | what every sample records of the runs of high and low pressure |
| Pressure.FailingLeavesTwoSlots | tools/operational_pressure.py:95-96 | a sample of which half of at least 20 attempts failed leaves at most 2 slots |
| Pressure.FailingTraceLeavesTwoSlots | tools/operational_pressure.py:93-110 | so does every trace that ends in such a sample, and never NORMAL |
| Pressure.ObserveOutcome | tools/operational_pressure.py:63-80 | exactly which observations are accepted, which are duplicates, and the error of the others |
| Pressure.DecisionOutcome | tools/operational_pressure.py:119-128 | the decision tells version, and mode and slots exactly if the last sample is fresh; two slots are always kept back |
| Pressure.ModeAndSlotsAgree | tools/operational_pressure.py:88-110 | in every trace the mode determines the slots (2 or 4 when recovering) |
| Pressure.LowSinceIsRunStart | tools/operational_pressure.py:89-91 | `low_since` is where the unbroken run of low samples at the end of the trace began |
| Pressure.LeavingNeedsEvidence | tools/operational_pressure.py:97-98 | leaving PAUSED, or CAUTIOUS for recovery, needs an unbroken low run with gaps <= 30 s spanning >= 120 s |
| Pressure.EarliestNormalHolds | tools/operational_pressure.py:93-110 | no sample brings forward the earliest time at which NORMAL is possible |
| Pressure.RecoveryTakes210Seconds | tools/operational_pressure.py:93-110 | for every trace, NORMAL is at least 210 s after a sample that paused the scope |
| Pressure.WorseSampleGetsMoreIff | tools/operational_pressure.py:93-100 | the one case in which a worse sample gives more slots than a milder one, both directions |
| Pressure.ProbePausesIff | tools/operational_pressure.py:93-100 | exactly when a sample pauses a probing scope |
| Pressure.FailingProbeKeepsItsSlot | tools/operational_pressure.py:95-96 | one hundred failures out of one hundred leave a fresh probe with its slot |
| Pressure.ProbeAdvancesIff | tools/operational_pressure.py:101-102 | exactly when a low sample ends a probe |
| Pressure.GapDoesNotResetProbe | tools/operational_pressure.py:101-107 | a gap keeps a probe's stage time and resets a recovering one's |
| Pressure.ProbeOccurs | tools/operational_pressure.py:93-102 | traces that end in a probe just begun, and in a recovery just begun, as these statements take them |
| Pressure.SlotsNeedFreshEvidence | tools/operational_pressure.py:119-128 | slots are granted only on evidence at most 30 s old and never while paused |
| AlertProtocol.SweepLocal | tools/operational_alert_outbox.py:164-168 | under the invariant, the set updates of a sweep act on each delivery and its own session only |
| AlertProtocol.TxKeepsBooks | tools/operational_alert_outbox.py:164-247 | every transaction keeps: states agree with sessions, old sessions are exhausted, attempts sum up, measure plus version is bounded |
| AlertProtocol.RunKeepsBooks | tools/operational_alert_outbox.py:164-247 | the same over every run, with any clock readings |
| AlertBudgets.TxEffect | tools/operational_alert_outbox.py:164-247 | a transaction moves a delivery one version at most, and unless it renews it the measure 4*(max - attempts) + rank strictly drops |
| AlertBudgets.BudgetConservation | tools/operational_alert_outbox.py:165-249 | recorded attempts = claims granted = sum over sessions <= 128*(1+renewals); queries <= 8; version <= 513 + 514*renewals; other sessions exhausted |
| AlertOutcomes.SweepOutcome | tools/operational_alert_outbox.py:164-168 | what a sweep makes of each delivery and its session: an expired lease is UNKNOWN, a spent session EXHAUSTED, nothing else moves |
| AlertOutcomes.ClaimOutcome | tools/operational_alert_outbox.py:157-178 | past the checks, exactly when a claim is paused for capacity (16 and 2), finds nothing, exhausts or claims, and what it writes |
| AlertOutcomes.ClaimRefusals | tools/operational_alert_outbox.py:60-72 | exactly which dispatches are refused, and with which error |
| AlertOutcomes.FinishOutcome | tools/operational_alert_outbox.py:187-203 | exactly when an outcome is recorded and what it makes of the delivery: a not-accepted one is PENDING again if and only if attempts < max and due + 5 < deadline, due after 5, 15, 60, 300 or 900 jittered seconds or as asked; otherwise EXHAUSTED; permanent is PAUSED |
| AlertOutcomes.SanitizedOutcome | tools/operational_alert_outbox.py:180-186 | which outcomes of the transport are taken as they are; anything else is ambiguous |
| AlertOutcomes.RenewOutcome | tools/operational_alert_outbox.py:205-218 | exactly when a renewal is granted and what it opens; the error of each refusal |
| AlertOutcomes.QueryOutcome | tools/operational_alert_outbox.py:221-233 | exactly when a query is counted; the error of each refusal |
| AlertOutcomes.AnswerOutcome | tools/operational_alert_outbox.py:236-249 | exactly which answers settle a delivery, and to what |
| AlertLag.ClaimLagsIff | tools/operational_alert_outbox.py:174-175 | a claim that passes its checks and selects a delivery leaves it EXHAUSTED with an ACTIVE session exactly when less than five seconds are left |
| AlertLag.ExhaustedSessionLags | tools/operational_alert_outbox.py:164-175 | after any transaction, exactly when a delivery is EXHAUSTED with an ACTIVE session |
| AlertQuotas.TxKeepsLimits | tools/operational_alert_outbox.py:138-141 | every transaction, enqueueing and claiming included, keeps all the capacities at once |
| AlertQuotas.RunKeepsLimits | tools/operational_alert_outbox.py:169-170 | in flight <= 16 and <= 2 per destination, non-accepted <= 1024 and <= 128, deliveries <= 4096, destinations <= 32, receipts <= 200,000 over every run |
| AlertSafety.DoKeepsInv | tools/operational_alert_outbox.py:151-249 | every step of worker, provider or query keeps: at most one attempt of a delivery is undenied, none when it may be sent again, and the holder of a claim is the current attempt |
| AlertSafety.AtMostOnce | tools/operational_alert_outbox.py:157-249 | over every interleaving, with acceptances at any time after the claim: if denials are final each delivery is accepted at most once; in any case two sends are separated by a not-accepted proof and leases reach 5 to 10 s past the claim |
| AlertFinality.AtMostOnceIfAttemptsEnd | tools/operational_alert_outbox.py:176-182 | if attempts end with their call or their lease and no claim reads a future clock, denials need only be true when given |
| AlertFinality.TrueDenialsAreNotEnough | tools/operational_alert_outbox.py:220-249 | from any attempt under way: raise, UNKNOWN, a true denial, PENDING, a second send, and then both attempts are accepted |
| AlertWitness.SceneIsReached | tools/operational_alert_outbox.py:97-178 | configure, reconcile and claim over one open critical incident leave such an attempt under way |
| AlertWitness.DenialsMustBeFinal | tools/operational_alert_outbox.py:151-249 | a whole run from an empty outbox, every denial true when given, that ends with two acceptances of one delivery |
| AlertSafety.LateFinishIsFenced | tools/operational_alert_outbox.py:187-192 | a finish for a superseded version or after its lease is a stale-result error and changes nothing; when a finish lands, every other attempt of the delivery has been denied |
| AlertPace.BackoffSpacing | tools/operational_alert_outbox.py:15 | each jittered backoff is at least the gap between consecutive earliest claim times |
| AlertPace.DeadlineBindsFirst | tools/operational_alert_outbox.py:172-199 | a session never put back to pending from ambiguity is claimed at most 124 times, over every run |
| AlertPace.NthClaimIsLate | tools/operational_alert_outbox.py:172-199 | its nth claim, n >= 5, is at least 304 + 720(n-5) s after it started |
| AlertRetry.RetriesHappen | tools/operational_alert_outbox.py:187-202 | for every n up to 124 a run from an empty outbox in which one session is claimed and refused again and again until it has n attempts; so the bound of 124 is reached |
| AlertCoverage.EnqueueCovers | tools/operational_alert_outbox.py:124-149 | a successful enqueue leaves its incident alerted or asking for no alert, and uncovers no other |
| AlertCoverage.ReconcileProgress | tools/operational_alert_outbox.py:105-122 | a committed reconciliation receipts exactly its batch and strictly shrinks pending work; a failed one changes nothing |
| AlertCoverage.NoLostAlert | tools/operational_alert_outbox.py:105-149 | in every reachable state each incident has an unprocessed transition, or is alerted, or asks for no alert |
| AlertCoverage.DrainedMeansAlerted | tools/operational_alert_outbox.py:124-149 | once drained, every unresolved incident at or above the minimum has a delivery for its episode and phase, and every alerted one that resolved has its recovery |
| AlertSeverities.DrainedByName | tools/operational_alert_outbox.py:124-149 | once drained: every unresolved Critical incident has its critical delivery, every Error one its problem delivery unless the minimum is Critical, every Warning one if the minimum is Warning; recoveries likewise |
| AlertSeverities.NoneBelowMinimum | tools/operational_alert_outbox.py:124-149 | over every run, no problem or critical delivery is of a Warning at minimum Error, nor below Critical at minimum Critical |
| AlertSeverities.NoneForgotten | tools/operational_alert_outbox.py:105-149 | in every reachable state an incident that is to be alerted has a transition not yet processed |
| AlertSeverities.BatchInOrder | tools/operational_alert_outbox.py:111-115 | a batch takes unresolved incidents before resolved ones, the more serious severity by name before the less, then the lower revision |
| AlertSeverities.BatchRow | tools/operational_alert_outbox.py:106-112 | each row of a batch is an incident at its lowest unprocessed revision |
| AlertSeverities.CapacitiesHold | tools/operational_alert_outbox.py:138-141 | the capacities over every run, as counts over the tables |
| AlertCoverage.CriticalFirst | tools/operational_alert_outbox.py:111-115 | unresolved critical incidents that fit the limit are all in the batch |
| AlertEpisodes.EpisodeCountsReopenings | tools/operational_alert_outbox.py:128-131 | the window count makes the episode one more than the number of RESOLVED to unresolved crossings |
| AlertEpisodes.EpisodeStep | tools/operational_alert_outbox.py:128-131 | a write moves an incident to the next episode exactly when it crosses from RESOLVED to unresolved |
| AlertEpisodes.RunKeepsAlerts | tools/operational_alert_outbox.py:132-149 | over every run: one delivery for each incident, destination, episode and phase; every recovery has its problem or critical delivery; severities at or above the minimum |
| AlertOutcomes.ConfigureOutcome | tools/operational_alert_outbox.py:74-95 | exactly when a destination is configured, kept or refused |
| AlertOutcomes.ConfigureErrors | tools/operational_alert_outbox.py:60-80 | who may not configure a destination, and the error |
| AlertOutcomes.EnqueueOutcome | tools/operational_alert_outbox.py:124-149 | exactly when a delivery is inserted, with the severities named and the capacities 4096, 1024 and 128 as counts; what is inserted; the refusals |
| AlertOutcomes.PayloadOutcome | tools/operational_alert_outbox.py:128-142 | what an alert says of its incident, and its phase |
| AlertOutcomes.ReconcileOutcome | tools/operational_alert_outbox.py:97-110 | exactly when the batch is processed, and the error of each refusal |
| AlertOutbox.Outbox.ConfigureDestination | tools/operational_alert_outbox.py:74-95 | idempotent configuration, intent conflict, 32 destinations |
| AlertOutbox.Outbox.EnqueueIncident | tools/operational_alert_outbox.py:124-149 | the delivery and its session inserted exactly when the state of the incident asks for an alert that is not there and there is room, with the severities named; or the reason why not |
| AlertOutbox.Outbox.ReconcileOwnerTransitions | tools/operational_alert_outbox.py:97-122 | the batch is the first rows in priority order; the loop commits whole or is rolled back with its first row's error |
| AlertOutbox.Outbox.SweepExpired | tools/operational_alert_outbox.py:164-168 | the four statements in order make the sweep |
| AlertOutbox.SweepByStatements | tools/operational_alert_outbox.py:164-168 | the statements one after the other equal the one-step sweep the invariants are proved of |
| AlertOutbox.Outbox.Preview | tools/operational_alert_outbox.py:154 | an eligible delivery: pending, due and configured alike, critical before problem before recovery and then the earliest due; none exactly if there is none |
| AlertOutbox.Outbox.ClaimDelivery | tools/operational_alert_outbox.py:157-178 | the claim transaction and its result |
| AlertOutbox.Outbox.FinishDelivery | tools/operational_alert_outbox.py:187-203 | the fenced outcome transaction: recorded only for the holder of the claim, and what it makes of delivery and session is stated outright, the retry with its delay included |
| AlertOutbox.Outbox.SendOnce | tools/operational_alert_outbox.py:151-185 | preview, both authorizations, claim, sanitized outcome, finish |
| AlertOutbox.PromptFinishSucceeds | tools/operational_alert_outbox.py:179-202 | an undisturbed dispatch that returns within five seconds is never fenced and records its outcome |
| AlertOutbox.Outbox.RenewExhaustedBudget | tools/operational_alert_outbox.py:205-218 | a HUMAN renewal closes the old session and opens a new one, only from EXHAUSTED at the expected version |
| AlertRenewal.RenewReadsAgree | tools/operational_alert_outbox.py:206-213 | authorizing on the read before the lock is authorizing on the tables inside it, whatever ran in between |
| AlertOutbox.Outbox.CountAmbiguousQuery | tools/operational_alert_outbox.py:221-233 | one of at most eight queries is counted, only for UNKNOWN at the expected version |
| AlertOutbox.Outbox.ApplyQueryAnswer | tools/operational_alert_outbox.py:236-249 | only a definite answer settles the delivery, only at the version the query was made for |
| Coalescing.Coalesce | tools/publication.py:48-58 | one change for each object, the first with its highest sequence, in object order; refusals exactly when the maximum is not positive or exceeded |
| Coalescing.NewestWins | tools/publication.py:51-55 | the loop keeps for every object the first change with the highest sequence number |
| Coalescing.CoalesceInStages | tools/publication.py:51-55 | coalescing a prefix first loses nothing |
| ControlPlane.Adapter.StageArtifact | tools/apisix_control_plane.py:40-45 | put and read back on the port |
| ControlPlane.Adapter.VerifyRevision | tools/apisix_control_plane.py:47-60 | integrity first, then the probe's checks |
| ControlPlane.Adapter.ActivateRevision | tools/apisix_control_plane.py:62-65 | activate and read back on the port |
| ControlPlane.Adapter.RollbackRevision | tools/apisix_control_plane.py:67-72 | refuses the active revision, deletes any other |
| ControlPlane.StageOutcome | tools/apisix_control_plane.py:40-45 | exactly when a revision counts as staged |
| ControlPlane.VerifyOutcome | tools/apisix_control_plane.py:47-60 | exactly which checks count as passed |
| ControlPlane.ActivateOutcome | tools/apisix_control_plane.py:62-65 | exactly when an activation counts, and what is served then |
| ControlPlane.RollbackOutcome | tools/apisix_control_plane.py:67-72 | exactly when a revision counts as rolled back, and what is deleted |
| Publication.FileStore.RecordManifest | tools/publication.py:84-96 | artifact, manifest, `active.json` in that order, from any point of which the disk may fail |
| Publication.Publisher.PublishConfiguration | tools/publication.py:182-259 | the whole protocol on store and plane, for every script of answers |
| Publication.RecordOutcome | tools/publication.py:84-96 | what is stored when the disk fails at each point, and the error |
| Publication.SafeIdOutcome | tools/publication.py:183 | exactly which publication ids are safe, by character code |
| Publication.PublishOutcome | tools/publication.py:182-259 | how every publish ends, one condition after the other, the manifest it records field by field, and what it returns |
| Publication.PublishKeepsLastKnownGood | tools/publication.py:182-259 | written files never change; `active.json` changes only to the ACTIVE manifest the publish returns |
| Publication.LastKnownGood | tools/publication.py:84-96 | over any sequence of publishes `active.json` names only a manifest that passed all five checks and was activated |
| Publication.AgreementSurvivesIff | tools/publication.py:235-259 | with a port that reads its own writes, agreement with the plane survives exactly unless an activation of another revision took effect but was reported failed or could not be recorded |
| Publication.PublishKeepsPlane | tools/apisix_control_plane.py:40-72 | the served revision is never deleted, no other artifact is touched, revisions name their content |
| Publication.ServedIsLastKnownGood | tools/publication.py:182-259 | over any sequence with a dependable port and store, `active.json` names the revision being served |
| Rollout.CommandKeepsRecoverable | ops/apisix/rollout_r4a_runtime.py:193-219 | any lawful command, however it ends, leaves the original recoverable |
| Rollout.HistoryKeepsRecoverable | ops/apisix/rollout_r4a_runtime.py:264-289 | so does any history of applies and rollbacks cut short anywhere, with containers exiting and coming back on their own in between |
| Rollout.Docker.Rollback | ops/apisix/rollout_r4a_runtime.py:193-221 | success means the caller found the original ready and it runs under its own name; with no further fault it succeeds exactly from the recoverable hosts, and restores them; it ends with the death of the process exactly if its last command did |
| Rollout.Docker.Apply | ops/apisix/rollout_r4a_runtime.py:263-289 | staged if and only if the original was under its name, the backup name free, the image right, the candidate ready and every command ended well; a candidate that is not ready is rolled back; wherever it stops the original is recoverable |
| Retrofit.AutomaticRollback | ops/udp/rollout_authorization_retrofit.py:142-155 | restores the original if and only if it had been renamed; otherwise the original is removed, and it raises exactly then |
| Routes.RouteValueOfEnvelope | ops/apisix/deploy_status_execute.py:20-24 | reading back through one or two envelopes and timestamps gives the stored configuration |
| Routes.RestoreDecidesEach | ops/apisix/deploy_status_execute.py:50-57 | after a restore each id is at its target if any of its restores took effect, and unchanged otherwise |
| Routes.FailuresAreUnconfirmed | ops/apisix/deploy_status_execute.py:50-59 | the error names exactly the ids a restore of which raised or was answered by none of 200, 201, 204 and 404 |
| Routes.RestoresTableIff | ops/apisix/deploy_status_execute.py:49-60 | the exact condition for the whole table to be the original |
| Routes.RestoreIsAllOrNamed | ops/apisix/deploy_internal_m2m_routes.py:95-106 | with honest acknowledgements, every id the error does not name is as it was |
| Routes.LostRestoreIsSilent | ops/apisix/deploy_internal_m2m_routes.py:100-102 | a PUT answered 404 without effect leaves a changed route changed and unreported |
| Routes.AcceptedIff | ops/apisix/deploy_status_execute.py:40-47 | with truthful readbacks a write is accepted exactly if it is answered 200 or 201 and took effect, or the route was already there |
| Routes.AdminServer.RestoreRoutes | ops/apisix/deploy_internal_m2m_routes.py:95-106 | the restore loop: every id in order, failures collected |
| Routes.AdminServer.WriteRoute | ops/apisix/deploy_status_execute.py:40-47 | put and read back: the table afterwards; accepted exactly if the answer is 200 or 201 and every configured field survived; no other id is touched |
| RouteInstall.TakeSnapshot | ops/apisix/deploy_internal_m2m_routes.py:85-93 | a snapshot is taken exactly when every answer is a 200 or a 404, before any write; it is then what the table held |
| RouteInstall.AllAcceptedIff | ops/apisix/deploy_status_execute.py:39-47 | exactly when every route of an installation is accepted, in terms of the server's answers |
| RouteInstall.WriteRoutes | ops/apisix/deploy_status_execute.py:38-47 | the loop: the routes are written in order up to the first that is not accepted |
| RouteInstall.ApplyRoutes | ops/apisix/deploy_status_execute.py:27-60 | succeeds exactly if snapshot, every write and the public probe do, and then every route is installed; failure restores exactly the attempted ids in reverse, the failing one last attempted; ids not attempted never change |
| RouteInstall.ApplyInternal | ops/apisix/deploy_internal_m2m_routes.py:108-131 | succeeds exactly if the routes are valid, every write is accepted and every anonymous probe answers 401 or 403; otherwise the whole snapshot is restored in id order |
| RouteInstall.InstallIsAllOrNamed | ops/apisix/deploy_status_execute.py:46-60 | a failed install leaves the original table, or an error naming every id that may differ |
| RouteInstall.ProbeHitsItsRoute | ops/apisix/deploy_internal_m2m_routes.py:17-20 | the probe path is one the route serves and never the wildcard itself |

## Left out

- SQLite itself: WAL, lock timeouts, trigger and schema syntax. A transaction is one atomic step.
- Timestamps are numbers. `isoformat` drops a zero fraction, so the lexical order the SQL uses can differ from time order within one second; the model does not capture that.
- JSON, YAML, SHA-256, JSON schemas, UUID and reference syntax, and the 512 KiB response check; digests are injective, except that artifact hashes may collide in the file store.
- Authorization beyond granted or denied with a tenant, an actor and a policy; identity header checks; the configuration audit table and the provenance columns of budget sessions.
- Floating-point rounding: rates, capacities and times are exact numbers.
- OwnerStore.OwnerTables.ReadBookmarkPage: states a call that no other worker interleaves with, as do `StartSnapshot` and `ResumeSnapshot`; their transactions interleave in the runs of `Bookmarks`, `ReadHistory` and `Chain`.
- OwnerStore.OwnerTables.IssueBookmark: of several equally old equivalent bookmarks any may be returned; the code takes the one whose random UUID sorts first.
- AlertOutbox.Outbox.ConfigureDestination: the audit row and the reference syntax checks are not modelled.
- AlertOutbox.Outbox.SendOnce: states a dispatch that no other worker interleaves with; interleavings are the business of `AlertSafety`.
- AlertOutbox.Outbox.RenewExhaustedBudget: the method reads the delivery once; `RenewReadsAgree` is about the two reads of the code.
- AlertSafety.AtMostOnce: needs that denials are final; the code does not enforce it, the transport has to.
- Publication.Publisher.PublishConfiguration: governance checks and compilation are one result; the incident sink's calls after the record are left out.
- Rollout.Docker.Apply: snapshot validation, the saved state file and argument building are left out; readiness waits are a result.
- Retrofit.AutomaticRollback: only the automatic rollback is modelled, not the explicit `--rollback` mode.
- RouteInstall.ApplyInternal: of the route validation only non-emptiness and distinct ids; labels, plugins, verbs and id syntax are single guards.
- RouteInstall.ApplyRoutes: a failure of the process itself in the middle of an installation, after which only the saved snapshot helps, is left out.
- `summary` and `export_json` of the incident store, and the `--restore` modes with their readback.
- `tools/materialize_*.py`, Lua generation, installation projection, configuration compiling, the MCP dispatch and recovery tools, the HTTP API, and all HTTP, Docker, curl, file-permission and command-line plumbing: linear guards and rewriting with easy claims.
