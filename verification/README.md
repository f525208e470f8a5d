# Payment-address directory: a verified model of the backend services

This project models the services of the NestJS backend that move rows through state machines, and proves what they
keep over whole runs:

- the **webhook delivery engine**, a lease protocol between any number of processors that select batches and work them
  off, with retries, abandonment, replays and crashes (`WebhookTables`, `WebhookProcessing`, `WebhooksServiceModel`,
  `WebhookMeaning`, `WebhookProtocol`, `WebhookLifeCycle`, `WebhookRuns`, `WebhookTheorems`, `DeliveryRetry`);
- the **destination registry**, a table fed by an append-only attestation log and edited by two other services, and the
  forward, reverse, verify and batch **lookups** over it (`Registry`, `RegistryServices`, `RegistryMeaning`,
  `RegistryTheorems`, `RegistryLog`, `RegistryRuns`, `RegistryRoundTrip`, `ReportedAttestation`, `Lookups`,
  `LookupTheorems`, `LookupAgreement`, `LookupMeaning`, `BatchVerify`, `BatchTheorems`, `BatchMeaning`,
  `Normalization`, `NormalForms`);
- **request hardening**: the nonce table, the sliding-window limiter and the idempotency store (`RequestNonces`,
  `LookupRateLimit`, `Idempotency`);
- the **production-approval workflow**, its interleavings, and the dashboard's prediction of it (`ProductionApproval`,
  `ApprovalMeaning`, `ApprovalTheorems`, `ApprovalProtocol`, `Directory`);
- the **audit CSV printer** and its inverse (`AuditCsv`).

`Wrappers`, `Text` and `Runs` hold the shared Option and Result types, string trimming, and runs of a state machine.

A table is a sequence or a map held by a class; a service method is a Dafny method over those fields, proved to do what
a specification function says; the theorems are about that function and about runs of it. The clock, HTTP outcomes,
crashes, and which row an unordered query returns are inputs, so every result holds for every choice of them. A
transaction is one step. Where the source separates a read from the write that depends on it, the webhook, nonce,
limiter, idempotency and approval models separate them too and interleave the steps of any number of callers: a
processor's read from its claim or abandonment, and the read of an endpoint update, publish or replay from its write.
Each guarantee of such a protocol is stated with the exact condition under which it holds in all runs; for the other
configurations a run that breaks it is part of the proof.

The theorems use the predicates the services are specified with. What those come to is said a second time in the columns
of the tables and the fields of the inputs alone, error by error, in the modules and lemmas called Meaning or Means: who
may do what, which rows a query finds, what a call leaves as it was.

## What the proofs found

- **The idempotency index is gone.** `backend/README.md:231-233` promises one response per key. That holds in every
  interleaving exactly when the unique index exists or calls do not overlap (`Idempotency.IdempotencyProtocol`). The
  index is created in `backend/prisma/migrations/0004_phase9_request_hardening/migration.sql:11-14` and dropped, under
  its name cut to 63 bytes, in
  `backend/prisma/migrations/20260311223532_phase17_dashboard_redesign/migration.sql:28`; the schema file declares none.
  So two overlapping calls with one key can both succeed with different responses.
- **The nonce defaults leave no slack.** With a delay `d` between a request's checks and its insert, no replay is
  accepted exactly when the nonce lives at least `2 * maxAge + d` (`RequestNonces.ReplayWindow`). The defaults meet this
  for `d = 0` only (`RequestNonces.DefaultsAreTight`).
- **Backoff is not kept between batches.** Only the batch query looks at the due time, not the read or the claim
  (`backend/src/webhooks/webhooks.service.ts:715-764` against `853-881`). Attempts are spaced by the backoff exactly when
  no caller ignores the schedule and no two processors run at once (`WebhookTheorems.BackoffSpacing`). Neither holds:
  the interval processor, every ingest, an operations endpoint and every replay start a batch, and a replay ignores the
  schedule. Two batches that select one due row make its second attempt follow its first at once
  (`WebhookTheorems.TwoBatches`).
- **A delivered webhook can have been abandoned first, and one delivery abandoned twice.** The read of a disabled
  endpoint's delivery and its abandonment are two steps, and so are an endpoint update's read of the old status and its
  transaction (`backend/src/webhooks/webhooks.service.ts:343-346` and `361-392`). SUCCEEDED and ABANDONED are final
  exactly when processors do not overlap, or attempts end within the stale window and the abandonment is one step
  (`WebhookTheorems.SettledForever`). An abandonment is audited once exactly in that second case, or when processors do
  not overlap and the abandonment or the update is one step (`WebhookTheorems.AbandonmentIsAudited`): otherwise an update
  that goes by a status of the past leaves a delivery waiting on a disabled endpoint, and the partner overtakes the
  processor that is about to abandon it (`WebhookTheorems.OvertakenAbandonment`).
- **An attempt can go uncounted.** The attempt count is read before the claim that writes it, so two processors can
  write the same one (`WebhookTheorems.AttemptBound`, `WebhookTheorems.CountedOnce`).
- **A destination in force can be reported with a revocation.** A lookup reports the newest attestation by issue time,
  of any type, while the row follows the order of ingestion. Every answer carries the row's terms exactly when no
  attestation with other terms was issued at the row's time or later (`ReportedAttestation.ReportsTermsIff`); it does for a
  partner that issues in the order it submits. `ReportedAttestation.ReportedRevocation` is a reachable registry where it
  does not.
- **An identifier is unique per partner only.** A lookup of an identifier bound by two partners may answer with either
  one's address (`RegistryRoundTrip.ResolvesElsewhere`). Every answer is the attested destination exactly when no other
  recipient can be found under the identifier and no other network under chain and asset
  (`RegistryRoundTrip.IngestThenResolve`).
- **The limiter's maximum is exceeded by overlap.** With at most `k` allowed lookups of a partner between check and
  record, a window holds up to the maximum plus `k - 1`, and no smaller bound holds (`LookupRateLimit.LimitIsTight`).
  A lookup dates its retention before its check, so the bound is kept exactly when every short retention is longer than
  the window and the longest lookup together (`LookupRateLimit.SlidingWindow`).
- **A partner can have two pending production requests, and a settled one can be settled again.** The status is
  checked before the transaction and the update is by id alone (`backend/src/partners/partners.service.ts:1236-1258`,
  `1302-1361`). The workflow is in order in every interleaving exactly when calls that concern one partner do not
  overlap; overlap of calls on different partners is harmless (`ApprovalProtocol.WorkflowOrder`,
  `ApprovalProtocol.SettledRequestsStay`).
- **A batch row takes identifiers that verify refuses.** The limits are 160 and 128 characters. A row agrees with a
  single verify call exactly unless its identifier is between them and nothing else is wrong with it
  (`BatchTheorems.RowAgreesWithVerify`).

## Model

| member | source | states |
|---|---|---|
| DeliveryRetry.RetryDelayShape | backend/src/webhooks/delivery-retry.util.ts:15-24 | the delay is non-decreasing in the attempt number, doubles from one minute up to the fifth attempt, and is the 30-minute cap exactly from the sixth on |
| DeliveryRetry.ShouldAbandonWebhookDelivery | backend/src/webhooks/delivery-retry.util.ts:26-32 | an attempt number below one is an error, and only that; otherwise the answer is yes exactly from the fifth attempt on |
| WebhookTables.FanOut | backend/src/webhooks/webhooks.service.ts:672-710 | publishing adds exactly one fresh delivery for every active endpoint of the partner that subscribes to the event, and none for any other |
| WebhookTables.AbandonPendingAudits | backend/src/webhooks/webhooks.service.ts:1042-1098 | disabling an endpoint writes one audit record for each delivery it abandons and none for any other |
| WebhookProcessing.ProcessOneFrame | backend/src/webhooks/webhooks.service.ts:799-1039 | processing one delivery changes no other delivery, adds no row and leaves every endpoint's status |
| WebhookProcessing.BatchRowsWaitTheirTurn | backend/src/webhooks/webhooks.service.ts:712-797 | in a batch that nothing interrupts, each delivery is found as it was when selected, due if the schedule counts, and is not skipped; WebhookTheorems.BatchesWaitTheirTurn is about the others |
| WebhookProcessing.TerminalRowsStay | backend/src/webhooks/webhooks.service.ts:799-851 | processing a SUCCEEDED or ABANDONED delivery any number of times changes nothing |
| WebhookProcessing.RetriesTerminate | backend/src/webhooks/webhooks.service.ts:799-997 | without crashes a pending delivery of an endpoint that is not paused ends within five attempts, and ends SUCCEEDED exactly when its endpoint is active and some attempt within the bound is answered ok; one of a paused endpoint waits unchanged |
| WebhookProcessing.PausedRowsWait | backend/src/webhooks/webhooks.service.ts:830-851 | processing a delivery of a paused endpoint, any number of times, changes nothing |
| WebhookMeaning.ResultMeans | backend/src/webhooks/webhooks.service.ts:799-997 | which of the four results a processing has, by the columns of its row and endpoint and by what the receiver answers |
| WebhookMeaning.ResultIsInTheRow | backend/src/webhooks/webhooks.service.ts:883-1039 | a result is SUCCEEDED, ABANDONED or RESCHEDULED exactly when the row has become so, and SKIPPED exactly when nothing changed; with the times, counts and audit records each leaves |
| WebhookMeaning.BatchCounts | backend/src/webhooks/webhooks.service.ts:762-797 | each of the four counters is the number of results of its kind, and each result is what became of its delivery |
| WebhookMeaning.BatchMeans | backend/src/webhooks/webhooks.service.ts:712-764 | a batch holds each wanted delivery of an active endpoint once, by time and age, and leaves out none but for the limit, and then the last ones |
| WebhooksServiceModel.WebhooksService.EnqueuePartnerWebhookEvent | backend/src/webhooks/webhooks.service.ts:672-710 | the loop over the endpoints builds the specified deliveries |
| WebhooksServiceModel.WebhooksService.ReplayWebhookDelivery | backend/src/webhooks/webhooks.service.ts:584-657 | an undisturbed replay is a new pending delivery of the same endpoint and event, refused for an unknown delivery and for a disabled endpoint, followed by a batch of one that ignores the schedule |
| WebhooksServiceModel.WebhooksService.UpdateWebhookEndpoint | backend/src/webhooks/webhooks.service.ts:338-418 | an undisturbed update changes the endpoint's fields, and disabling it abandons its pending deliveries in the same step; errors leave the tables alone |
| WebhooksServiceModel.WebhooksService.WriteEndpointUpdate | backend/src/webhooks/webhooks.service.ts:361-392 | the transaction goes by the status read before it, whatever the endpoint's status is by then |
| WebhooksServiceModel.WebhooksService.AbandonPendingDeliveriesForEndpoint | backend/src/webhooks/webhooks.service.ts:1042-1098 | every pending delivery of the endpoint, and only those, is abandoned and audited |
| WebhooksServiceModel.WebhooksService.HandleFailedDeliveryAttempt | backend/src/webhooks/webhooks.service.ts:958-997 | a failed attempt is rescheduled by the backoff or, at the fifth, abandoned |
| WebhooksServiceModel.WebhooksService.ProcessWebhookDeliveryById | backend/src/webhooks/webhooks.service.ts:799-956 | read, decision, claim and outcome together are the specified processing, and return its result |
| WebhooksServiceModel.WebhooksService.ProcessPendingDeliveries | backend/src/webhooks/webhooks.service.ts:712-797 | the loop processes the batch in order, and each of its four counters is the number of results of that kind |
| WebhookProtocol.EnvironmentOnOldRow | backend/src/webhooks/webhooks.service.ts:338-418 | every step of a publish, a replay or an endpoint update, also one that goes by a status of the past, leaves an existing row as it is or abandons it from PENDING with one audit record |
| WebhookProtocol.RunKeepsLease | backend/src/webhooks/webhooks.service.ts:799-956 | if attempts end within the stale window or processors do not overlap, exclusion and the link between a held row and its holder survive every interleaving |
| WebhookTheorems.LeaseSafety | backend/src/webhooks/webhooks.service.ts:853-881 | in no interleaving do two processors hold one delivery, exactly when every attempt that does not crash ends strictly within the stale window of its claim, or no two processors run at once |
| WebhookTheorems.HeldRowsCarryTheirClaim | backend/src/webhooks/webhooks.service.ts:853-885 | then the row of a held delivery is PROCESSING with its holder's attempt count and claim time, unless a two-step abandonment by another processor has turned it ABANDONED |
| WebhookTheorems.SettledForever | backend/src/webhooks/webhooks.service.ts:835-846 | SUCCEEDED and ABANDONED rows never change in any run, exactly when no two processors run at once, or attempts end within the stale window and reading and abandoning a disabled endpoint's delivery are one step |
| WebhookTheorems.DeliveryLifeCycle | backend/src/webhooks/webhooks.service.ts:915-1095 | FAILED is never written, PENDING means fewer than five attempts, and a next attempt time means PENDING, in every run exactly when no two processors run at once or attempts end within the stale window |
| WebhookTheorems.AbandonmentIsAudited | backend/src/webhooks/webhooks.service.ts:999-1095 | in every run a delivery has one abandonment record if it is ABANDONED and none otherwise, exactly when attempts end within the stale window and a processor's abandonment is one step, or no two processors run at once and that abandonment or an endpoint update is one step |
| WebhookTheorems.AttemptBound | backend/src/webhooks/webhooks.service.ts:852-997 | in every run the attempt count is the number of claims, and claims never exceed five plus the crashed attempts, exactly when no two processors run at once, or reading and claiming are one step and attempts end within the stale window |
| WebhookTheorems.BackoffSpacing | backend/src/webhooks/webhooks.service.ts:715-764 | in every run, endpoint changes and crashes included, the n-th attempt (n at most 5) of a crash-free delivery starts at least 60000 * (2^(n-1) - 1) ms after the first, exactly when no caller ignores the schedule and no two processors run at once |
| WebhookTheorems.BatchesWaitTheirTurn | backend/src/webhooks/webhooks.service.ts:712-797 | in every run, whatever comes between the deliveries of a batch, the next delivery is due if it is pending, exactly under the condition of BackoffSpacing |
| WebhookTheorems.TakenOver | backend/src/webhooks/webhooks.service.ts:1169-1178 | from any waiting delivery, a run with two holders, for every configuration whose attempts may last the stale window |
| WebhookTheorems.SettledUnderAnAttempt | backend/src/webhooks/webhooks.service.ts:835-846 | a run in which a settled delivery has an attempt still under way, for every configuration outside the condition of SettledForever |
| WebhookTheorems.IgnoredSchedule | backend/src/webhooks/webhooks.service.ts:648-651 | one processor alone retries a failed delivery at once, if a caller may ignore the schedule |
| WebhookTheorems.TwoBatches | backend/src/attestations/attestations.service.ts:320-324 | two processors that respect the schedule select one due delivery; the second attempt follows the failed first at once |
| WebhookTheorems.CountedOnce | backend/src/webhooks/webhooks.service.ts:852-881 | two processors read the same attempt count, and two claims count as one |
| WebhookTheorems.AuditedTwice | backend/src/webhooks/webhooks.service.ts:999-1095 | a run in which one delivery is abandoned twice, for every configuration outside the condition of AbandonmentIsAudited |
| WebhookTheorems.OvertakenAbandonment | backend/src/webhooks/webhooks.service.ts:338-392 | in any configuration that separates the reads of updates and of abandonments from their writes, a run of a lone processor with two abandonment records of one delivery |
| RequestNonces.CheckRequest | backend/src/security/request-hardening.service.ts:64-90 | a request that passes is at most the maximum age away from its own timestamp, on either side |
| RequestNonces.RequestHardeningService.AssertAttestationReplayProtection | backend/src/security/request-hardening.service.ts:64-125 | all checks pass or the table is unchanged; a nonce is stored unless its key exists, with the error that fits the stored payload or the row's being gone when it is read back |
| RequestNonces.RequestHardeningService.CleanupExpiredRequestNonces | backend/src/security/request-hardening.service.ts:227-238 | exactly the expired nonces go, and the count says how many |
| RequestNonces.ReplayWindow | backend/src/security/request-hardening.service.ts:64-125 | no run of concurrent requests and cleanups accepts a (credential, nonce, timestamp) twice, exactly when the nonce lives at least twice the maximum age plus the time between checks and insert |
| RequestNonces.DefaultsAreTight | backend/src/config/environment.ts:108-117 | the defaults are safe exactly when checks and insert are one step |
| LookupRateLimit.ResolutionRequests.EvaluateResolutionLookup | backend/src/security/request-hardening.service.ts:127-225 | the counting loop decides as specified: the window's requests first, then the distinct identifiers |
| LookupRateLimit.EvaluateMeans | backend/src/security/request-hardening.service.ts:127-225 | a partner is limited exactly if the number of its requests in the window has reached the maximum; otherwise a key it looked up lately is allowed, and a new one exactly while those keys are fewer than their maximum |
| LookupRateLimit.ResolutionRequests.Lookup | backend/src/resolution/resolution.service.ts:1951-2015 | a lookup is recorded whether it was allowed or blocked; an allowed one with the retention dated before its check, a blocked one with a retention dated anew |
| LookupRateLimit.ResolutionRequests.CleanupHistoricalResolutionRequests | backend/src/resolution/resolution.service.ts:1200-1243 | exactly the rows past their retention go, in order, and the count says how many |
| LookupRateLimit.SlidingWindow | backend/src/security/request-hardening.service.ts:133-160 | with at most k allowed lookups of a partner between check and record, and these taking at most a given delay, every closed window of the configured length holds at most maximum + k - 1 of them, in every run with blocked lookups, batch rows and cleanups, exactly when every short retention is longer than the window and the delay together and the standard one at least as long as the window |
| LookupRateLimit.LimitIsTight | backend/src/resolution/resolution.service.ts:1951-2015 | no smaller bound holds: a bound is kept exactly when it is at least maximum + k - 1, so the maximum itself exactly when lookups do not overlap |
| LookupRateLimit.DefaultsAreBounded | backend/src/config/environment.ts:170-184 | the defaults keep 119 + k for every short retention of at least an hour, exactly while a lookup takes less than an hour less the window |
| Idempotency.ResolutionRequestStore.FindStoredIdempotentRequest | backend/src/resolution/resolution.service.ts:1892-1925 | a miss means no key or no row of it; an answer is a response stored under the key with the same fingerprint; a conflict means a row of the key with another fingerprint |
| Idempotency.ResolutionRequestStore.RecordResolutionRequest | backend/src/resolution/resolution.service.ts:2017-2092 | the insert appends a row unless the unique index refuses it |
| Idempotency.ResolutionRequestStore.Serve | backend/src/resolution/resolution.service.ts:245-334 | an undisturbed call answers from the stored row without effect, or stores and returns what it computed |
| Idempotency.IdempotencyProtocol | backend/src/resolution/resolution.service.ts:299-334 | in every interleaving all responses with one key between cleanups are the same response to the same request, and a conflict is told only to a different request, exactly when the unique index exists or calls do not overlap |
| Idempotency.ReportedIsStored | backend/src/resolution/resolution.service.ts:1892-1925 | what a finished call reported is what the one stored row of its key says, until a cleanup removes it |
| Idempotency.OverlappingRetriesDisagree | backend/prisma/migrations/20260311223532_phase17_dashboard_redesign/migration.sql:27-28 | without the index two overlapping retries can both succeed with different responses |
| Normalization.SlugIsNormal | backend/src/common/normalization/normalization.service.ts:20-26 | normalizing a slug, identifier or asset code again changes nothing |
| NormalForms.WordsMean | backend/src/common/normalization/normalization.service.ts:20-44 | two identifiers, slugs, codes or symbols have one normal form exactly if they are the same word but for case and surrounding space; blank ones have none |
| NormalForms.TrimMeans | backend/src/common/normalization/normalization.service.ts:142-150 | trimming cuts off space at either end, all of it and nothing else |
| Normalization.ChainIsNormal | backend/src/common/normalization/normalization.service.ts:28-32 | every alias leads to a slug that is its own normal form |
| Normalization.AddressIsNormal | backend/src/common/normalization/normalization.service.ts:46-75 | a normalized address is accepted again and is its own normal form, on the chain or any alias of it, trimmed or not |
| NormalForms.AddressMeans | backend/src/common/normalization/normalization.service.ts:46-75 | which addresses are accepted on which chains, character by character, and whose case is kept |
| Normalization.CountSharedPrefixLength | backend/src/common/normalization/normalization.service.ts:152-161 | the longest common prefix |
| Normalization.CountSharedSuffixLength | backend/src/common/normalization/normalization.service.ts:163-174 | the longest common suffix |
| Normalization.AddressLooksLikeReference | backend/src/common/normalization/normalization.service.ts:115-140 | the two counting loops decide exactly whether two long, different addresses share four characters at either end |
| RegistryServices.RegistryDatabase.UpsertRecipient | backend/src/recipients/recipients.service.ts:61-88 | the recipient exists afterwards, active, under the given name |
| RegistryServices.RegistryDatabase.UpsertIdentifier | backend/src/recipients/recipients.service.ts:90-133 | the identifier points at the recipient afterwards, active and resolvable |
| RegistryServices.RegistryDatabase.CreatePartnerRecipient | backend/src/recipients/recipients.service.ts:328-435 | recipient and identifier are created together, or nothing is, with the error of the first check that fails |
| RegistryServices.RegistryDatabase.DisablePartnerRecipient | backend/src/recipients/recipients.service.ts:492-527 | an active recipient of the partner is suspended; anything else is an error without effect |
| RegistryServices.RegistryDatabase.ResolveAttestationCorridor | backend/src/attestations/attestations.service.ts:426-488 | the search finds the first active corridor with all the attested properties, or fails |
| RegistryServices.RegistryDatabase.ApplyDestinationAttestation | backend/src/attestations/attestations.service.ts:490-593 | a revocation revokes the one row or fails; any other attestation revokes the other active rows of the slot and makes its own the active default |
| RegistryServices.RegistryDatabase.MaterializeAttestation | backend/src/attestations/attestations.service.ts:185-319 | all four tables change as specified, or every write of the failed transaction is undone |
| RegistryServices.RegistryDatabase.CreateAttestation | backend/src/attestations/attestations.service.ts:83-346 | the whole ingest, error by error in the order of the source; nothing the signing-key, signature or replay checks refuse gets through, nor anything under another slug |
| RegistryServices.RegistryDatabase.CreatePartnerDestination | backend/src/destinations/destinations.service.ts:221-329 | one PENDING row is added, other defaults of the slot cleared if it is to be the default; errors leave the table alone |
| RegistryServices.RegistryDatabase.RevokePartnerDestination | backend/src/destinations/destinations.service.ts:331-373 | the partner's row is revoked once; a second revocation is a conflict |
| RegistryServices.RegistryDatabase.ReplacePartnerDestination | backend/src/destinations/destinations.service.ts:375-431 | the new row is created first, then the old one is withdrawn whatever its status; a failed creation changes nothing |
| Registry.FindNetwork | backend/src/destinations/destinations.service.ts:433-462 | the network found matches, and none is found only if none matches |
| RegistryTheorems.StepKeeps | backend/src/attestations/attestations.service.ts:490-593 | one call of any service keeps the tables consistent and in agreement with the replay of its change |
| RegistryTheorems.RunKeeps | backend/src/destinations/destinations.service.ts:281-430 | so does every run |
| RegistryMeaning.LogIsGuarded | backend/src/attestations/attestations.service.ts:106-153 | a call that changes the attestation log is an attestation that passed its checks, under the slug of the partner that made it, and logs what it said |
| RegistryMeaning.AssignmentsAreSigned | backend/src/attestations/attestations.service.ts:106-250 | in every run each assignment in the log was made by such a call, of the partner's own recipient, with its address, window and issue time |
| RegistryMeaning.AssignmentMeans | backend/src/attestations/attestations.service.ts:530-592 | an assignment makes its row the active default; of the other rows exactly the active ones of its slot are revoked, as of when it takes effect, and no other changes |
| RegistryLog.ReplayMeaning | backend/src/attestations/attestations.service.ts:530-592 | the replay holds an assignment exactly if no later change took its slot or withdrew it |
| RegistryLog.LogRefinement | backend/src/attestations/attestations.service.ts:490-593 | at every point of every run a destination is ACTIVE exactly when an accepted attestation assigned it and no later accepted call assigned its slot or withdrew the same address and memo; the row carries that attestation's address, window and issue time, and that attestation passed its checks and was made by the recipient's own partner under its slug |
| RegistryLog.DestinationRows | backend/src/destinations/destinations.service.ts:281-430 | in every reachable state: at most one ACTIVE row per recipient and network, a revocation time on exactly the REVOKED rows, no REVOKED default, EXPIRED never written, and each key is the normal form of the raw address beside it |
| RegistryLog.ActiveRowsAreBacked | backend/src/attestations/attestations.service.ts:212-250 | the last verified attestation ingested for an ACTIVE row is no revocation, is by the recipient's own partner, and carries the row's terms |
| RegistryLog.LogIsAppendOnly | backend/src/attestations/attestations.service.ts:221-250 | the attestation log only grows |
| RegistryLog.SequenceIdempotency | backend/src/attestations/attestations.service.ts:154-181 | a stored sequence number is answered at every later point with its identifier and no effect, or with a conflict if the payload differs |
| RegistryLog.AcceptedIsStored | backend/src/attestations/attestations.service.ts:221-250 | what an accepted call answers with is the row of its sequence number and payload |
| RegistryRoundTrip.IngestThenResolve | backend/src/attestations/attestations.service.ts:185-319 | right after an attestation is ingested every lookup of its identifier on its corridor, whatever rows its queries pick, resolves to the attested destination, exactly when its window is open, its partner is active, no other recipient is found under the identifier and no other network under chain and asset; after a revocation none resolves to it |
| RegistryRoundTrip.FoundIffUnrivalled | backend/src/resolution/resolution.service.ts:1385-1493 | the same for any destination in force, at any time |
| RegistryRoundTrip.ResolvesElsewhere | backend/src/recipients/recipients.service.ts:135-166 | a reachable registry in which two partners bind one identifier, and the lookup answers with the other one's destination |
| LookupTheorems.ForwardIsUnambiguous | backend/src/resolution/resolution.service.ts:1432-1462 | the forward lookup never finds two destinations; its AMBIGUOUS branch is unreachable |
| LookupTheorems.ForwardIsExact | backend/src/resolution/resolution.service.ts:1385-1493 | it resolves exactly when a row of the recipient on the network is ACTIVE with its window open now, and returns that one |
| LookupMeaning.ResolvedMeans | backend/src/recipients/recipients.service.ts:135-197 | a RESOLVED answer is safe to send to and names an active, resolvable identifier of the value, of an active recipient and partner, an active network, and an ACTIVE row with its window open now, whose address it gives |
| LookupMeaning.UnresolvedMeans | backend/src/resolution/resolution.service.ts:1385-1462 | every other answer gives no address, and says unknown recipient, unsupported asset or no verified destination exactly when that is so |
| LookupTheorems.BackedResolution | backend/src/resolution/resolution.service.ts:1464-1697 | a RESOLVED answer in either direction names an attestation of its destination, whose terms are those of some verified assignment by the same partner |
| ReportedAttestation.ReportsTermsIff | backend/src/resolution/resolution.service.ts:1464-1472 | in every reachable registry the newest attestation of an ACTIVE destination carries the row's terms, whichever of equals the query picks, exactly when no attestation with other terms was issued at the row's attestation time or later |
| ReportedAttestation.ResolvedReportsTerms | backend/src/resolution/resolution.service.ts:1464-1493 | so a RESOLVED forward answer reports the terms of its destination in every choice of the query, exactly under that condition |
| ReportedAttestation.ConfirmedReportsTerms | backend/src/resolution/resolution.service.ts:1656-1697 | and a RESOLVED reverse answer |
| ReportedAttestation.InOrderReportsTerms | backend/src/attestations/attestations.service.ts:490-593 | a partner that issues the attestations of a destination in the order it submits them is always reported with the row's terms |
| ReportedAttestation.ReportedRevocation | backend/src/resolution/resolution.service.ts:1464-1472 | a reachable registry with a destination in force whose newest attestation is a revocation |
| LookupTheorems.VerifyIsExact | backend/src/resolution/resolution.service.ts:1700-1775 | verify says verified, and safe to send, exactly when the given address, normalized, is the one in force for the recipient; another address than the resolved one is a mismatch not to be sent to; whatever it does not verify is HIGH risk and flagged |
| LookupMeaning.VerifyMeans | backend/src/resolution/resolution.service.ts:1700-1775 | verify recommends sending exactly when it verifies; another address than the resolved one is MISMATCH, do not send, with the mismatch flag, and the look-alike flag exactly when both have ten characters and agree in four at either end |
| LookupMeaning.DisabledIsUnreachable | backend/src/recipients/recipients.service.ts:492-527 | once a recipient is disabled neither lookup leads to it |
| LookupAgreement.VerifyAgrees | backend/src/resolution/resolution.service.ts:548-589 | what the forward lookup resolves, verify verifies |
| LookupAgreement.ConfirmAgrees | backend/src/resolution/resolution.service.ts:1495-1698 | what the forward lookup resolves, the reverse lookup finds on the owner's platform; if it settles on one, on the same |
| LookupAgreement.ResolveThenVerify | backend/src/resolution/resolution.service.ts:467-589 | the same from the caller's inputs: verify accepts the address exactly if it has at most 200 characters, and then verifies it |
| LookupAgreement.ResolveThenConfirm | backend/src/resolution/resolution.service.ts:339-440 | the same from the caller's inputs for confirmAddress, never NO_MATCH |
| LookupAgreement.ConfirmIsExact | backend/src/resolution/resolution.service.ts:1527-1698 | no match exactly when no row with the address is in force with an active owner; confirmed exactly when there is one and no second |
| LookupMeaning.ConfirmedMeans | backend/src/resolution/resolution.service.ts:1527-1698 | the same in columns: a row counts if it is ACTIVE with its window open now and of an active recipient and partner, the platform asked for or a listed one; with the recommendation, flags, risk and platform of each answer, and a platform asked for exactly when the rows are of several partners and none was given |
| LookupAgreement.OfferedCandidates | backend/src/resolution/resolution.service.ts:1608-1636 | the platforms offered are listed partners of matching rows under their slug and name, each once, sorted by name, at least two |
| LookupMeaning.AmbiguousMeans | backend/src/resolution/resolution.service.ts:1594-1655 | an ambiguous answer lists every partner of a confirmable row and no other, each once, by name |
| LookupAgreement.SecondCall | backend/src/resolution/resolution.service.ts:1553-1654 | asking again with an offered platform finds a match and asks no more |
| LookupAgreement.PlatformDialogue | backend/src/resolution/resolution.service.ts:339-440 | both, from the caller's inputs: the dialogue ends in two calls |
| BatchVerify.BatchVerifier.MeetsRequirements | backend/src/resolution/resolution.service.ts:2338-2367 | the pre-check passes exactly if every row meets it |
| BatchVerify.BatchVerifier.ProcessRows | backend/src/resolution/resolution.service.ts:696-990 | the loop with its early exit and four counters returns and stores the evaluation of the processed rows |
| BatchVerify.BatchVerifier.BatchVerify | backend/src/resolution/resolution.service.ts:638-1018 | a batch is refused without a trace exactly if a pre-check fails; otherwise one completed run is stored with its rows and counts |
| BatchTheorems.ProcessedIsAPrefix | backend/src/resolution/resolution.service.ts:984-990 | the processed rows are a prefix, whole without the flag, and cut only behind the first risky row |
| BatchTheorems.CountsAddUp | backend/src/resolution/resolution.service.ts:950-962 | each processed row is counted once |
| BatchMeaning.CountsMean | backend/src/resolution/resolution.service.ts:950-962 | a row is counted as verified if it is, as unsupported if it is not and says so, and otherwise as blocked |
| BatchTheorems.RowIsDecided | backend/src/resolution/resolution.service.ts:716-948 | every row is either verified without risk or HIGH or CRITICAL, errors included |
| BatchTheorems.BatchRefinement | backend/src/resolution/resolution.service.ts:696-1017 | the response is the evaluation of a prefix in order, the counts add up, there are no warnings, with the stop flag all rows but the last are verified, and a batch cut short ends in a risky row |
| BatchTheorems.RowAgreesWithVerify | backend/src/resolution/resolution.service.ts:737-842 | a recipient row says what a single verify call says, exactly unless its identifier has 129 to 160 characters and the row is valid otherwise |
| BatchMeaning.AddressRowAgreesWithConfirm | backend/src/resolution/resolution.service.ts:843-948 | an address row says what confirmAddress says of its address on the platform it names, and is an invalid request where that call fails |
| BatchMeaning.VerifiedAddressRow | backend/src/resolution/resolution.service.ts:843-948 | a verified address row is of a destination in force with that address at the partner with the slug it names |
| BatchMeaning.RecordedOutcomeMeans | backend/src/resolution/resolution.service.ts:759-842 | the outcome recorded for a recipient row is RESOLVED exactly if it is verified, and a mismatch exactly if it says not to send |
| BatchTheorems.LongRowDisagrees | backend/src/resolution/resolution.service.ts:732-738 | an identifier of 129 characters is evaluated in a batch and refused by verify |
| ProductionApproval.PartnersService.CreatePartner | backend/src/partners/partners.service.ts:417-497 | the new partner has a slug no other has and no production, data-partner or full-attestation capability; a malformed slug and a taken one are refused without effect |
| ProductionApproval.PartnersService.RequestProductionApproval | backend/src/partners/partners.service.ts:1092-1207 | guard by guard, one PENDING request is appended or nothing changes |
| ProductionApproval.PartnersService.CancelProductionApprovalRequest | backend/src/partners/partners.service.ts:1209-1286 | only an own pending request is cancelled |
| ProductionApproval.PartnersService.GrantCorridors | backend/src/partners/partners.service.ts:1394-1424 | the upsert loop grants exactly the approved corridors |
| ProductionApproval.PartnersService.ReviewProductionApprovalRequest | backend/src/partners/partners.service.ts:1288-1495 | a pending request is settled; approval turns production on and opens in the same step exactly the corridors the reviewer names or, if none, those requested |
| ProductionApproval.PartnersService.UpdatePartnerAdminState | backend/src/partners/partners.service.ts:1497-1660 | an edit that would break a rule is refused without effect |
| ProductionApproval.PartnersService.UpdatePartnerProductionCorridor | backend/src/partners/partners.service.ts:1662-1760 | one corridor is granted or revoked, keeping its grant time when revoked |
| ApprovalTheorems.ApprovalWorkflow | backend/src/partners/partners.service.ts:1092-1540 | in every state reached by undisturbed calls production, the final stage and an APPROVED latest request are one; full attestation implies data partner; every earlier request was refused or withdrawn, so at most one is PENDING and it is the latest; GRANTED exactly without a revocation time |
| ApprovalTheorems.SettledForever | backend/src/partners/partners.service.ts:1238-1345 | under undisturbed calls a settled request never changes again and production is never withdrawn |
| ApprovalProtocol.CheckThenWrite | backend/src/partners/partners.service.ts:1209-1286 | a call's checks followed at once by its transaction are the undisturbed call |
| ApprovalProtocol.OthersStayGood | backend/src/partners/partners.service.ts:1302-1361 | what a call has found out about a partner before its transaction still holds after the transaction of a call on another partner |
| ApprovalProtocol.WorkflowOrder | backend/src/partners/partners.service.ts:1092-1207 | the order of ApprovalWorkflow holds in every interleaving of checks and transactions, exactly when calls that concern one partner do not overlap, however those of different partners do |
| ApprovalProtocol.SettledRequestsStay | backend/src/partners/partners.service.ts:1236-1361 | settled requests stay as they are in every interleaving, exactly under the same condition |
| ApprovalProtocol.TwoPending | backend/src/partners/partners.service.ts:1111-1207 | two overlapping requests of one partner leave two PENDING rows |
| ApprovalProtocol.SettledTwice | backend/src/partners/partners.service.ts:1302-1361 | after a review that overlaps a cancellation the request is first CANCELLED and then REJECTED |
| ApprovalProtocol.SlugsAlwaysKept | backend/src/partners/partners.service.ts:417-497 | slugs stay unique and normal in every interleaving |
| Directory.SlugsAreOk | backend/src/partners/partners.service.ts:417-497 | so the partner rows the lookups read meet the slug condition their theorems require |
| ApprovalTheorems.OnlyApprovalEnables | backend/src/partners/partners.service.ts:1383-1425 | only an approval turns production on, and it opens exactly the approved corridors of that partner |
| ApprovalTheorems.RequestIsAccepted | backend/src/partners/partners.service.ts:1096-1139 | in every reachable state a request passes the guards exactly when an active owner or admin makes it for a partner that has taken every onboarding step its capabilities ask for, is healthy if it contributes data, and has only refused or withdrawn requests behind it |
| ApprovalTheorems.RequestedCorridorsAreOpened | backend/src/partners/partners.service.ts:1318-1425 | approving a request opens exactly the corridors the reviewer names or, if none are named, those it asked for when it was made, and leaves every other as it was, after any calls in between that leave the request pending |
| ApprovalMeaning.ReviewMeans | backend/src/partners/partners.service.ts:1302-1425 | a review succeeds exactly for a pending request with active corridors and, to approve, some corridor; it settles that request only; with corridors named it records and opens those, otherwise those requested, and every other corridor, request and partner is as before |
| ApprovalTheorems.GateAgreement | backend/src/partners/partners.service.ts:3474-3571 | for every actor the session check lets in, the endpoint's guards pass exactly when canRequest holds and exactly when blockedReason is empty |
| ApprovalTheorems.GateNeedsActiveAccount | backend/src/partners/partners.service.ts:2619-2690 | for an actor not checked to be active, canRequest and blockedReason still agree, and an active account is exactly what the guards ask for beside |
| ApprovalMeaning.NextActionMeans | backend/src/partners/partners.service.ts:3422-3472 | what is recommended next is to wait for a review under way, or else the first onboarding step the partner has not taken |
| ApprovalMeaning.BlockedReasonMeans | backend/src/partners/partners.service.ts:3529-3582 | the reason the dashboard gives is the first thing that stands in the way of a request, and there is none exactly if nothing does |
| ApprovalTheorems.CancelAgreement | backend/src/partners/partners.service.ts:3508-3511 | for every actor the session check lets in, canCancel holds exactly when the actor can cancel some request |
| AuditCsv.CsvRoundTrip | backend/src/audit/audit.service.ts:316-357 | reading the export by the quoted-field rules of section 2 of RFC 4180, with LF between records, gives back exactly the header and the rows, whatever commas, quotes and newlines the fields hold |
| AuditCsv.ExportIsInjective | backend/src/audit/audit.service.ts:316-357 | two logs with the same export have the same rows of fields |
| AuditCsv.ColumnsAreNamed | backend/src/audit/audit.service.ts:329-354 | every column holds the field its header names |

## Left out

- ApprovalTheorems.ApprovalWorkflow: lists requests in the order they were made, which is the order of their creation times.
- LookupRateLimit.DefaultsAreBounded: does not cover partners that retain nothing; their records go at once, and SlidingWindow shows that the bound is then lost.
- WebhookProtocol.RunKeepsLease: takes a transaction as one step, and a clock reading and the statement it dates as one; what READ COMMITTED lets in between the statements of a transaction is not modelled.
- LookupRateLimit.ResolutionRequests.CleanupHistoricalResolutionRequests: leaves out the batch rows the source also deletes by their own dates and adds to the count.
- RegistryLog.LogRefinement: takes an ingest transaction as one step and a manual change with its checks as one step; overlapping transactions under weak isolation are not modelled.
- LookupRateLimit.ResolutionRequests.EvaluateResolutionLookup: takes the identifiers of the second window as an argument; no bound on them is claimed, since blocked attempts are recorded and the scan has a limit. The error for an empty stored key is not modelled.
- HTTP, DNS checks, `fetch`, controllers, guards, Prisma and Postgres: an HTTP outcome is ok, not ok, an exception or a crash, and a query is a filter over a table.
- Webhook response codes, error texts, signing secrets, URL validation and test deliveries.
- Hashing, signatures, sealing and blind indexes: a payload hash is a number, the signing-key, signature and replay checks of an ingest are one argument, and a blind index is taken to match exactly when the plain value does.
- Encrypted submissions of identifiers and addresses; inputs are plaintext.
- Case mapping and string length outside ASCII; chains, slugs, identifiers and symbols are mapped on ASCII letters.
- Display names and disclosure masking in lookup results, and the primary identifier reported by the reverse lookup.
- The recorded outcome of a single verify call, which differs from that of a batch row; the response fields agree.
- Editing a recipient's name or profile, which the lookups modelled here do not read.
- The name collation: the order of candidate platforms is given by a rank on the partner row.
- Creating, inviting and deactivating users; in runs of the approval workflow the user table may change in any way at any step.
- The rows of resolution requests and audit events written beside each batch row, and a failure to store the row of a failed evaluation, which ends the whole batch.
- Overview and feed-health aggregation, pricing, login scopes and secrets, the dashboard and site code: configuration, sums or one-branch checks.
