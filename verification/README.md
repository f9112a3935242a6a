# Household authority service: a verified model

Hermes Home decides who may hold a conversation in a household. Endpoints enrol
and receive credentials, personal clients receive grants on Profiles, wake
detections compete for a Room, claims on conversations run out or are taken
away, and typed choices are answered once. This project models the state
machines behind those decisions and proves what they keep over every run.

Each component has four layers:

- a specification of its state and operations as functions (`Credentials`,
  `Claims`, `Choices`, `Arbitration`, the first half of `DiagnosticsLog`);
- laws proved about that specification over all runs (`CredentialInvariants`,
  `Authentication`, `Replacements`, `Enrollment`, `ClientGrants`, `Projections`,
  `ClaimInvariants`, `ClaimExpiry`, `ClaimRetirement`, `ChoiceInvariants`,
  `ArbitrationLaws`, and `Handshake` and `HandshakeProgress` across the two
  stores);
- the exact answers: when each operation succeeds, which refusal it gives
  otherwise and what it writes, stated on the records alone without the
  functions that compute it (`EnrollmentAnswers`, `CredentialAnswers`,
  `GrantAnswers`, `ClaimAnswers`, `ChoiceAnswers`, `ArbitrationAnswers`,
  `HandshakeAnswers`);
- the running form, with the loops and in-place updates of the service, proved
  against the specification and, where it holds state, proved to keep the
  component's invariants (`CredentialService`, `ConversationStore`,
  `ChoiceAuthority`, `ArbitrationEngine`, `Configuration`, the class in
  `DiagnosticsLog`).

`Handshake` is the centre. No lock spans the credential store and the claim
table: a claim request authenticates, creates, then checks again and discards,
while a renewal, rotation, revocation or re-enrollment commits first and closes
claims afterwards. The model interleaves any number of such requests, one store
access per move, with every other operation of both stores and with restarts.
`HandshakeProgress` shows that the quiet states its theorems speak of are always
within reach of the requests' own accesses, that exactly the claims whose
authority still stands survive until then, and that there are such states.

Times are reals. Clock readings, tokens and identifiers drawn from factories are
arguments; a run requires them fresh where the service relies on that. A stored
digest is the token itself, and AES-GCM is a constructor that gives its
plaintext back only under the associated data it was made with. A table read or
write that fails is an argument of the operation and leaves the table as it was.
`consume_request`, `approve_request`, `reject_request`, `submit_request` and
`_replace_credential` mark a record expired and then raise; the transaction is
rolled back, so those marks never reach the store and the model keeps the state
an error started from.

## What the proofs turned up

- `_expire` drops the connected marker before it knows whether its timer was
  stale, so a stale timer can hide a live conversation from the Watch
  (`ClaimExpiry.StaleTimerHidesFromWatch`, with the exact condition in
  `ClaimExpiry.StaleTimerAndWatch`).
- `client_claim_binding` does not look at deadlines and answers for a claim that
  has run out until something closes it (`ClaimExpiry.OverdueBindingAnswers`,
  exact condition in `ClaimExpiry.BindingNeedsTheSweep`).
- `mark_disconnected` restarts the reconnect grace of a claim whose grace is
  already over but not yet swept (`ClaimExpiry.LateDisconnectExample`, exact
  condition in `ClaimExpiry.LateDisconnectRevives`).
- `_write` rotates before it refuses a record that can never fit, so a refused
  record can cost the log its oldest file (`DiagnosticsLog.RefusedRecordEvicts`).
  A run of refused records rotates once at most, and loses that one file exactly
  when it rotates and the last slot is taken (`DiagnosticsLog.RefusedRunLoses`).
- A rotation or renewal that is repeated after its own generation was replaced
  again still answers that older generation, and the handler then closes every
  claim of another one, those of the newest generation included
  (`HandshakeAnswers.LateRetryClosesNewest`, exact condition in
  `HandshakeAnswers.CommitsSpareCurrent`).
- A touch binding is validated as a list of distinct values, so a binding whose
  Room and Profile have the same identifier is refused
  (`Enrollment.SameNameIsRefused`, exact condition in
  `Enrollment.TouchBindingNeedsTwoNames`).

## Model

| member | source | states |
|---|---|---|
| Handshake.QuiescentClaimsAreCurrent | src/hermes_home/api/application.py:1773-1803 | In every interleaving of claim requests with renewals, rotations, re-enrollments, revocations and restarts, once no request is in flight every active claim carries its device's newest unrevoked generation. |
| Handshake.QuiescentRevokedHasNone | src/hermes_home/api/application.py:997-1039 | In the same runs, a device whose credentials are all revoked has no active claim. |
| Handshake.QuiescentClientClaimsAreGranted | src/hermes_home/api/application.py:1725-1814 | In the same runs, every active client claim is backed by a grant of its own device that is still active. |
| Handshake.MoveKeeps | src/hermes_home/api/application.py:922-1039 | Every single move keeps the invariant: each active claim is current, or some request in flight will still check it or close it. |
| Handshake.EventGuardsDevice | src/hermes_home/domain/credentials.py:943-972 | A newest generation stops being newest only under a commit that goes on to close the claims of older generations. |
| Handshake.EventGuardsGrant | src/hermes_home/domain/credentials.py:1332-1360 | An active grant ends only under a commit that goes on to close the claims it backs. |
| HandshakeProgress.RequestsCanFinish | src/hermes_home/api/application.py:1725-1814 | From every state the requests in flight can all finish by their own next accesses, with no restart and no failing re-check. Claims that they all let be are untouched: the token still authenticates the claim's generation, its grant is active, and nothing closes or discards it. From a sound state exactly those are still active at the end. |
| HandshakeAnswers.RecheckIsAnswered | src/hermes_home/api/application.py:2289-2316 | A re-check changes no claim. While the token authenticates the claim's device and generation a Room request is finished and a client's goes on to its grant; otherwise, or when the store cannot be read, the claim is to be discarded. |
| HandshakeAnswers.GrantRecheckIsAnswered | src/hermes_home/api/application.py:1803-1814 | While the grant is active the client request is finished and its claim stays; otherwise it is to be discarded. |
| HandshakeAnswers.AuthenticationIsAnswered | src/hermes_home/api/application.py:1542-1560 | A request starts exactly when its token authenticates, as that device and generation. |
| HandshakeAnswers.CreationIsAnswered | src/hermes_home/api/application.py:2270-2288 | A claim that is made waits for its re-check under the generation it was authenticated as; a refused request is over. |
| HandshakeAnswers.DiscardIsAnswered | src/hermes_home/bridge/production.py:1081-1115 | A discard closes the device's own active claim as endpoint_revoked and nothing else. |
| HandshakeAnswers.ClosingIsAnswered | src/hermes_home/bridge/production.py:1146-1164 | The closing half of a commit closes exactly the active claims it is responsible for, for its own reason. |
| HandshakeAnswers.CommitsSpareCurrent | src/hermes_home/api/application.py:947-995 | A commit goes on to close a claim that it leaves current exactly when it repeats a rotation or renewal whose generation was replaced since. |
| HandshakeAnswers.LateRetryClosesNewest | src/hermes_home/api/application.py:959-995 | For any device rotated twice within the overlap, repeating the first rotation goes on to close the claims of the newest generation. |
| HandshakeProgress.QuietClaimIsReached | src/hermes_home/api/application.py:1725-1814 | A run in which a phone enrolls, claims a conversation, passes both re-checks and holds an active client claim with nothing in flight. |
| Handshake.SweptAreUnwatched | src/hermes_home/bridge/production.py:1146-1164 | A closing sweep leaves no active claim that its own request was still responsible for. |
| CredentialInvariants.ReachableChains | src/hermes_home/domain/credentials.py:758-812 | In every reachable state a device's generations are distinct, an active record is the only one and the newest, no generation is replaced twice, and credentials number consumed requests plus replacements. |
| CredentialInvariants.ReachableScopes | src/hermes_home/domain/credentials.py:595-661 | Every stored credential carries exactly a scope approved on a consumed request of its endpoint, within what was requested, never mixing client claims with wake or touch claims. |
| CredentialInvariants.StepKeeps | src/hermes_home/domain/credentials.py:883-981 | Every operation keeps the chain, binding, linkage, counting and scope invariants. |
| Authentication.ReadOnlyAndCleaningAgree | src/hermes_home/domain/credentials.py:460-516 | The answer is the read-only one whether or not the call had to clean up. |
| Authentication.CleanupIsInvisible | src/hermes_home/domain/credentials.py:460-516 | Cleaning at t changes no authentication from t on, with or without the overlap flag, and leaves nothing to clean at t. |
| Authentication.AuthenticatedIsNewest | src/hermes_home/domain/credentials.py:485-503 | Without the overlap flag only an unexpired active record with its device's greatest generation authenticates. |
| Replacements.RetryIsIdempotent | src/hermes_home/domain/credentials.py:883-979 | Until the overlap ends, under any interleaved operations but a revocation or re-enrollment of the device, the same request gets the same material again and nothing is stored. |
| Replacements.OtherRequestsRefused | src/hermes_home/domain/credentials.py:914-927 | After a generation was replaced under one request ID, every other request ID for it is refused for ever. |
| Enrollment.ReachableEnrollment | src/hermes_home/domain/credentials.py:720-812 | In every reachable state there are at most as many requests as used offers, and credentials number consumed offers plus replacements. |
| Enrollment.CodeWorksOnce | src/hermes_home/domain/credentials.py:424-458 | A code that made a request makes no other, whatever happens in between. |
| Enrollment.NewCodeWorksUntilItRunsOut | src/hermes_home/domain/credentials.py:346-386 | A new code makes a valid request exactly while its offer has not run out. |
| Enrollment.RejectionIsFinal | src/hermes_home/domain/credentials.py:663-692 | A rejected request is never consumed nor approved, whatever happens in between. |
| Enrollment.TouchBindingNeedsTwoNames | src/hermes_home/domain/credentials.py:1690-1706 | An otherwise valid scope may carry a touch binding exactly when its Room and Profile identifiers differ. |
| Enrollment.SameNameIsRefused | src/hermes_home/domain/credentials.py:1690-1706 | A run after which the policy allows a touch binding that approval refuses for its equal names. |
| ClientGrants.ReachableGrants | src/hermes_home/domain/credentials.py:1579-1611 | In every run a device has at most one live grant per Profile and at most 16 in all, and none once its credentials are all revoked. |
| ClientGrants.ReachableActivation | src/hermes_home/domain/credentials.py:1399-1449 | Every active grant became active at a step where the Profile was shared, or as a recorded bootstrap with no other live holder, or by approval of another device holding the Profile. |
| Projections.PeekIsUnchangedProjection | src/hermes_home/domain/credentials.py:1188-1219 | The read-only peek answers r exactly when the writing projection would answer r and change nothing. |
| Projections.ProjectionMoves | src/hermes_home/domain/credentials.py:1163-1186 | A projection keeps its revision exactly when snapshot and grants are unchanged and otherwise goes strictly up. |
| Projections.NoABA | src/hermes_home/domain/credentials.py:1163-1219 | While the peek still answers the revision of an earlier projection, snapshot revision and grants are exactly what they were then, whatever happened in between. |
| Projections.ChoiceNeedsTheSameAuthority | src/hermes_home/bridge/production.py:565-592 | Across both stores: a client claim made under the projected revision is later granted typed choices only while its row's revision is the device's current projection, and then the configuration revision and the grants are those it was made under. |
| ClaimInvariants.ReachableClaims | src/hermes_home/bridge/production.py:166-256 | Over all runs: one active claim per Room and per Session, a bounded number per client device, claim IDs never reused, deadlines exactly in the activities that run out, and no client claim ending by idle expiry. |
| ClaimInvariants.HistoryIsWriteOnce | src/hermes_home/bridge/production.py:1311-1320 | A closed row, with its first reason, and a bound Session never change again. |
| ClaimInvariants.RefusedTouchIsHarmless | src/hermes_home/bridge/production.py:176-212 | A refused touch claim leaves every claim that was not already out of time as it was, markers included. |
| ClaimInvariants.CreateClientKeeps | src/hermes_home/bridge/production.py:290-361 | Admitting a client claim keeps the per-device limit and Session exclusivity. |
| ClaimInvariants.ActivityShape | src/hermes_home/bridge/production.py:740-860 | Binding a Session, opening, disconnecting and reporting activity change at most their own active row, keep its identity and the deadline rule, and bind only a Session no other claim holds. |
| ClaimExpiry.ExpiryPathsAgree | src/hermes_home/bridge/production.py:1270-1309 | Timer, sweep and the lazy expiry inside open and activity leave the same row with the same reason; so does resolve, for a handle it has not already denied or marked as lost. |
| ClaimExpiry.StaleTimerClosesNothing | src/hermes_home/bridge/production.py:1270-1283 | A timer whose deadline has moved or is not yet due changes no row. |
| ClaimExpiry.StaleTimerAndWatch | src/hermes_home/bridge/production.py:1284-1287 | A stale timer changes the Watch exactly when its claim is the only live one of the device, connected, of the asked revision and in a watchable activity. |
| ClaimExpiry.StaleTimerHidesFromWatch | src/hermes_home/bridge/production.py:1284-1287 | A run that creates a claim and opens it just before its first-open timer is due; the timer's callback, already waiting for the lock when the open cancels it, hides the claim from the Watch. |
| ClaimExpiry.ReadsIgnoreTheSweep | src/hermes_home/bridge/production.py:999-1079 | Active sessions, Watch and delivery answer the same whether or not the sweep has run. |
| ClaimExpiry.ResolveIgnoresTheSweep | src/hermes_home/bridge/production.py:594-640 | Resolution answers the same whether or not the sweep has run, also when its own read fails, as long as its write does not. |
| ClaimExpiry.BindingNeedsTheSweep | src/hermes_home/bridge/production.py:404-423 | The claim-binding lookup agrees with the swept table unless the row is an active client row with a grant that is overdue. |
| ClaimExpiry.OverdueBindingAnswers | src/hermes_home/bridge/production.py:404-423 | A run after which the lookup answers for a claim that was never opened in time. |
| ClaimExpiry.LateDisconnectRevives | src/hermes_home/bridge/production.py:831-860 | A disconnect revives a claim exactly when its grace has run out and the sweep has not reached it. |
| ClaimExpiry.LateDisconnectExample | src/hermes_home/bridge/production.py:831-860 | A run that creates, opens and drops a claim whose grace ends while its timer is late or its write fails; a second disconnect then brings the claim back. |
| ClaimRetirement.LostUpstreamIsFinal | src/hermes_home/bridge/production.py:1081-1114 | With reads and writes failing anywhere, after the owner reported the upstream lost no later resolve in the process grants the handle. |
| ClaimRetirement.DenialIsFinal | src/hermes_home/bridge/production.py:594-623 | The same for a denied paired-room handle. |
| ClaimRetirement.UnauthorizedPairedIsDenied | src/hermes_home/bridge/production.py:641-668 | A paired-room claim without authority, or of another revision, is denied on sight even when retiring its row fails. |
| ChoiceInvariants.OneOpenChoicePerTurn | src/hermes_home/bridge/choice_authority.py:89-211 | Over any run at most one object per turn is open, it is the current and latest one, and both tables stay within their limits. |
| ChoiceInvariants.NeverReopens | src/hermes_home/bridge/choice_authority.py:134-154 | An object that left the open state never returns to it. |
| ChoiceInvariants.AcceptedIsFresh | src/hermes_home/bridge/choice_authority.py:237-316 | Every accepted response names the tokens of its turn's latest object and a listed option, before the deadline, and is passed on with the source's own tokens. |
| ChoiceInvariants.AcceptedOnce | src/hermes_home/bridge/choice_authority.py:261-305 | No correlation record is accepted twice in any run. |
| ChoiceInvariants.CompletedIsFinal | src/hermes_home/bridge/choice_authority.py:318-329 | Nothing is accepted for an object after a choose of it was completed. |
| ChoiceInvariants.DeadlineStartsAtDelivery | src/hermes_home/bridge/choice_authority.py:213-235 | An object gets its deadline only by its first delivery, one window from then. |
| ChoiceInvariants.DeadlineNeverMoves | src/hermes_home/bridge/choice_authority.py:213-235 | Over any run a deadline that is set never moves. |
| ChoiceInvariants.DeliveriesNeverGrow | src/hermes_home/bridge/choice_authority.py:413-418 | Of two deliveries of one object, with any run between, the later never reports more time. |
| ChoiceInvariants.PruningIsHarmless | src/hermes_home/bridge/choice_authority.py:403-410 | Pruning changes no acceptance and removes no entry of an object that is still open. |
| ChoiceInvariants.PrunedIsNeverAccepted | src/hermes_home/bridge/choice_authority.py:403-410 | The choice behind a pruned entry is never accepted after any later run. |
| ArbitrationLaws.AcceptedIsDisjointUnion | src/hermes_home/domain/arbitration.py:95-277 | Over every sequence of operations, whatever the clock and the snapshots do, an accepted ID is in exactly one of reserved, pending, resolved and collected, and no other ID is in any. |
| ArbitrationLaws.PendingRoundsAreBounded | src/hermes_home/domain/arbitration.py:193-224 | Every pending round is non-empty, alone in its Room, and holds only claims of its Room and revision that fit its snapshot, admitted within 250 ms of its first claim. |
| ArbitrationLaws.AdmissionEntersItsRound | src/hermes_home/domain/arbitration.py:161-230 | An admitted claim is new, is last in its device's Room's round with what that round's snapshot says of its device and mapping, and the answer is that round's deadline. |
| ArbitrationLaws.OneBestWinner | src/hermes_home/domain/arbitration.py:242-271 | Finalizing a reachable round decides all of its claims and no others and grants exactly one: its score is greater than every other claim's, or equal with a smaller priority number, or equal in both and earlier. Each decision names its own claim's device, Room, mapping and Profile, the round's revision and the arbitration ID. |
| ArbitrationLaws.NeverTwice | src/hermes_home/domain/arbitration.py:95-101 | An ID once accepted is never reserved or admitted again. |
| ArbitrationLaws.CollectedOnce | src/hermes_home/domain/arbitration.py:273-277 | Over every sequence of operations a decision is handed out at most once. |
| ArbitrationLaws.WinnerIgnoresArrivalOrder | src/hermes_home/domain/arbitration.py:251-254 | Under an accepted configuration the same claims in any arrival order give the same winning device. |
| ArbitrationLaws.ReachableWinnerIgnoresOrder | src/hermes_home/domain/configuration.py:270-276 | In every run a pending round's winner is the one any other arrival order of its claims would give. |
| Configuration.Validate | src/hermes_home/domain/configuration.py:27-53 | The validator accepts exactly the valid configurations and returns them unchanged. |
| Configuration.ValidateDevices | src/hermes_home/domain/configuration.py:199-309 | Accepts exactly the device lists with unique IDs, unique priorities per Room and one paired-room device, and reports the first entry that breaks that. |
| Configuration.ValidateWakeMappings | src/hermes_home/domain/configuration.py:141-192 | Accepts exactly the lists with unique IDs, known Profiles and unique active phrases, and reports the first offender. |
| Configuration.ValidateWakeAdmission | src/hermes_home/domain/configuration.py:312-352 | Accepts exactly a paired-room admission over distinct active mappings of available Profiles. |
| Configuration.ValidateClientDevices | src/hermes_home/domain/configuration.py:355-401 | Accepts exactly the client lists with unique IDs that name no Room device, and reports the first offender. |
| DiagnosticsLog.OperationalDiagnostics.Rotate | src/hermes_home_diagnostics.py:964-980 | The descending in-place renames shift every slot up by one for any pattern of existing files; only the last slot's file goes, and it is counted. |
| DiagnosticsLog.OperationalDiagnostics.Write | src/hermes_home_diagnostics.py:903-929 | A write rotates, refuses or appends, with the header on a new file, as the specification of the log says, and keeps the files within their size limit. |
| DiagnosticsLog.LogStaysWithinBudget | src/hermes_home_diagnostics.py:903-929 | Every run that starts within budget keeps the log within (backups + 1) times the active-file limit. |
| DiagnosticsLog.RunConserves | src/hermes_home_diagnostics.py:964-980 | Over every run the retained lines are the old ones plus the added ones, in order, less whole files from the old end, and the saturating counter counts exactly those files. |
| DiagnosticsLog.RefusedStillRotates | src/hermes_home_diagnostics.py:909-918 | A refused record moves the files exactly when it finds an active file that must be rotated. |
| DiagnosticsLog.RefusedRunLoses | src/hermes_home_diagnostics.py:909-918 | A run of refused records rotates the log once at most, and loses a file exactly when it rotates and the last slot is taken. |
| DiagnosticsLog.RefusedRecordEvicts | src/hermes_home_diagnostics.py:909-918 | A log with one backup whose oldest file goes to a refused record. |
| DiagnosticsLog.AcceptedIsAttributed | src/hermes_home_diagnostics.py:882-929 | An accepted record ends up last in an active file that names its process. |
| CredentialService.Service.AuthenticateDevice | src/hermes_home/domain/credentials.py:460-516 | The looking pass and, if needed, the cleaning pass together are the specified authentication. |
| CredentialService.MatchCredential | src/hermes_home/domain/credentials.py:485-503 | The loop finds the last record that carries the token and is accepted at this time. |
| CredentialService.Service.ConsumeRequest | src/hermes_home/domain/credentials.py:694-823 | Consuming revokes the endpoint's earlier credentials, stores the new one, reissues grants and closes the request, or changes nothing. It succeeds exactly when the stored request is ready and the code is that of its own pending offer, and keeps the service invariants when the drawn identifiers are fresh. |
| CredentialService.Service.IssueClientGrants | src/hermes_home/domain/credentials.py:1399-1449 | Issuing into the list that is searched for holders gives each grant the status it had against the list from before. |
| CredentialService.Service.ReplaceCredential | src/hermes_home/domain/credentials.py:883-981 | Keeps the service invariants; adds one credential and one replacement record or nothing; an answer is the stored next generation with its scope, and asking again at once gives it back without adding another. |
| CredentialService.ReplacementMeans | src/hermes_home/domain/credentials.py:900-922 | A successful replacement followed by its own retry answers the same and stores nothing. |
| CredentialService.Service.Revoke | src/hermes_home/domain/credentials.py:983-1030 | Revocation ends all records, replacements and grants of the device, or reports that there is none or that they already are. |
| CredentialService.Service.AddClientGrant | src/hermes_home/domain/credentials.py:1053-1161 | Adding a grant is idempotent per key, reuses a live grant, and rolls the expiry sweep back when it refuses. |
| CredentialService.Service.DecideOwnerGrant | src/hermes_home/domain/credentials.py:1256-1300 | A decision ends the pending state of a grant another holder may decide, or changes nothing. |
| CredentialService.Service.Project | src/hermes_home/domain/credentials.py:1163-1186 | The writing projection stores a new revision only when the fingerprint changed. |
| ConversationStore.ConversationGrantStore.CreateFromDecision | src/hermes_home/bridge/production.py:151-257 | Sweeps, then admits, refuses or takes over an idle tail, keeping the table invariants. |
| ConversationStore.ConversationGrantStore.CreateClientClaim | src/hermes_home/bridge/production.py:259-361 | Sweeps, then admits or refuses a client claim, keeping the table invariants. |
| ConversationStore.ConversationGrantStore.FindHolder | src/hermes_home/bridge/production.py:168-174 | The search over the rows finds the Room's one active claim, if any. |
| ConversationStore.ConversationGrantStore.Resolve | src/hermes_home/bridge/production.py:594-738 | Keeps the table invariants; a grant is given exactly for a live, unbarred row of the asking device that policy, grant store and configuration allow, says what that row says, and changes nothing. |
| ConversationStore.ConversationGrantStore.CloseMatchingRows | src/hermes_home/bridge/production.py:1219-1268 | Keeps the table invariants; closes exactly the active rows that match, for the given reason, and drops the markers of each. |
| ConversationStore.ConversationGrantStore.RecordActivity | src/hermes_home/bridge/production.py:919-997 | Keeps the table invariants; an accepted report leaves the row owned and active with a deadline exactly when a timer is armed for it, and never one on a client claim. |
| ChoiceAuthority.Authority.Project | src/hermes_home/bridge/choice_authority.py:89-211 | Reuses, ends, mints and correlates shared choice objects as the index-based specification says; the view shows the prompt's own choice with exactly the operations the endpoint is capable of. Keeps the run invariants of the choice tables. |
| ChoiceAuthority.Authority.MarkDelivered | src/hermes_home/bridge/choice_authority.py:213-235 | Starts, reads or ends the freshness window of the shared object and keeps the run invariants. |
| ChoiceAuthority.Authority.Authorize | src/hermes_home/bridge/choice_authority.py:237-316 | Accepts and consumes, or rejects with the specified reason; an accepted answer is fresh: it names the open, current, latest choice of its turn before its deadline. Keeps the run invariants. |
| ChoiceAuthority.Authority.RevokeTurn | src/hermes_home/bridge/choice_authority.py:343-354 | Revokes every open object of the turn, through whichever reference it is reached, drops them from the tables, and keeps the run invariants. |
| ChoiceAuthority.Authority.LiveEntries | src/hermes_home/bridge/choice_authority.py:403-410 | The pruning loop keeps exactly the entries whose object is open and current. |
| ArbitrationEngine.SelectWinner | src/hermes_home/domain/arbitration.py:251-254 | The scan finds the claim with the greatest score, among those the smallest priority number, among those the earliest. |
| ArbitrationEngine.SettleDue | src/hermes_home/domain/arbitration.py:232-240 | Visiting the rounds in order decides those that are due and keeps the others in order. |
| ArbitrationEngine.Engine.Submit | src/hermes_home/domain/arbitration.py:120-230 | Keeps conservation and one round per Room; finalizes what is due, refuses a late or invalid claim, and otherwise admits it. |
| CredentialService.Service.CreateOffer | src/hermes_home/domain/credentials.py:346-386 | Keeps the service invariants; a new code is then found as an open offer that runs out at the time answered. |
| CredentialService.Service.SubmitRequest | src/hermes_home/domain/credentials.py:388-458 | Keeps the service invariants; makes a pending request and nothing else, neither credential nor grant, and the code's offer is then no longer open; a refusal changes nothing. |
| CredentialService.Service.ListRequests | src/hermes_home/domain/credentials.py:558-568 | Expires what has run out in both lists and returns all requests. |
| CredentialService.Service.ApproveRequest | src/hermes_home/domain/credentials.py:570-661 | Keeps the service invariants; an approved scope is within the request, within the configured Rooms and never mixes client and Room claims; no credential is made yet. |
| CredentialService.Service.RejectRequest | src/hermes_home/domain/credentials.py:663-692 | Keeps the service invariants; no credential is made and the request is then pending at no time. |
| CredentialService.Service.RevokeClientGrant | src/hermes_home/domain/credentials.py:1314-1362 | Ends a grant its requester may end, answers again for one already ended, or changes nothing. |
| CredentialService.Service.PeekRevision | src/hermes_home/domain/credentials.py:1188-1219 | The read-only peek at the projected revision, without changing the state. |
| ConversationStore.ConversationGrantStore.Expire | src/hermes_home/bridge/production.py:1270-1287 | Keeps the table invariants; a row changes only if it is the timer's own, under the deadline it was armed for, and due, and then it ends for its expiry reason. |
| ConversationStore.ConversationGrantStore.ExpireDue | src/hermes_home/bridge/production.py:1289-1309 | Keeps the table invariants; afterwards no row is overdue. |
| ConversationStore.ConversationGrantStore.CloseClaim | src/hermes_home/bridge/production.py:1081-1114 | Keeps the table invariants; a yes leaves the row closed with its first reason, any other answer leaves every row alone, and a lost upstream bars the handle whichever accesses fail. |
| ConversationStore.ConversationGrantStore.PersistSession | src/hermes_home/bridge/production.py:740-782 | Keeps the table invariants; a yes leaves the claim the only active holder of the Session, any other answer changes nothing. |
| ConversationStore.ConversationGrantStore.MarkOpen | src/hermes_home/bridge/production.py:784-829 | Keeps the table invariants; a yes leaves the claim active without deadline or timer and connected, a no leaves it not active for the device. |
| ConversationStore.ConversationGrantStore.MarkDisconnected | src/hermes_home/bridge/production.py:831-860 | Keeps the table invariants; drops the connected marker, and changes only the row of a client claim that was opened, which gets the full grace from now with its timer armed. |
| ConversationStore.ConversationGrantStore.MarkDetached | src/hermes_home/bridge/production.py:526-542 | Keeps the table invariants, so only active claims are parked; an active client claim is. |
| ChoiceAuthority.Authority.Complete | src/hermes_home/bridge/choice_authority.py:318-329 | Closes the object of a confirmed choose while it is open and current, and keeps the run invariants. |
| ChoiceAuthority.Authority.ExpireCorrelation | src/hermes_home/bridge/choice_authority.py:331-341 | Expires the open object behind a correlation, stops it being current, and keeps the run invariants. |
| ChoiceAuthority.Authority.RevokeAll | src/hermes_home/bridge/choice_authority.py:356-363 | Revokes every open object of the table, empties both tables, and keeps the run invariants. |
| ChoiceAuthority.Authority.MintObject | src/hermes_home/bridge/choice_authority.py:155-186 | Replaces the turn's open object and adds a new one under fresh, distinct tokens, within the per-turn limit. |
| ArbitrationEngine.Engine.ReserveClaimId | src/hermes_home/domain/arbitration.py:95-101 | Keeps conservation; a reserved ID is pending, resolved and collected nowhere, and cannot be reserved again. |
| ArbitrationEngine.Engine.FinalizeRoom | src/hermes_home/domain/arbitration.py:242-271 | Removes one round and merges the decisions on its claims. |
| ArbitrationEngine.Engine.Finalize | src/hermes_home/domain/arbitration.py:232-240 | Keeps conservation; finalizes exactly the rounds whose window has closed. |
| ArbitrationEngine.Engine.DecisionFor | src/hermes_home/domain/arbitration.py:273-277 | Keeps conservation; an ID whose decision is handed out is accepted and is left in none of the other places. |
| Configuration.ValidateRooms | src/hermes_home/domain/configuration.py:83-99 | Accepts exactly the Room lists with valid, unique IDs and reports the first offender. |
| Configuration.ValidateProfiles | src/hermes_home/domain/configuration.py:102-138 | Accepts exactly the Profile lists with valid, unique IDs and reports the first offender. |
| EnrollmentAnswers.OfferIsAnswered | src/hermes_home/domain/credentials.py:346-388 | An offer is stored exactly for a valid ID, a code and 1 to 300 seconds, and stands that long. |
| EnrollmentAnswers.SubmissionIsAnswered | src/hermes_home/domain/credentials.py:389-459 | A request is stored exactly when it is well asked and its code is that of an offer still open and in time; each refusal has its condition. |
| EnrollmentAnswers.ApprovalIsAnswered | src/hermes_home/domain/credentials.py:570-663 | A request is approved exactly when it is pending in time, the Profiles are at most 16 distinct ones and the scope is within the request, the household and the endpoint type; each refusal has its condition. |
| EnrollmentAnswers.RejectionIsAnswered | src/hermes_home/domain/credentials.py:665-692 | Exactly a request pending in time is rejected. |
| EnrollmentAnswers.ListingIsAnswered | src/hermes_home/domain/credentials.py:558-569 | Listing marks exactly the offers and requests out of time that were not used up, and answers the requests. |
| EnrollmentAnswers.ConsumptionIsAnswered | src/hermes_home/domain/credentials.py:694-776 | A consumption succeeds exactly when the request is approved and in time, the storage is the attested one, shared Profiles are known if needed, the request's own offer is pending and carries this code, and a token was drawn; each error has its exact condition and leaves the state unchanged, a wrong code being unauthorized. |
| EnrollmentAnswers.ConsumptionIsWritten | src/hermes_home/domain/credentials.py:752-828 | It revokes the endpoint's records, adds the next generation for 90 days, uses up request and offer, erases the device's replacements, ends its grants and issues one per Profile, active unless another live device owns it. |
| CredentialAnswers.AuthenticationIsAnswered | src/hermes_home/domain/credentials.py:460-516 | A token is answered by the last record that is active and in time, or replaced within its overlap where that is allowed, and by none otherwise. |
| CredentialAnswers.AuthenticationMarks | src/hermes_home/domain/credentials.py:471-516 | Besides, exactly the records and replacements out of time are marked, and an erased replacement loses its token. |
| CredentialAnswers.ReplacementIsAnswered | src/hermes_home/domain/credentials.py:875-972 | A first renewal or rotation succeeds exactly when the credential is active and in time, no request ID or generation clashes, a token was drawn and, for a renewal, at most 14 days are left; each error has its exact condition. |
| CredentialAnswers.RetryIsAnswered | src/hermes_home/domain/credentials.py:890-912 | A repeated one is given the stored material while its overlap lasts and its token can be read, and writes nothing. |
| CredentialAnswers.RevocationIsAnswered | src/hermes_home/domain/credentials.py:983-1022 | A device is revoked exactly when it has a record that is not; its credentials, replacements and live grants end together. |
| GrantAnswers.GrantOfferIsChecked | src/hermes_home/domain/credentials.py:1043-1085 | Only a live device of a client type with the client capability may get grants. |
| GrantAnswers.RepeatedOfferIsAnswered | src/hermes_home/domain/credentials.py:1088-1103 | A repeated key gives back the grant it made, and only for the same request. |
| GrantAnswers.NewOfferIsAnswered | src/hermes_home/domain/credentials.py:1104-1160 | Under a new key a live grant is given back; else one is made exactly when the Profile is available, its label free and fewer than 16 are live, active if shared or authorized and nobody else's. |
| GrantAnswers.DecisionIsAnswered | src/hermes_home/domain/credentials.py:1258-1300 | A decision takes effect exactly for a grant pending in time, of another device, by an approver that owns its Profile and is no active browser. |
| GrantAnswers.GrantRevocationIsAnswered | src/hermes_home/domain/credentials.py:1314-1360 | A grant is revoked exactly when it is live or already revoked and the requester, if any, owns its Profile and, where that is shared, the grant itself. |
| GrantAnswers.ActiveGrantExactly | src/hermes_home/domain/credentials.py:1231-1239 | A grant is active for a device exactly when its own record is. |
| GrantAnswers.CurrentGrantsInOrder | src/hermes_home/domain/credentials.py:1614-1629 | The current grants of a list are those of its parts, in order. |
| ClaimAnswers.GrantedExactly | src/hermes_home/bridge/production.py:609-738 | A claim is granted exactly when it is the device's own, active, in time and unbarred, reads succeed, the Profile is listed and available, a listed mapping is active, a paired claim is allowed and of the current revision, and a client's grant checker neither raised nor said no; typed choices are told exactly. |
| ClaimAnswers.RefusalsRetire | src/hermes_home/bridge/production.py:636-738 | Each other outcome of a readable claim: the one reason it is retired for, denial, or no answer while another store cannot tell. |
| ClaimAnswers.UnreadableIsRefused | src/hermes_home/bridge/production.py:594-635 | A denied, lost, foreign or closed claim is refused, and what that retires. |
| ClaimAnswers.PublishClosesWhatResolutionRetires | src/hermes_home/api/application.py:1277-1326 | A publish closes at once what resolution would retire one by one: of the active claims to be expected before it exactly those stay that the new snapshot lets pass (and paired ones of an older revision when neither snapshot admits a paired Room); without an earlier snapshot it closes all. |
| ClaimAnswers.ClientClosesItsOwn | src/hermes_home/bridge/production.py:495-520 | A client closes exactly its own active client claims that it names. |
| ClaimAnswers.RoomClaimIsAnswered | src/hermes_home/bridge/production.py:151-258 | A Room claim is made exactly when nobody keeps the Room, idle tails giving way to a touch only, and no name was used before; each refusal has its exact condition. |
| ClaimAnswers.RoomClaimIsWritten | src/hermes_home/bridge/production.py:151-258 | The new row, its first-open timer, and the end of the conversation it takes over. |
| ClaimAnswers.ClientClaimIsAnswered | src/hermes_home/bridge/production.py:259-361 | A client claim is made exactly below the device's limit, for a Session not taken and unused names, and changes no other row than the sweep. |
| ClaimAnswers.SessionIsAnswered | src/hermes_home/bridge/production.py:740-782 | A Session is bound exactly when the grant still describes the claim, it has no other Session and no other active claim has this one. |
| ClaimAnswers.ActivityIsAnswered | src/hermes_home/bridge/production.py:919-997 | Activity is recorded exactly for a claim in hand, the end of a playback only during one; only an idle Room claim starts a tail. |
| ClaimAnswers.DisconnectIsAnswered | src/hermes_home/bridge/production.py:831-860 | Exactly an active client claim that was opened gets its grace; the connected marker goes from any claim of the device. |
| ClaimAnswers.ClosingIsAnswered | src/hermes_home/bridge/production.py:1081-1115 | Closing reaches exactly a row of the named owner, and a lost upstream is remembered until the row is closed. |
| ClaimAnswers.WatchIsAnswered | src/hermes_home/bridge/production.py:999-1045 | The Watch shows exactly the one live claim of a device, connected, of the asked revision and not being wound up. |
| ChoiceAnswers.ProjectionDisplays | src/hermes_home/bridge/choice_authority.py:112-211 | A view of an open current choice lists exactly the prompt's operations that lie in its capabilities, each once and in the prompt's order, with the object's own tokens and time; any other view lists none. |
| ChoiceAnswers.ProjectionIsAnswered | src/hermes_home/bridge/choice_authority.py:89-211 | A prompt is refused unless it is presentable, its key new and its choice can be shown; otherwise only a table full of open choices keeps it out. |
| ChoiceAnswers.ProjectionChangesObjects | src/hermes_home/bridge/choice_authority.py:132-186 | A known source revision is replaced, revoked or expired exactly for other contents, other capabilities or its deadline; a new one replaces the turn's open choice and gets its own object. |
| ChoiceAnswers.AcceptedExactly | src/hermes_home/bridge/choice_authority.py:237-316 | Over every run a response is accepted exactly when it comes in time from its own context and names the choice's tokens, one of its options and an operation it was shown with. |
| ChoiceAnswers.ShownIsAccepted | src/hermes_home/bridge/choice_authority.py:89-316 | Over every run a projected prompt can be answered by any of its options under any operation it offered and the endpoint supports, while its choice is open and in time and its record unanswered. |
| ChoiceAnswers.RejectedExactly | src/hermes_home/bridge/choice_authority.py:237-316 | Each rejection is given exactly when its own condition holds, and changes nothing but a choice found past its deadline. |
| ChoiceAnswers.UnknownKeyIsRejected | src/hermes_home/bridge/choice_authority.py:368-378 | For a key outside the table the oldest record of its correlation ID tells the reason. |
| ChoiceAnswers.DeliveryIsAnswered | src/hermes_home/bridge/choice_authority.py:213-235 | A delivery answers the seconds its choice has left, none for another than the current one, and starts or ends that one window. |
| ChoiceAnswers.RevocationsEnd | src/hermes_home/bridge/choice_authority.py:343-363 | Revoking a turn ends its open choice and only that; revoking all ends every open one. |
| ArbitrationAnswers.SubmissionIsAnswered | src/hermes_home/domain/arbitration.py:122-225 | A claim is late exactly when its Room's round was open for 250 ms; otherwise it is admitted exactly when every test lets it through, and is told the first that does not, the scope limits of its credential included. |
| ArbitrationAnswers.DueRoundsAreDecided | src/hermes_home/domain/arbitration.py:227-271 | Over every run a pending round is decided exactly when it was open for 250 ms; its decisions then stand under the ID drawn for its Room, and earlier ones are kept. |
| DiagnosticsLog.WriteIsAnswered | src/hermes_home_diagnostics.py:903-980 | Exactly when a write rotates, refuses or appends, and every file and counter after it. |

## Left out

- Bridge endpoint threads, parked-event delivery, keep-alive and `HomeBridge`: they depend on thread timing and on a module that is not part of this model.
- Static (legacy) device credentials: they have no generations, so every active claim in `Handshake` comes from an enrolled device.
- Paired-room policy: its answer is a boolean given to resolution.
- Revocation handlers, close listeners and the revocation observer: notifications that no decision reads back.
- Retried cleanup after a failed configuration publish, and claim closing that fails in the handlers: `Handshake` assumes that store writes succeed.
- Protected capabilities of a resolved grant, the Watch route, session references and their secrets: values passed through.
- JSON shapes, HTTP status codes, headers, schema numbers, labels, confirmation codes and requested Profile mappings: checked in one branch each and never read by the modelled decisions.
- Case folding and spacing of wake phrases and of enrollment codes: phrase normalization is a function parameter and codes are taken normalized.
- Bookkeeping columns (creation, update, opening, decision and revocation times): written and never read by the modelled decisions.
- A configuration snapshot is a function of its revision in `ArbitrationLaws`: the publishing store is not part of this model.
- Log retention (`_purge_old`), the record queue and the loss snapshot: they rewrite files by record timestamps.
- ChoiceAuthority.Authority.Authorize: a response with the wrong set of fields is one malformed value.
- ArbitrationEngine.SettleDue: the pass builds the list of kept rounds and stores it at the end instead of removing rounds from the table while it goes.
- CredentialService.MatchCredential: matching and expiring the records are two passes here and one in the service.
- The pairing page, QR rendering, cookie sessions, the in-memory claim store for tests and schema migration: no property of the modelled state machines depends on them.
