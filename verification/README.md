# Mindline: the store, its crash recovery, and the exact pieces around them

A Dafny model of the parts of Mindline whose correctness cannot be read off one
function: the agent-state store with its sidecars and its resumable recovery,
the reversible feedback log, hybrid retrieval, run identities, the run pointer,
inventory accounting, and preview / approve / deliver.
`dafny verify dfyconfig.toml` checks all of it.

## The system, as modelled

**Store and sidecars** (`ScopedModel`, `ScopedRecovery`, `JoinedKeys`,
`Preflight`, `ScopedStore`, `StoreHistory`, `StoreLaws`, `ValidityLaws`,
`RequestLaws`, `LegacyModel`, `RoundTrip`). The database is a value of keyed
tables that meet their foreign keys; a sidecar snapshot lists every table in
its ORDER BY order. The validator's map keys join two ids with a NUL, as the
code does. Each mutation computes the snapshot it would leave, validates and
measures it, commits, and then rewrites the sidecar; it is acknowledged only
when both hold the change. A reply is `Refused` (nothing changed), `Unwritten`
(committed, the sidecar write failed) or `Acknowledged`.

**Feedback** (`Ledger`, `Feedback`, `FeedbackHistory`, `LegacyFeedback`,
`FeedbackLaws`, `LegacyLaws`, `FeedbackRecovery`). Effects are integers in
quarters (4 and 1). A judgment names its context; a reversal names one
original. Retry tokens derive keys through hashes: a token's hash holds no
colon, and where it matters no two of the requests asked for share a hash,
which is all that is demanded of SHA-256 (`CollisionFreeHashes` and
`UnmixedDigests` are hashes that meet this for all requests at once).

**Project connections** (`ProjectConnections`, `ConnectionLaws`). The table,
the sidecar, the pending mutation that blocks everything else, and, as
specification state, the last answer every caller was given.

**Recovery** (`RecoveryDisk`, `Recovery`, `RecoveryConditions`, `RecoveryLaws`,
`UnlistedLens`). A disk holds the canonical path, the stage, the quarantine
names, the binding and the marker. Every file step is one `Commit`, which may
be the last before a crash: a run has a budget of steps, and a negative budget
never runs out. Volatile state is the method's own locals. `LegacyProjection`
is the SQL that copies unscoped state into the scoped tables, one statement
after another; `ProjectionLaws` reads the rows it leaves.

**Retrieval** (`Windows`, `EmbeddingCache`, `SemanticScores`, `Ranking`,
`RankingLaws`, `FeedbackRelevance`, `Evidence`). Scores are exact reals with an
explicit non-finite case. Loops over Go maps pick keys in any order.

**Exact pieces** (`RunIdentity`, `RunPointer`, `Inventory`, `InventoryLaws`,
`ProofSample`, `ReviewQueue`, `Delivery`). Base32 follows section 6 of RFC
4648, canonical pad bits section 3.5. A locked section of the delivery protocol
is one method; a sequence of calls is an interleaving.

`Text`, `Ordering` and `Histories` are the shared ground: trimming and string
order, ordered listings of sets, and runs of a step relation.

## What turned out not to hold everywhere

The code is modelled as it is; each of these has an exact condition.

- *The gap in finalisation.* `finalizeRecovery` removes the binding before the
  marker. A crash between the two leaves a disk that resumption refuses, for
  good, although the recovered database is in place. The refusal changes
  nothing; outside the gap recovery always finishes (`StrandedIffWindow`,
  `RecoverAfterCrashes`).
- *Joined keys.* Lenses and candidates are looked up by two ids with a NUL
  between them, and an id may hold a NUL. A snapshot validates, restores and
  shows every judged record in its own run exactly when it is valid with ids
  compared one by one and no two lenses join to one key (`ValidAgainstPairs`);
  without NULs in scope and run ids the two readings agree (`PlainValidIff`).
  A lens is refused for its key alone exactly when another stored lens joins to
  it (`LensGrantIff`, `LensRefused`); a valid snapshot whose run only a joined
  key finds cannot be inserted (`RestoreSnapshot`, `StrayRunRefused`); a
  judgment may pass on a record of another run (`StrayJudgmentValid`).
- *Connections need listed parents.* The connection table has foreign keys into
  lenses and agents. A recovery with a scoped sidecar succeeds exactly when that
  sidecar lists every acknowledged connection's lens and agent
  (`RestorableFromSidecar`); binding a connection does not rewrite the scoped
  sidecar, so a lens whose own sidecar write failed can be bound, and then every
  later recovery is refused (`PutBindCrash`, `KeepsRefusing`; `LostOnce` is such
  a history from a new database). Without a scoped sidecar, one
  acknowledged connection is enough to make recovery refuse
  (`RestorableFromLegacy`).
- *Legacy projection.* The projected state is accepted exactly when every
  judgment's lens still exists, each judged run has one lens, and each judged
  run's copied candidates rank from one, distinctly, and number at most a
  hundred with the judged records they left out (`ProjectionAccepted`).
- *Distinct margin.* The distinct-evidence margin is at least the plain margin
  exactly when a competing document remains or the plain margin is at most one
  (`DistinctAgainstPlain`; `LoneWinnerNarrower` is a catalogue where it is not).
- *Caller-chosen keys.* Nothing keeps a caller's own idempotency key from starting
  with a retry prefix. A call that adds a judgment leaves every token with at most
  one exactly when it carries a token, or its key lies under no token already used
  (`StepKeepsTokensIff`, `StepSharesNeverIff`); `BorrowedPrefix` is a history in
  which one token ends up with two.
- *Strata of an inventory.* Strata are compared by two names joined with a NUL, and a
  name may hold a NUL. Items with names determine their strata, up to order, exactly
  when each item's key can be cut at a NUL into two names in one way only
  (`DeterminedIff`); `TwoReadings` is an item with two different accepted lists.
- *Reviewed queues.* The frozen queue's validator rebuilds the queue and compares; the
  reviewed queue's knows only how many items there are and which were selected, and
  accepts a row of an item that is not there (`ReviewedElsewhere`). A frozen queue
  that is marked is accepted, with the inventory's own items (`MarkedIsAccepted`).
- *Sampling an inventory.* Strata of a sample are named by splitting a joined key
  at its first NUL. A sample of a valid inventory is valid exactly when every
  selected item's names survive that split (`SampleValid`,
  `SampleOfNulFree`); `SampleRefused` is a valid inventory one of whose items
  does not.
- *Window coverage.* Every rune is embedded exactly up to 16000 runes
  (`CoverageExact`).
- *Recovered version numbers.* Recovery can reissue a version number; the
  generation tells the two documents apart (`VersionComesBack`,
  `RevisionsNameDocuments`).
- *A removed pointer file.* A process that finds no file reads its own default.
  A revision read before a later document landed is accepted again exactly when
  the file is gone and the revision is that default (`StaleIsCurrentIff`,
  `StaleSwapIff`, `DeletionRevives`).

## Model

| member | source | states |
|---|---|---|
| Ordering.SelectOrdered | internal/agentstate/scoped_recovery.go:273-352 | rows read in any order and filed in place are the one ascending listing of the table |
| Ordering.ListingOfAscending | internal/agentstate/scoped_recovery.go:354-430 | an ordered snapshot section is the listing of its own rows, so order carries no information a restore could lose |
| Ordering.SplicedListing | internal/agentstate/scoped_recovery.go:148-241 | replacing or appending a row in the listed slice and sorting it again gives the listing of the updated table |
| ScopedModel.BuildInjective | internal/agentstate/scoped_recovery.go:273-352 | a snapshot determines the tables it was built from, except the source bindings |
| ScopedModel.ValidIff | internal/agentstate/scoped_recovery.go:436-564 | the validator accepts a built snapshot exactly when the tables' rows are in bounds, no two lenses join to one key, runs stand under listed parents, judgments belong to their run and to some record with their joined key, and reversals pair up |
| ScopedRecovery.ScanRows | internal/agentstate/scoped_recovery.go:436-564 | the validation scan succeeds exactly when every row is fine and both of its keys are unrepeated |
| ScopedRecovery.ValidateJudgments | internal/agentstate/scoped_recovery.go:505-564 | the judgment loops accept exactly the logs whose rows belong to their runs, whose joined record keys are known, and whose reversals each undo one original, once |
| ScopedRecovery.ValidateReversals | internal/agentstate/scoped_recovery.go:546-564 | the pass over reversals of either log: accepted exactly when each undoes a listed original and no original is undone twice |
| ScopedRecovery.ValidateSnapshot | internal/agentstate/scoped_recovery.go:436-564 | the whole validator, seen-maps, joined keys and all, decides the declarative validity of a snapshot |
| ScopedRecovery.BuildSnapshot | internal/agentstate/scoped_recovery.go:273-352 | the ordered read returns the listing of every table, or an error exactly when that listing is invalid |
| ScopedRecovery.RestoreSnapshot | internal/agentstate/scoped_recovery.go:354-430 | restored exactly when the snapshot is valid and each run's lens and agent are listed, ids compared one by one, as the foreign keys do; an ordered one is read back unchanged |
| ScopedRecovery.BuiltParents | internal/agentstate/scoped.go:50-64 | the snapshot of tables that meet their foreign keys can always be restored as far as parents go |
| JoinedKeys.ValidAgainstPairs | internal/agentstate/scoped_recovery.go:436-564 | a snapshot is valid, restorable and shows each judged record in its own run exactly when it is valid with ids compared one by one and no two lenses join to one key |
| JoinedKeys.PlainValidIff | internal/agentstate/scoped_recovery.go:453-533 | when no scope or run id holds a NUL, joined and pairwise validity agree, and every valid snapshot can be restored |
| JoinedKeys.LensGrantIff | internal/agentstate/scoped_recovery.go:178-211 | beside admitted rows a lens passes the preflight exactly when its own fields are in order and no other stored lens joins to its key |
| JoinedKeys.PlainKeyFree | internal/agentstate/scoped_recovery.go:450-459 | with NUL-free scope ids every key is free, so no lens is ever refused for its key |
| JoinedKeys.LensRefused | internal/agentstate/scoped_recovery.go:450-459 | two lenses of two scopes with one joined key: the second is asked for in order and refused |
| JoinedKeys.StrayRunRefused | internal/agentstate/scoped_recovery.go:470-485 | a snapshot with a run that only a joined key finds: it validates, and it cannot be inserted |
| JoinedKeys.StrayJudgmentValid | internal/agentstate/scoped_recovery.go:505-535 | a valid snapshot with a judgment on a record that its own run never showed |
| Preflight.PreflightScope | internal/agentstate/scoped_recovery.go:148-176 | accepts exactly when the snapshot rebuilt after the SQL upsert is valid and fits, with the created-at and status the stored row keeps |
| Preflight.PreflightLens | internal/agentstate/scoped_recovery.go:178-211 | the same for a lens, looked up by scope and id and validated by joined key |
| Preflight.PreflightActor | internal/agentstate/scoped_recovery.go:213-241 | the same for an agent |
| Preflight.PreflightRun | internal/agentstate/scoped_recovery.go:95-121 | accepts exactly when the run id is new and the snapshot with the inserted trace is valid and fits |
| Preflight.PreflightJudgment | internal/agentstate/scoped_recovery.go:127-146 | accepts exactly when the judgment id is new and the snapshot with the inserted row is valid and fits |
| Preflight.DuplicateStays | internal/agentstate/scoped_recovery.go:95-146 | appending a row whose key is taken leaves a repeat the validator sees, wherever sorting puts it |
| ScopedStore.Store.WriteSidecar | internal/agentstate/recovery.go:173-185 | the scoped sidecar becomes the current snapshot exactly when that is acceptable and the write gets that far; it is replaced whole or left as it was |
| ScopedStore.Store.PutScope | internal/agentstate/scoped.go:223-253 | granted exactly when the text is in order and the preflight passes; then exactly the upserted row is committed and, if acknowledged, in the sidecar |
| ScopedStore.Store.ArchiveScope | internal/agentstate/scoped.go:580-608 | only an existing scope other than the owner root is archived, and only its status and time change |
| ScopedStore.Store.PutLens | internal/agentstate/scoped.go:296-333 | a lens is upserted exactly when its scope is active and the preflight passes; a failed write leaves the row committed and the sidecar old or new, by where it failed |
| ScopedStore.Store.ArchiveLens | internal/agentstate/scoped.go:380-410 | only an existing lens is archived, and only its status and time change |
| ScopedStore.Store.PutActor | internal/agentstate/scoped.go:412-438 | an agent is upserted under its stored status and creation time |
| ScopedStore.Store.RegisterActor | internal/agentstate/scoped.go:443-497 | an agent is created once; an exact active replay changes no row; anything else is refused |
| ScopedStore.Store.ArchiveActor | internal/agentstate/scoped.go:549-578 | only an existing agent other than the reserved one is archived |
| ScopedStore.Store.SaveRetrieval | internal/agentstate/scoped.go:649-733 | a trace is inserted exactly when its context is active, its records and ranks differ, its run is new and the preflight passes |
| ScopedStore.Store.RequireCandidate | internal/agentstate/scoped.go:737-778 | hydration is granted exactly for the run's own context, a record it showed, and a source bound to it; never when no binding is stored |
| ScopedStore.Store.FirstUnderToken | internal/agentstate/scoped_feedback.go:294-305 | the earliest judgment stored under a token's prefix, or none when there is none |
| ScopedStore.Store.ApplyJudgment | internal/agentstate/scoped_feedback.go:14-113 | one call is one step of the log: a refusal only when the call may be refused, a stored key answers with its judgment, a new key adds exactly the drafted row; acknowledged means the sidecar holds it |
| ScopedStore.Store.Relevance | internal/agentstate/scoped_feedback.go:215-251 | per record asked about, a tenth of the standing feedback of the owner and this agent in this lens, within 0.3; an error exactly for too many ids or an inactive context |
| ScopedStore.PairedLog | internal/agentstate/scoped_recovery.go:505-564 | in every admitted state each reversal undoes a stored original, once, and no reversal is reversed |
| StoreLaws.PutsGranted | internal/agentstate/scoped.go:223-438 | puts are granted exactly to plain texts within their bounds, outside the reserved rows and under an active scope, when the snapshots before and after are fit |
| StoreLaws.ScopeLands | internal/agentstate/scoped.go:223-253 | a scope that was put is stored as asked and nothing else changes |
| StoreLaws.LensLands | internal/agentstate/scoped.go:296-333 | a lens that was put is stored as asked, under an active scope, and nothing else changes |
| StoreLaws.ActorLands | internal/agentstate/scoped.go:412-438 | an agent that was put is stored as asked, never as the reserved one, and nothing else changes |
| StoreLaws.RegistrationLands | internal/agentstate/scoped.go:443-497 | a registration answers with an active agent of that name, new and dated now, or as it stands |
| StoreLaws.TraceLands | internal/agentstate/scoped.go:649-733 | a saved run holds exactly its traces' candidates, each with its own source, and nothing else changes |
| StoreLaws.SaveStores | internal/agentstate/scoped.go:649-733 | a run is saved under its own texts, trimmed, with at most a hundred ranked traces bound to one of the two kinds of source |
| StoreLaws.SaveThenHydrate | internal/agentstate/scoped.go:649-778 | right after a run was saved hydration is granted to exactly its own context, for exactly the records it showed, with the library and the sources it was saved with |
| StoreLaws.ResolvesIff | internal/agentstate/scoped.go:610-647 | a context resolves exactly when its three bounded ids name a scope, a lens of that scope and an agent, all there and active |
| StoreLaws.AskDormant | internal/agentstate/scoped.go:610-647 | a context that names an archived scope, lens or agent is told nothing and shown nothing |
| StoreLaws.AskAwake | internal/agentstate/scoped_feedback.go:215-251 | one whose three rows are active is told about up to a hundred thousand records |
| StoreLaws.SaveDormant | internal/agentstate/scoped.go:649-733 | no trace is saved in a dormant context |
| StoreLaws.AddedAwake | internal/agentstate/scoped_feedback.go:175-200 | any judgment that is added is on a record its run showed, in that run's scope and lens, an agent's in its own run, and the run's context is awake |
| StoreLaws.StepOnward | internal/agentstate/scoped.go:223-733 | no call removes a row, changes a creation time, reactivates what is archived or touches a stored run or judgment; new rows are active and dated by their call |
| StoreLaws.OnwardForever | internal/agentstate/scoped.go:223-733 | the same over any run of the calls |
| StoreLaws.ArchivedForGood | internal/agentstate/scoped.go:380-608 | after an acknowledged archive every context that names the row is dormant in every later state |
| ValidityLaws.FineForever | internal/agentstate/scoped_recovery.go:436-564 | in every state any run of the calls reaches, no text is blank where it must not be, too long or a secret, every original weighs what its speaker weighs, every reversal takes one back whole, every row belongs where it says, and the snapshot is within the byte limit |
| ValidityLaws.ScopeIff | internal/agentstate/scoped_recovery.go:441-450 | a scope row is valid exactly when id, name and purpose are kept within 256, 1024 and 65536 runes, its times within 256, it is active or archived, and none of its texts is a secret |
| ValidityLaws.LensIff | internal/agentstate/scoped_recovery.go:452-463 | the same for a lens and its query, and its scope id is no secret |
| ValidityLaws.ActorIff | internal/agentstate/scoped_recovery.go:465-474 | the same for an agent |
| ValidityLaws.HeaderIff | internal/agentstate/scoped_recovery.go:478-487 | a run row is valid exactly when its five own texts are kept within their bounds and none of its ids is a secret |
| ValidityLaws.CandidateIff | internal/agentstate/scoped_recovery.go:493-507 | a candidate is valid exactly when its record id is kept within 1024, its rank is positive, its scores are finite, and it has at most a thousand named ones |
| ValidityLaws.JudgmentIff | internal/agentstate/scoped_recovery.go:512-546 | a judgment's own fields are valid exactly when its texts are in bounds and no secrets and an original has one of the four effects |
| RequestLaws.RegistrationIff | internal/agentstate/scoped.go:443-497 | an agent registers exactly under an identity of the registered form and a kept name, and again only while it is active and under the same name |
| RequestLaws.RegisteredIff | internal/agentstate/scoped.go:499-510 | a registered identity is "agent-" and 32 lower-case hexadecimal digits, and so never the reserved agent |
| RequestLaws.TraceIff | internal/agentstate/scoped.go:673-695 | a trace is in order exactly when its record, rank and component names are, and its source is of one of the two kinds and known by a digest |
| RequestLaws.SavesIff | internal/agentstate/scoped.go:649-705 | a run may be saved exactly when its header is in order, it is new, its context is awake, and it shows up to a hundred records, each once and under a rank of its own |
| RequestLaws.HydratesIff | internal/agentstate/scoped.go:738-778 | a record is hydrated exactly in the very context of its run, while that is awake, and from the source the run bound it to |
| StoreHistory.StepAdmitted | internal/agentstate/scoped_recovery.go:95-251 | whichever of the nine mutations is called and however it ends, its own guard keeps the tables acceptable to the recovery validator |
| StoreHistory.AdmittedForever | internal/agentstate/scoped_recovery.go:243-251 | over any run of these calls every reachable state passes the recovery validator and fits the byte limit |
| StoreHistory.SidecarIsCurrent | internal/agentstate/recovery.go:173-185 | over any run the sidecar lists a state no older than the last acknowledged mutation |
| StoreHistory.AcknowledgedFeedbackSurvives | internal/agentstate/scoped_feedback.go:96-113 | acknowledged feedback is in the state the sidecar lists after any further calls, refused, cut short or acknowledged |
| FeedbackRecovery.RecoverFeedback | internal/agentstate/recovery.go:191-256 | acknowledged feedback is in the recovered store after any further calls and any number of crashed recoveries, and every context is told the same sums there as in the state the sidecar lists |
| FeedbackRecovery.RecoverVerdict | internal/agentstate/recovery.go:191-256 | an unscoped judgment that was acknowledged is in the recovered store, where every lens and record has the same sum |
| RoundTrip.RestoreAndRebuild | internal/agentstate/scoped_recovery.go:273-430 | restoring a snapshot of any admitted tables and building again gives the same snapshot and the same tables short of source bindings |
| RoundTrip.Recover | internal/agentstate/recovery_restore.go:8-59 | a recovered store has the same sidecar and the same feedback totals for every context and record |
| RoundTrip.AskBoth | internal/agentstate/scoped.go:737-778 | after recovery relevance answers as before and hydration is refused |
| RoundTrip.RestoreAndRebuildLegacy | internal/agentstate/recovery_restore.go:8-59 | restoring the snapshot of any valid unscoped tables and building again gives the same snapshot, lenses and judgments |
| RoundTrip.AskLegacyBoth | internal/agentstate/feedback.go:230-259 | after a recovery unscoped relevance answers as before, for every lens and every list of records |
| Ledger.SumIsStanding | internal/agentstate/scoped_feedback.go:215-251 | in a log whose undoing rows each take back one original, once, all rows together add up to the originals nobody undid |
| Ledger.PartIsStanding | internal/agentstate/scoped_feedback.go:215-251 | the same for any part of the log that holds an undoing row exactly when it holds its original |
| Ledger.SumByRecord | internal/agentstate/feedback.go:230-259 | the grouped query gives each record seen its sum, whatever order rows arrive in |
| Feedback.CountedIsStanding | internal/agentstate/scoped_feedback.go:215-251 | the same for the rows one context counts, although a reversal and its original may both be counted or neither |
| Feedback.IsolatedByContext | internal/agentstate/scoped_feedback.go:215-251 | judgments of another scope, another lens or another agent change no sum |
| Feedback.Scaled | internal/agentstate/feedback.go:322-330 | relevance lies within 0.3, and up to three full judgments it is the exact tenth |
| Feedback.SumCounted | internal/agentstate/scoped_feedback.go:229-251 | the scoped query gives each record asked about and counted the sum of the rows its context counts |
| Feedback.RetryKeyNamesIntent | internal/agentstate/scoped_feedback.go:158-173 | among the intents asked for, a token's prefix matches a derived key exactly for that token, and derived keys are equal exactly for equal intents |
| Feedback.CollisionFreeHashes | internal/agentstate/scoped_feedback.go:158-173 | there are hashes without collisions, whatever is asked for |
| FeedbackHistory.StepAdds | internal/agentstate/scoped_feedback.go:14-113 | a call that changes the log adds the one drafted judgment, the first under its token |
| FeedbackHistory.ExactlyOnceForever | internal/agentstate/scoped_feedback.go:17-95 | over any history each retry token stores at most one judgment, and it says what was asked |
| FeedbackHistory.StepKeepsTokensIff | internal/agentstate/scoped_feedback.go:130-156 | a call that adds a judgment leaves every token with at most one exactly when it carries a token or its own key lies under no token already used |
| FeedbackHistory.OtherIntentRejected | internal/agentstate/scoped_feedback.go:29-37 | a used token with any other intent is refused and nothing changes |
| FeedbackHistory.IdenticalRetryReplays | internal/agentstate/scoped_feedback.go:38-53 | an identical retry meets the condition under which the store returns the stored judgment and leaves the log alone |
| FeedbackHistory.LogOnlyGrows | internal/agentstate/scoped_feedback.go:96-113 | no call ever changes or removes a stored judgment |
| FeedbackHistory.StepMovesTotals | internal/agentstate/scoped_feedback.go:54-113 | a new judgment moves exactly the totals that count it, by its effect |
| FeedbackLaws.AddedCarries | internal/agentstate/scoped_feedback.go:54-113 | whatever a call adds carries its actor, scope, lens, agent, reason, target and time; an original also its run, record and disposition and the weight of who spoke; a reversal takes its target's effect back |
| FeedbackLaws.ApplyStores | internal/agentstate/scoped_feedback.go:14-113 | the same in terms of the call's own arguments: every text is trimmed |
| FeedbackLaws.AcknowledgedReplays | internal/agentstate/scoped_feedback.go:38-53 | a request that was acknowledged, original or reversal, by key or by token, meets the condition of a replay in the state it left |
| FeedbackLaws.AskTwice | internal/agentstate/scoped_feedback.go:38-53 | asked twice, the store answers twice with the same judgment and stores it once |
| FeedbackLaws.FeedbackMoves | internal/agentstate/scoped_feedback.go:190-251 | feedback that is added moves each sum by what it is worth there: four quarters for an owner, one for an agent, up when used and down when dismissed, an agent's for that agent only |
| RequestLaws.AsksIff | internal/agentstate/scoped_feedback.go:130-156 | a request is in order exactly when it names a run, a record and for or against under a key or a token but not both, or names a target and nothing else under a key; an owner speaks without an agent |
| RequestLaws.AgreesIff | internal/agentstate/scoped_feedback.go:253-264 | a stored judgment is the same request exactly when speaker, place, reason and target are equal, and for an original run, record and disposition |
| RequestLaws.StorableIff | internal/agentstate/scoped_feedback.go:54-113 | a judgment can be drafted exactly for a record its run showed in an awake context, or for the asker's own original that nobody took back and that is still shown |
| RequestLaws.RefusedIff | internal/agentstate/scoped_feedback.go:14-113 | a call is refused exactly when its request is out of order, its token was used for something else, its key is stored with something else, or what it says cannot be stored; and what is answered says what was asked |
| LegacyModel.LegacyBuildInjective | internal/agentstate/recovery.go:135-171 | a legacy snapshot determines the lenses and judgments it lists |
| LegacyModel.ValidateLegacy | internal/agentstate/recovery.go:87-133 | the two scans and the pass over reversals decide the declarative validity of an unscoped snapshot |
| LegacyModel.SnapshotOKIff | internal/agentstate/recovery.go:87-133 | the unscoped validator accepts a built snapshot exactly when the tables are in order |
| LegacyModel.BuildLegacySnapshot | internal/agentstate/recovery.go:135-171 | the ordered read returns the listing of both tables, or an error exactly when they are not in order |
| LegacyModel.InsertVerdicts | internal/agentstate/store.go:154-168 | the inserts go through exactly when no id, idempotency key or reversal target repeats |
| LegacyModel.RestoreLegacy | internal/agentstate/recovery_restore.go:8-59 | exactly the snapshots that validate are restored; an ordered one is read back unchanged, into tables that are in order |
| LegacyFeedback.InsertKeepsValid | internal/agentstate/feedback.go:82-137 | with no preflight to protect it, an inserted judgment still leaves a log the recovery validator accepts |
| LegacyFeedback.LegacyStore.ApplyVerdict | internal/agentstate/feedback.go:16-137 | one call is one step of the unscoped log, keeps it acceptable to recovery, and refuses only what may be refused |
| LegacyFeedback.MeantKeyNames | internal/agentstate/feedback.go:144-173 | among the meanings asked for, a token's prefix matches exactly that token's keys and a derived key names the whole meaning |
| LegacyFeedback.UnmixedDigests | internal/agentstate/feedback.go:144-173 | there are hashes that mix nothing up, whatever is asked for, and give a claim a plain identity |
| LegacyFeedback.OnceForever | internal/agentstate/feedback.go:28-121 | over any history each retry token stores at most one judgment, and it says what was meant |
| LegacyFeedback.StepSharesNeverIff | internal/agentstate/feedback.go:28-68 | the exact condition for unscoped calls: a token, or a key of the caller's under no token already used |
| LegacyFeedback.BorrowedPrefix | internal/agentstate/feedback.go:28-68 | two calls after which one token has two judgments: the token's own, and one whose caller chose a key under its prefix |
| LegacyFeedback.OtherMeaningRejected | internal/agentstate/feedback.go:60-68 | a used token with any other meaning is refused and nothing changes |
| LegacyFeedback.SameMeaningRepeats | internal/agentstate/feedback.go:69-80 | a token with the same meaning meets the condition under which its judgment is returned |
| LegacyFeedback.LegacyCountedIsUnreversed | internal/agentstate/feedback.go:230-259 | a lens's sum for a record is the sum of what nobody reversed there |
| LegacyFeedback.Relevance | internal/agentstate/feedback.go:230-259 | per record asked about, a tenth of the unreversed feedback in the lens, within 0.3; nothing for a blank lens |
| LegacyLaws.AddedSays | internal/agentstate/feedback.go:82-121 | whatever an unscoped call adds carries its voice, reason, target and time; an original its run, lens, record and disposition and the weight of who spoke; a reversal takes its target's effect back |
| LegacyLaws.AcknowledgedRepeats | internal/agentstate/feedback.go:69-80 | a claim that was acknowledged meets the condition of a repeat in the state it left |
| LegacyLaws.ClaimTwice | internal/agentstate/feedback.go:69-80 | claimed twice, it is answered twice with the same judgment and stored once |
| LegacyLaws.VerdictMoves | internal/agentstate/feedback.go:230-259 | an unscoped judgment that is added moves the sum of its lens and record by its effect, and no other |
| LegacyLaws.ClaimsIff | internal/agentstate/feedback.go:29-58 | an unscoped claim is in order exactly when it names a run, a lens and a record, or a target and nothing else, under a bounded key, and no text of it is a secret |
| LegacyLaws.InsertableIff | internal/agentstate/feedback.go:82-132 | its row can be inserted exactly when its run showed the record in its lens, or its target is an original nobody took back, and its identity is new |
| LegacyLaws.RefusedIff | internal/agentstate/feedback.go:16-137 | a call is refused exactly when its claim is out of order, its token or key is stored with something else, or its row cannot be inserted |
| ValidityLaws.LegacyIff | internal/agentstate/recovery.go:87-133 | an unscoped state is valid exactly when every lens is kept within its bounds, every original has one of the four effects, every reversal takes back one original of its run, lens and record, once, and no key repeats |
| LegacyProjection.TracedRuns | internal/agentstate/scoped.go:154-182 | a judged run is copied when its row and lens survive, otherwise rebuilt under a copied lens it was judged in, and no other run exists |
| LegacyProjection.FilledKeyed | internal/agentstate/scoped.go:191-205 | rebuilt candidates rank after the copied ones, so ranks are distinct and positive exactly when the copied ones are |
| LegacyProjection.EarliestOfGroup | internal/agentstate/scoped.go:173-182 | a rebuilt run is dated by one of its own judgments |
| LegacyProjection.EntitiesProjected | internal/agentstate/scoped.go:136-154 | projected scopes, lenses and agents are always in order |
| LegacyProjection.PairsProjected | internal/agentstate/scoped.go:206-219 | projected reversals speak with their original's voice, so they pair up as the scoped validator demands |
| LegacyProjection.ProjectionAccepted | internal/agentstate/scoped.go:126-221 | the projection commits and passes the scoped validator exactly when every judgment's lens exists, each judged run has one lens and its ranks fit |
| LegacyProjection.ProjectedAgain | internal/agentstate/scoped.go:105-221 | projecting once more, at any later time, as after a crash before the schema marker, changes nothing |
| LegacyProjection.ProjectionConserves | internal/agentstate/scoped.go:126-221 | the total effect per lens and record is conserved |
| ProjectionLaws.LensProjected | internal/agentstate/scoped.go:146-154 | over any tables every legacy lens stands under the root scope with its own name, query and times, active when new and otherwise with the status it had; no other lens changes |
| ProjectionLaws.RootProjected | internal/agentstate/scoped.go:136-144 | the reserved rows stand as they stood or newly made, the root scope active and the legacy agent archived, so that no context of it resolves; no other scope or agent changes |
| ProjectionLaws.LensUsable | internal/agentstate/scoped.go:136-154 | after a first projection the root scope, a legacy lens and any active agent form a context that resolves |
| ProjectionLaws.StatusKept | internal/agentstate/scoped.go:146-154 | a status changed between two projections is kept by the second |
| ProjectionLaws.JudgmentProjected | internal/agentstate/scoped.go:206-219 | every judgment keeps its key, run, lens, record, disposition, reason, target, effect and time, in the voice of whoever spoke first |
| ProjectionLaws.RunProjected | internal/agentstate/scoped.go:154-205 | a judged run whose row and lens survive keeps its query, lens, method, library, time and candidates, and shows every record judged in it |
| ProjectConnections.CanEncode | internal/agentstate/project_connection.go:502-536 | the encoder accepts exactly the listings with at most 256 fine rows, distinct digests and a bounded encoding |
| ProjectConnections.SnapshotWith | internal/agentstate/project_connection.go:382-401 | the simulated snapshot is the listing of the table after the row is written, with the kept creation time |
| ProjectConnections.Connections.WriteSidecar | internal/agentstate/project_connection.go:429-451 | the sidecar becomes the table's listing, or a failed write leaves the old or the new one |
| ProjectConnections.Connections.BindConnection | internal/agentstate/project_connection.go:174-249 | the answer for every combination of pending mutation, stored row, context and fault; table and sidecar differ at most at the pending digest; no answer ever given is contradicted |
| ProjectConnections.Connections.ArchiveConnection | internal/agentstate/project_connection.go:281-336 | the same for archiving; an archive that was answered is never undone |
| ProjectConnections.Connections.ResolveConnection | internal/agentstate/project_connection.go:251-279 | answers exactly for an active row with a live context and nothing pending, so what it returns is in the sidecar |
| ProjectConnections.Connections.CrashAndReopen | internal/agentstate/project_connection.go:58-163 | after a crash the table is the one the sidecar lists; every answer ever given still holds, bindings unchanged and archives kept |
| ProjectConnections.RestoreConnections | internal/agentstate/project_connection.go:129-140 | inserting the sidecar's rows gives back the table it lists |
| ConnectionLaws.LimitsOf | internal/agentstate/project_connection.go:502-536 | the encoder takes exactly at most 256 rows with digests of their own, each with a lower-case hexadecimal digest, bounded ids, one of two statuses, two times and no secrets, within 262144 bytes |
| ConnectionLaws.SidecarWithinLimits | internal/agentstate/project_connection.go:382-451 | whatever was called before, the sidecar is within those limits |
| ConnectionLaws.Lifetime | internal/agentstate/project_connection.go:174-336 | a digest that is bound resolves to its own context while that is live, refuses every other, is archived with its row kept, and then neither resolves nor binds |
| ConnectionLaws.BindWaits | internal/agentstate/project_connection.go:174-249 | while an outcome is unknown every other binding is told so |
| ConnectionLaws.ArchiveWaits | internal/agentstate/project_connection.go:281-336 | and every other archive |
| Recovery.Machine.Quarantine | internal/agentstate/recovery.go:738-772 | after any number of crashed attempts each original file is either in place or under its quarantine name, never overwritten |
| Recovery.Machine.OpenConnections | internal/agentstate/project_connection.go:58-163 | an initialised table is checked against the sidecar and corruption touches nothing; an uninitialised one gets the sidecar's rows, unless a parent is missing |
| Recovery.Machine.OpenStore | internal/agentstate/store.go:52-99 | opening a missing database creates one from the sidecars, or refuses exactly when they cannot be inserted |
| Recovery.Machine.PrepareStage | internal/agentstate/recovery.go:479-604 | a completed stage holds the acknowledged state; it is refused only when the sidecars cannot be restored |
| Recovery.Machine.InspectCanonical | internal/agentstate/recovery.go:646-685 | missing, corrupt, or complete and equal to every snapshot; an intact database that differs is an error, and nothing but the adoption marker is written |
| Recovery.Machine.Finalize | internal/agentstate/recovery.go:848-865 | every crash in finalisation leaves a known phase; the quarantine is untouched |
| Recovery.Machine.Promote | internal/agentstate/recovery.go:605-618 | the stage is renamed only over a path that holds no database, after the reconciled sidecars are written |
| Recovery.Machine.ResumeWith | internal/agentstate/recovery.go:479-644 | from every phase before finalisation an uninterrupted resumption finishes exactly when promotion was reached or the sidecars can be restored |
| Recovery.Machine.CreateMarker | internal/agentstate/recovery.go:258-295 | no quarantine name is taken, and the binding is on disk before the marker that makes it count |
| Recovery.Machine.Start | internal/agentstate/recovery.go:191-256 | a first attempt finishes exactly when it can start and the sidecars can be restored |
| Recovery.Machine.Resume | internal/agentstate/recovery.go:327-378 | changed sidecars or the finalisation gap refuse and change nothing; otherwise it finishes exactly when it can |
| Recovery.Machine.OpenRecovering | internal/agentstate/recovery.go:187-256 | every open of a disk that recovery is under way on leaves such a disk, or concludes it, whatever step it dies at |
| Recovery.Machine.RecoverAfterCrashes | internal/agentstate/recovery.go:191-378 | after any number of attempts that die at any file step, one uninterrupted run ends with the legacy state and connections there were when recovery first started, the original files quarantined, outside the finalisation gap |
| Recovery.SidecarsUnchanged | internal/agentstate/recovery.go:454-477 | nothing recovery itself writes makes its own checks of the sidecars fail |
| Recovery.FinishesFrom | internal/agentstate/recovery.go:327-378 | if the origin can be restored, no interruption outside the gap costs that |
| Recovery.StrandedIffWindow | internal/agentstate/recovery.go:848-865 | resumption is stranded exactly between the two removals of finalisation, and then the recovered database is in place |
| Recovery.ReconciledRestorable | internal/agentstate/recovery.go:605-609 | once the reconciled sidecar is written, rebuilding needs no projection |
| Recovery.RestorableFromSidecar | internal/agentstate/project_connection.go:110-140 | with a scoped sidecar, recovery is possible exactly when it lists every acknowledged connection's lens and agent |
| RecoveryConditions.PerformsWell | internal/agentstate/scoped.go:126-221 | a projection that commits these statements together is what recovery relies on: keys stay unique, no row is deleted, and without legacy rows only the reserved ones appear |
| RecoveryConditions.RestorableFromLegacy | internal/agentstate/scoped.go:126-221 | without one, exactly when no connection was acknowledged and the legacy state can be projected |
| RecoveryConditions.RecoverAnswered | internal/agentstate/project_connection.go:58-163 | once recovery is over, after any number of crashes and whether or not its last step reports an error, every connection that was ever answered is there, bound or archived as answered |
| RecoveryLaws.RecoverWhole | internal/agentstate/recovery.go:191-865 | after any number of attempts that die at any file step, a run that concludes leaves one complete database with the unscoped rows, the scoped rows and the connections there were, its sidecars, no marker or binding, and every original file set aside; with a scoped sidecar that lists each connection's lens and agent it does conclude, from every disk a run can go on from; from a marked disk that no run can go on from nothing changes |
| RecoveryLaws.ConcludedSays | internal/agentstate/recovery.go:479-865 | what a concluded recovery has left, file by file |
| RecoveryConditions.ReplacedRefused | internal/agentstate/recovery.go:454-477 | whatever else is on the disk, recovery never goes on from a connection sidecar other than the one it started from: every open is refused and changes nothing |
| RecoveryConditions.PresenceRefused | internal/agentstate/recovery.go:297-378 | the same for an unscoped sidecar that appeared or went away |
| RecoveryConditions.UnboundRefused | internal/agentstate/recovery.go:348-359 | on a disk with a marker and no binding, initialised connections or a connection sidecar make every open answer with a refusal and change nothing |
| UnlistedLens.PutBindCrash | internal/agentstate/project_connection.go:174-249 | from any acknowledged state: a new lens is put, its sidecar write fails, a connection to it is bound and acknowledged, the process dies; the sidecars left behind leave out the connection's lens |
| UnlistedLens.KeepsRefusing | internal/agentstate/project_connection.go:110-140 | from such a disk every run is refused, whatever ran before it and wherever that died |
| UnlistedLens.LostOnce | internal/agentstate/scoped.go:296-333 | the calls that lead there from a new database |
| Windows.EmbeddingChunks | internal/agentretrieval/hybrid.go:713-743 | the loop returns the trimmed, non-blank texts of the one tiling of the trimmed value |
| Windows.TilingIff | internal/agentretrieval/hybrid.go:713-743 | windows that follow the arithmetic until the first that reaches the end exist once, and their number has a closed form |
| Windows.Shape | internal/agentretrieval/hybrid.go:713-743 | at most eight windows of at most 2000 runes, starts non-decreasing from zero, the last ending at the end |
| Windows.ExactOverlap | internal/agentretrieval/hybrid.go:713-743 | up to 14600 runes neighbours share exactly 200 |
| Windows.EvenSpread | internal/agentretrieval/hybrid.go:713-743 | beyond 14600 there are exactly eight full windows and start steps differ by at most one |
| Windows.CoverageExact | internal/agentretrieval/hybrid.go:713-743 | every rune is in some window exactly when there are at most 16000 |
| EmbeddingCache.EmbeddingStore.Load | internal/agentstate/store.go:219-240 | a row answers only for its own text and model; a matching row that does not decode is deleted |
| EmbeddingCache.EmbeddingStore.Save | internal/agentstate/store.go:242-270 | one row per chunk, replaced whole, or refused with no change |
| EmbeddingCache.EmbeddingStore.Prepare | internal/agentretrieval/hybrid.go:414-471 | on success exactly the chunks' vectors, each its own text's embedding, whatever the cache held; success exactly when every batch is answered in full and every vector can be stored |
| EmbeddingCache.EachSentOnce | internal/agentretrieval/hybrid.go:439-471 | each missing text is sent once, in order, in batches of one to thirty-two |
| EmbeddingCache.StaysHonest | internal/agentretrieval/hybrid.go:414-471 | after success or failure every usable row holds its own text's embedding and other chunks' rows are untouched |
| EmbeddingCache.CachedAfter | internal/agentretrieval/hybrid.go:414-471 | a chunk is cached afterwards exactly when it was before or was saved by this run |
| EmbeddingCache.ResumesWhereItStopped | internal/agentretrieval/hybrid.go:414-471 | a rerun after a failure misses exactly the chunks that were not saved |
| EmbeddingCache.ChunkIDInjective | internal/agentretrieval/hybrid.go:745-751 | a chunk's name gives back its document and index |
| EmbeddingCache.SemanticChunks | internal/agentretrieval/hybrid.go:400-412 | the chunks are each document's texts in order, named by their place |
| EmbeddingCache.ChunksDistinct | internal/agentretrieval/hybrid.go:400-412 | distinct documents never share a chunk name |
| SemanticScores.ScoreChunks | internal/agentretrieval/hybrid.go:369-384 | each record with a chunk gets the score of its best one, and an error exactly when some chunk cannot be scored |
| SemanticScores.ScoreSets | internal/agentretrieval/hybrid.go:341-384 | the score tables are those of embedding every chunk directly, although vectors come from the cache; queries are trimmed and cut to a chunk's length, and an error is returned exactly for no embedder, no query, a blank one, or an incomplete answer |
| SemanticScores.CacheDoesNotShow | internal/agentretrieval/hybrid.go:341-384 | two successful runs agree however different their caches were |
| Ranking.RankScores | internal/agentretrieval/hybrid.go:767-793 | a document's rank is one more than the number of finite scores ahead of it, nothing beyond a hundred: the same for every iteration order |
| Ranking.Eligible | internal/agentretrieval/hybrid.go:275-298 | the scoped cut keeps exactly the hundred best by query-only authorization |
| Ranking.Rank | internal/agentretrieval/hybrid.go:101-331 | the hits are the pool in strict order of score and id, cut to the limit only outside a scope; an error exactly for a blank query, a limit over a hundred, or a failed search, lens or feedback lookup |
| Ranking.EligibilityIgnoresContext | internal/agentretrieval/hybrid.go:215-303 | who is eligible does not depend on scope or lens, and is at most a hundred |
| Ranking.ContextKeepsMembership | internal/agentretrieval/hybrid.go:196-330 | for fixed documents, lexical hits and query-only scores, every context, feedback and limit returns the same set of ids |
| Ranking.BaseIsShare | internal/agentretrieval/hybrid.go:304-313 | a normalised base lies between zero and one |
| Ranking.FeedbackIsBounded | internal/agentretrieval/hybrid.go:304-326 | no document is overtaken by one whose base is more than 0.6 lower |
| Ranking.DominanceDecides | internal/agentretrieval/hybrid.go:215-330 | outside a scope, with equal feedback, a document no worse in both rank lists and better in one comes first |
| RankingLaws.OrderIff | internal/agentretrieval/hybrid.go:280-330 | of any two hits the one with more base and feedback together comes first, and among equals the smaller id |
| RankingLaws.MoreFeedbackFirst | internal/agentretrieval/hybrid.go:299-325 | of two hits with one base the one with more feedback comes first |
| RankingLaws.LeadDecides | internal/agentretrieval/hybrid.go:299-325 | a hit whose base leads by more than the feedback difference comes first |
| RankingLaws.RaisedNeverSinks | internal/agentretrieval/hybrid.go:299-330 | raising one document's feedback, and nothing else, never moves it down or out |
| RankingLaws.BaseIsFused | internal/agentretrieval/hybrid.go:205-300 | a base is the share of the best document's: twice the words' and once the meaning's reciprocal rank from sixty, or both meanings' in a scope with its own |
| RankingLaws.EligibleIff | internal/agentretrieval/hybrid.go:262-285 | a scoped search shows exactly the documents with any authority that fewer than a hundred others precede |
| RankingLaws.LikedOvertakes | internal/agentretrieval/hybrid.go:299-330 | two documents found by their words and the second one liked: it comes first, at 61/62 and a tenth |
| Ranking.MeanFeedback | internal/agentretrieval/hybrid.go:640-655 | the exact mean over the aliases that have feedback, within 0.3, and none when none has |
| FeedbackRelevance.SortedAliases | internal/agentretrieval/hybrid.go:658-678 | the trimmed, non-blank aliases once each in order, or the document's own id when there are none |
| FeedbackRelevance.AskAll | internal/agentretrieval/hybrid.go:612-639 | asking in batches answers what one question about all aliases would, from the scoped or the unscoped log; an error exactly when something is asked of a context that is not live |
| FeedbackRelevance.DocumentRelevance | internal/agentretrieval/hybrid.go:590-656 | each document has the mean of the store's answers over its own aliases, within 0.3, none when it has no feedback; nothing without a lens; an error exactly when the store refuses |
| FeedbackRelevance.AskedUnder | internal/agentretrieval/hybrid.go:658-680 | a document is asked about under its aliases, trimmed, and under its own id only when it has none |
| FeedbackRelevance.Refusals | internal/agentretrieval/hybrid.go:590-656 | a request that names a scope or an agent is answered exactly in a live context, one that names neither always |
| Evidence.MarginUnique | internal/agentretrieval/hybrid.go:795-816 | top scores and margin are a function of the scores |
| Evidence.TopScoreMargin | internal/agentretrieval/hybrid.go:795-816 | for every iteration order, the two highest finite scores with repeats counted, and their distance |
| Evidence.ReadAliases | internal/agentretrieval/hybrid.go:561-579 | accepts exactly non-empty lists of non-blank aliases with no repeat |
| Evidence.ReadDocuments | internal/agentretrieval/hybrid.go:480-510 | accepts exactly catalogues with distinct ids, strict aliases and no two unique resources sharing their alias |
| Evidence.FindWinner | internal/agentretrieval/hybrid.go:511-528 | for every iteration order, the highest score and among equals the smallest id, or an error exactly when a score is not finite or names no document |
| Evidence.WinnerUnique | internal/agentretrieval/hybrid.go:511-528 | there is one winner |
| Evidence.AuthorizationUnique | internal/agentretrieval/hybrid.go:473-559 | winner, runner-up and margin are a function of the scores and the catalogue |
| Evidence.DistinctEvidence | internal/agentretrieval/hybrid.go:473-559 | returns the one authorization there is, and none only when there is none |
| Evidence.DistinctAgainstPlain | internal/agentretrieval/hybrid.go:473-559 | the runner-up never exceeds the plain second score, and the distinct margin is at least the plain one exactly when a competitor remains or the plain margin is at most one |
| Evidence.RunnerIsBestRival | internal/agentretrieval/hybrid.go:534-558 | the runner-up is the best of the rivals, which are all scored documents but records known by exactly the winner's aliases; without one the margin is one |
| Evidence.RecordRivals | internal/agentretrieval/hybrid.go:534-558 | a record known by another alias narrows the margin to its distance |
| Evidence.LoneWinnerNarrower | internal/agentretrieval/hybrid.go:551-555 | a readable catalogue and scores for which dropping the only rival narrows the margin |
| RunIdentity.EncodeBase32Lower | internal/controlrun/validation.go:42-65 | the accumulator loop writes the data's bits padded with zeros to whole symbols, and never holds more than twelve bits |
| RunIdentity.EncodingUnique | internal/controlrun/validation.go:42-65 | data has one encoding |
| RunIdentity.EncodingInjective | internal/controlrun/validation.go:42-65 | an encoding comes from one value of its length |
| RunIdentity.CanonicalIffEncoding | internal/controlrun/validation.go:67-80 | the accepted suffixes are exactly the encodings of sixteen bytes |
| RunIdentity.AgreesWithStandard | internal/controlrun/validation.go:42-65 | the loop writes what section 6 of RFC 4648 writes group by group, unpadded and lower-cased |
| RunIdentity.ValidateRunID | internal/controlrun/validation.go:67-80 | the checks accept exactly stamped identities with a real time and canonical pad bits |
| RunIdentity.NewRunID | internal/controlrun/validation.go:30-40 | a new identity ends in the encoding of sixteen bytes of entropy; an error exactly for a zero time or no reader, and another for too little entropy |
| RunIdentity.AcceptedIffMade | internal/controlrun/validation.go:30-80 | an identity is accepted exactly when it is one that could have been made |
| RunIdentity.IdentityIff | internal/controlrun/validation.go:30-80 | the accepted identities are, one and all, a prefix, eight digits, T, six digits, Z that name a real time, and the encoding of some sixteen bytes |
| RunPointer.Pointer.Replace | internal/controlrun/repository.go:123-126 | wherever the write fails, either file holds its old or its new document whole |
| RunPointer.Pointer.CompareAndSwap | internal/controlrun/repository.go:80-132 | the answer for every file, revision and fault; a document lands exactly on top of the one expected, which becomes the backup, or on a missing file the caller's own default stood for |
| RunPointer.Pointer.Recover | internal/controlrun/recovery.go:23-83 | only an unreadable file is replaced, only for the problem shown, with the version after the backup's |
| RunPointer.RevisionsNameDocuments | internal/controlrun/repository.go:80-132 | over any sequence of swaps, damage, removals and recoveries a revision names one document |
| RunPointer.ReadGoesStale | internal/controlrun/repository.go:106-108 | what a process reads is stale once another document lands |
| RunPointer.StaysStale | internal/controlrun/repository.go:106-108 | and stays stale whatever happens later |
| RunPointer.StaleIsCurrentIff | internal/controlrun/repository.go:150-168 | a stale revision is current again exactly when there is no file and it is the reader's own default |
| RunPointer.StaleSwapIff | internal/controlrun/repository.go:80-132 | so a swap that expects one is let through exactly then |
| RunPointer.DeletionRevives | internal/controlrun/repository.go:150-156 | a history in which the file is removed and a stale default swap goes through |
| RunPointer.VersionComesBack | internal/controlrun/recovery.go:60-68 | a history in which recovery reissues a version number, told apart by its generation |
| Inventory.HasEmptyOrDuplicate | internal/acquisition/types.go:484-493 | finds exactly the lists with an empty, over-long or repeated entry, lengths in UTF-8 bytes |
| Inventory.CheckSide | internal/acquisition/types.go:265-287 | one side's lists are accepted exactly when every listed occurrence names its lister and every occurrence is listed |
| Inventory.ListedOnce | internal/acquisition/types.go:265-287 | each occurrence is listed by exactly one entry, the one it names |
| Inventory.LengthIsCount | internal/acquisition/types.go:265-287 | a side's list lengths add up to the number of occurrences |
| Inventory.ValidateStrata | internal/acquisition/types.go:417-439 | accepts exactly named strata that count their items and leave none out |
| Inventory.BuildStrata | internal/acquisition/types.go:441-461 | one stratum per key in ascending order, each with its items' count |
| Inventory.BuiltAccepted | internal/acquisition/types.go:417-461 | built strata with names are always accepted, whatever the names contain |
| Inventory.AcceptedIsPermutation | internal/acquisition/types.go:417-461 | where no item's key reads two ways, any two accepted lists of strata are permutations of each other |
| Inventory.NulFreeReadsOneWay | internal/acquisition/types.go:417-461 | no key reads two ways when no name holds a NUL |
| Inventory.DeterminedIff | internal/acquisition/types.go:417-461 | named items determine their strata, up to order, exactly when no key reads two ways |
| Inventory.TwoReadings | internal/acquisition/types.go:417-461 | an item with two accepted lists of strata that are not permutations |
| Inventory.ValidateInventory | internal/acquisition/types.go:163-302 | the loops over maps decide declarative validity |
| Inventory.DoubleEntry | internal/acquisition/types.go:163-302 | in an accepted inventory both sides add up to the declared count and each occurrence is entered once on either side |
| InventoryLaws.AcceptedIff | internal/acquisition/types.go:163-302 | an inventory is accepted exactly when its header is within the limits and sealed, no two rows share a name, no two occurrences a place and no two public items an address, every row is fine, both sides account for every occurrence, and the strata count the items |
| InventoryLaws.HeaderIff | internal/acquisition/types.go:163-301 | the header is fine exactly when it is named, counts its rows, stays within 100000 records and 250000 items and occurrences, is sealed, and its checks are known |
| InventoryLaws.ItemIff | internal/acquisition/types.go:212-236 | an item is fine exactly when it is public with a web address, or redacted and saying nothing but that |
| InventoryLaws.OccurrenceIff | internal/acquisition/types.go:238-263 | an occurrence is fine exactly when its record and item are listed and its address is withheld exactly when the item's is |
| ProofSample.SplitOfKey | internal/activationapp/proof.go:552-564 | splitting a joined key gives back names without NUL |
| ProofSample.SelectProofInventory | internal/activationapp/proof.go:518-570 | the sample holds exactly the selected items, what they show, and the cut records, sealed; it is returned exactly when valid |
| ProofSample.SampleValid | internal/activationapp/proof.go:518-570 | a valid inventory cut to any selection is valid exactly when the selected items' stratum names survive splitting |
| ProofSample.SampleOfNulFree | internal/activationapp/proof.go:518-570 | inventories without NUL in their names are closed under sampling |
| ProofSample.SeparatorInName | internal/activationapp/proof.go:552-564 | a name that does not survive splitting |
| ProofSample.SampleRefused | internal/activationapp/proof.go:518-570 | a valid inventory, and a selection from it that is refused |
| ReviewQueue.FrozenUnique | internal/activationapp/proof.go:434-460 | items and sample determine the queue's rows and counts |
| ReviewQueue.QueueSays | internal/activationapp/proof.go:405-420 | a frozen queue has for each item a row with its strategy and format, pending when selected, and counts them |
| ReviewQueue.BuildQueue | internal/activationapp/proof.go:405-432 | a sealed queue of this inventory and sample that lists every item once in order, the selected ones pending, with exact counts; none exactly when there can be none |
| ReviewQueue.ValidateQueue | internal/activationapp/proof.go:421-432 | accepts exactly the sealed queue that would be built anew |
| ReviewQueue.Desk.MarkReviewed | internal/activationapp/proof.go:462-474 | exactly the pending rows become reviewed and the queue is sealed again; an error exactly for a missing part or a queue its validator refuses |
| ReviewQueue.ValidateReviewed | internal/activationapp/proof.go:476-494 | the reviewed queue's validator decides what it demands: the seal, the ties, the number of rows, no id twice, and each row's state |
| ReviewQueue.MarkedIsAccepted | internal/activationapp/proof.go:462-494 | a frozen queue that is marked and sealed again is accepted exactly when its new fingerprint is not empty, and lists the inventory's items |
| ReviewQueue.NeverBoth | internal/activationapp/app.go:1061-1069 | a queue passes both validators only when none of its items is selected |
| ReviewQueue.QueuesStand | internal/activationapp/proof.go:421-494 | either kind of accepted queue is of this very inventory and sample and sealed over all the rest of it; a frozen one is in ascending order, a reviewed one has each row once, reviewed exactly when it was selected |
| ReviewQueue.ReviewedElsewhere | internal/activationapp/proof.go:476-494 | an accepted reviewed queue whose row is of no item of the inventory |
| Delivery.App.StartPreview | internal/activationapp/delivery.go:16-85 | a preview starts exactly when nothing is in flight and the budgets allow it, and is returned exactly when its batch compiles within them and its preflight answers |
| Delivery.App.FinishPreview | internal/activationapp/delivery.go:86-104 | only the latest started preview is stored, and only for the route and connection it was made from |
| Delivery.App.Approve | internal/activationapp/delivery.go:121-188 | the answer and the state for every case; what is sent is the stored batch, approved under the same fingerprints, with nothing else in flight |
| Delivery.App.Resume | internal/activationapp/delivery.go:216-248 | a resume sends exactly what was approved, at most one delivery at a time, and a finished delivery is answered without sending |
| Delivery.App.EndDelivery | internal/activationapp/delivery.go:189-208 | the delivery that ends is the one in flight |
| Delivery.ConnectsRace | internal/activationapp/app.go:407-490 | of two connects in progress the one adopted first leaves the other turned away, and so is every preview started before |
| Delivery.App.FinishConnect | internal/activationapp/app.go:464-490 | a connect is adopted exactly while run, state and generation are the ones it started from; once adopted, every preview and every connect in progress is overtaken |
| Delivery.App.Cancel | internal/activationapp/app.go:606-623 | a cancellation is recorded exactly for the stored approval, and changes nothing else |
| Delivery.App.Disconnect | internal/activationapp/app.go:624-634 | a disconnect overtakes every preview and every connect in progress |
| Delivery.DisconnectOvertakes | internal/activationapp/app.go:407-490 | what was in progress before a disconnect is turned away, also after a new connect is adopted |
| Delivery.App.ChangeRoute | internal/activationapp/app.go:844-857 | redoing an earlier stage drops every destination artifact |
| Delivery.App.Leave | internal/activationapp/run_selection.go:207-218 | a run is left exactly when nothing is in flight and it has no approval, or a delivery, a zero record or a cancellation; a new preview clears the first two and keeps the last; leaving overtakes whatever was in progress |
| Delivery.App.Activate | internal/activationapp/run_selection.go:120-172 | activating a run takes up what was last committed for it |
| Delivery.App.Restart | internal/activationapp/run_selection.go:120-172 | after a restart nothing is in flight and the state file still holds consistent approvals |
| Delivery.AlwaysFaithful | internal/activationapp/delivery.go:16-248 | whatever order the calls come in, every batch ever handed to delivery is the one its approval names, and each stored preview and approval is of its stored batch |

## Left out

- LegacyProjection.ProjectionAccepted: projectLegacyState is stated as a function of the tables, statement by statement, and not as an update in place; the tables before it are empty, hold only the reserved rows, or (ProjectedAgain) are what it left; which judged lens a rebuilt run keeps is left open where several were copied; the privacy check before the statements is a precondition, as rows without secrets.
- ScopedStore.Store.WriteSidecar: the unscoped sidecar that the same call writes first is not part of this state; LegacyFeedback.LegacyStore writes it, and a failure there is a write that failed before this one.
- FeedbackHistory.ExactlyOnceForever: requests that share a hash are excluded, and so are caller-chosen keys that start with the retry prefix, whose effect StepKeepsTokensIff states.
- LegacyFeedback.OnceForever: the same.
- ScopedStore.Store.ApplyJudgment: the token lookup is an exact prefix match; SQLite's LIKE also ignores the case of ASCII letters, which the hexadecimal prefix never has.
- LegacyFeedback.LegacyStore.ApplyVerdict: the write after a judgment covers the legacy sidecar only; the scoped one written beside it is the scoped store's.
- Recovery.Machine.RecoverAfterCrashes: the sidecars there were at the start were written by the store, so they are readable and valid (one that is not makes every open refuse); fingerprints stand for what they were taken of, and one run uses one clock value; a scoped sidecar over its byte limit is not lost, but the finished recovery then reports an error.
- FeedbackRelevance.DocumentRelevance: both logs are those of one moment; a write between two batches is not modelled.
- ProjectConnections.Connections.CrashAndReopen: the reopened table is rebuilt from the sidecar directly; whether its parents exist is decided by Recovery.
- RunPointer.RevisionsNameDocuments: what happens to the files outside the program is damage and removal; putting back a copy of an earlier document is not modelled.
- Inventory.ValidateInventory: a record's timestamps, edit state, file counts and content fingerprint are one opaque check.
- Delivery.App.Activate: lease, journal and the reconciliation of a run when it is taken up are left out.
- Delivery.App.FinishConnect: the state and the run a connect compares stand for the state's fingerprint, which a failed lease renewal leaves one step behind; reconciling with the destination is its outcome only.
- EmbeddingCache.ChunksDistinct: documents with the same id are excluded; the index rejects them before.
- Delivery.App.Approve: the bypass that tests use is not modelled; a human approval is for the preview shown.
- SQLite, WAL and file-mode mechanics, fsync and path containment: a transaction is atomic, and a private write leaves the old or the new content.
- JSON text, the secret scanner, URL checks and time formats: opaque predicates and a total order on strings.
- Random generation: tokens and generations are fresh.
- Cosine similarity, the lexical backend and the embedding provider: functions and ranks the retrieval model is given.
- Floating-point rounding: scores are exact reals.
- Identifier evidence and the component map of a hit: easy members beside the ranking.
- The assurance transition table, founder review checks, command dispatch, handlers and templates.
