# Verified model of brokered onboarding

An unregistered provisional shell becomes a durably owned Runtime exactly once. This project models the
parts of the repository that make this so, in Dafny 4.11, and proves what they promise over every input,
every run and every crash point.

| module | models |
|---|---|
| `Bytes`, `Claims`, `Capability` | the digest streams, the token grammar, issuing and revalidating a launch capability |
| `StableLock`, `LockSafety`, `LockRecovery`, `LockHost`, `LockCourse` | the stable lock file: interleaved system calls, an adversary at the path, the calls themselves, and their course from the old schema to a held lease |
| `Ownership`, `OwnershipSafety`, `OwnershipOutcomes`, `OwnershipWitnesses` | marker-backed provisional ownership under the lease, and exactly when each of its calls succeeds |
| `Onboarding`, `OnboardingSafety`, `OnboardingRuns`, `OnboardingCrashes`, `OnboardingOutcomes`, `OnboardingCourses`, `Broker`, `Handoff` | the durable journal and the presentation marker, the broker and helper steps that move both, what a stop between the two writes leads to, exactly when each step succeeds, and the courses of both providers |
| `Handshake` | the one-shot capability of the two-phase handshake, with interleaved processes |
| `EffectJournal`, `EffectCourses` | a POST that cannot be repeated, behind a phase record |
| `Grammar`, `Scanners`, `GrammarReach` | the fresh-session argument grammar, its two scanners, and what it reaches |
| `Signals`, `Terminator`, `CleanupOutcomes` | signalling a process group while process numbers are reused |
| `StableSource` | the stable-boundary wait and the Fork retry |
| `Framer`, `ProcessTree`, `RootSearch` | line framing, process-tree closure, and the root-path search |
| `Providers`, `Sets`, `Strings` | the two providers; facts about finite sets, characters and sequences |

State that the sources change in place is a class whose methods are proved equal to a step function on
values; the safety results are about runs of those steps. SHA-256 is a parameter: where a result needs
different inputs to have different digests, it names the one collision that would break it. An assumption
that no collision exists at all would be contradictory, so none is made. Randomly drawn identifiers that
must be new are parameters, and a step with one that is taken does not happen.

Some results are about behaviour that the documentation does not mention or that its text excludes. Each
has its exact condition, and where it is a failure, a lemma with a run or an input that meets it:

- The claim digest covers a version and 22 fields (`src/onboarding.rs`), each recovered by the decoder.
- `materialize` refuses a taken candidate name only after it has made the presentation directory, which
  then can never be materialized (`OwnershipSafety.CollisionStrandsPresentation`, `OwnershipWitnesses.LateMaterializationHappens`).
- The 33rd promotion succeeds and makes the registry unreadable for every later call
  (`OwnershipSafety.OverfullIsTheEnd`, `OwnershipWitnesses.OverfillHappens`).
- `cleanup` of an issued handle whose artifacts are not exact cancels the journal and is then refused
  (`OwnershipSafety.RefusalEffects`, `OwnershipWitnesses.LateCleanupHappens`).
- A pidfd stays open exactly when the identity read right after opening it is ambiguous
  (`CleanupOutcomes.CleanupBalances`, `CleanupOutcomes.LeakHappens`); everything else is closed exactly once.
- A cleanup that finds its recorded leader gone and the group quiet succeeds without looking at the root,
  though it was asked to (`CleanupOutcomes.SuccessIsClear`, `CleanupOutcomes.RootIsSkipped`).
- The caller that dies between its POST and the answer leaves a journal that no operation resolves
  (`EffectJournal.LostAnswerIsForever`, `EffectJournal.LostAnswerHappens`).
- The chunk that exceeds the output bound is counted but dropped, and no line is ever returned afterwards
  (`Framer.ConservedOverRuns`, `Framer.OverTheBoundIsTheEnd`, `Framer.OverrunHappens`).
- A Fork command that fails without the one recognised diagnostic may have created its Fork; the retry
  never runs in that case (`StableSource.ForkedAtMostOnce`, `StableSource.FailureIsUndecided`).
- The handshake's token parser ignores every dot when it checks the alphabet, so a secret may hold dots
  (`Handshake.ParseExactly`, `Handshake.DottedSecretParses`).

## Model

| member | source | states |
|---|---|---|
| Bytes.ConstantTimeEqIsEquality | src/onboarding.rs:491-501 | the branch-free comparison by gathered exclusive-ors is equality, for all byte strings |
| Bytes.HexRoundTrip | src/onboarding.rs:549-559 | printed hexadecimal is read back |
| Claims.ClaimStreamDecodes | src/onboarding.rs:198-264 | a decoder recovers all 22 claim fields from the one byte stream that is hashed |
| Claims.ClaimStreamInjective | src/onboarding.rs:455-461 | equal streams come from equal claim sets, printed numbers and UUIDs included |
| Claims.ClaimDigestBinds | src/onboarding.rs:198-264 | equal claim digests mean equal claims or a collision of exactly the two streams |
| Claims.ArgumentStreamSplits | src/onboarding.rs:534-547 | splitting on NUL recovers provider and arguments, so `[]` and `[""]` differ |
| Claims.ArgumentDigestBinds | src/onboarding.rs:534-547 | equal argument digests mean equal provider and arguments or a named collision |
| Claims.StreamsAreSeparated | src/onboarding.rs:23-28 | claim, argument and verifier streams never coincide |
| Claims.HashClaims | src/onboarding.rs:198-264 | feeding the hasher field by field hashes exactly the claim stream |
| Claims.HashArguments | src/onboarding.rs:534-547 | feeding the hasher argument by argument hashes exactly the argument stream |
| Capability.Issue | src/onboarding.rs:353-380 | succeeds exactly for 0 <= now < expiry <= now + 60000; no 64-bit overflow lets another pair through |
| Capability.TokenGrammar | src/onboarding.rs:432-442 | accepted tokens are exactly a canonical UUID, a dot and 64 lower-case digits |
| Capability.IssuedMetadataSurvives | src/onboarding.rs:292-311 | issued metadata comes back from persistence unchanged |
| Capability.PersistedExactly | src/onboarding.rs:292-311 | metadata comes back exactly with a readable identifier, a positive expiry and a digest of each kind |
| Capability.VerifierBinds | src/onboarding.rs:444-453 | equal verifiers mean equal tokens or a named collision |
| Capability.VerifyExactly | src/onboarding.rs:398-427 | against any metadata, revalidation passes exactly in time, for metadata persistence returns, a token of its identifier and verifier, and claims of its digest |
| Capability.VerifyIssued | src/onboarding.rs:398-427 | the exact outcome for any token, claims and time against an issued capability |
| Capability.VerifyAcceptsExactly | src/onboarding.rs:398-427 | without a collision exactly the issued token and claims pass, from clock zero until expiry |
| StableLock.ContentDetermines | spikes/d17-provisional-lock.py:114-135 | the artifact's bytes determine host and generation |
| LockSafety.AtMostOneHolder | spikes/d17-provisional-lock.py:352-373 | in every interleaving with crashes and a path adversary at most one actor holds the ready lease, and it locked the recorded inode |
| LockSafety.MetadataIsWrittenOnce | spikes/d17-provisional-lock.py:305-349 | a ready row keeps generation, device and inode for ever |
| LockRecovery.ReadyNamesTheExactArtifact | spikes/d17-provisional-lock.py:305-349 | without an adversary, a ready row names an inode with the exact content |
| LockRecovery.ArtifactIsNeverReplaced | spikes/d17-provisional-lock.py:278-302 | an artifact nobody is writing is left in place and unchanged by every call and crash |
| LockHost.RerunFinalisesOrRefuses | spikes/d17-provisional-lock.py:305-349 | from any crash point an installer that runs alone finalises an exact artifact, creates a missing one in any number of writes, or changes nothing |
| LockHost.AcquireAlone | spikes/d17-provisional-lock.py:352-373 | the system calls of an acquisition that runs alone come to exactly the acquired state, or leave the state as it was |
| LockCourse.MigrateAlone | spikes/d17-provisional-lock.py:247-275 | a migration that runs alone adds its one pending row or leaves the state as it was |
| LockCourse.ContentExactly | spikes/d17-provisional-lock.py:114-135 | which hosts and generations have an artifact: 32 lower-case digits and a positive number of at most 408 |
| LockCourse.VerifiedExactly | spikes/d17-provisional-lock.py:278-302 | an artifact that was written is opened only if it now holds exactly the content |
| LockCourse.LeaseIsHeldInTheEnd | spikes/d17-provisional-lock.py:247-373 | from every reachable state of the old schema, migrating, installing and acquiring alone ends with the lease held, through the artifact that was made and recorded |
| LockHost.Host.MigrateSchema14 | spikes/d17-provisional-lock.py:247-275 | migration adds one pending row, exactly on schema 13 with no artifact and no row |
| LockHost.Host.CreateLock | spikes/d17-provisional-lock.py:278-302 | exclusive creation, written out however short each write is |
| LockHost.Host.OpenValidated | spikes/d17-provisional-lock.py:150-182 | validation succeeds exactly on the named, private, exact artifact |
| LockHost.Host.InstallPending | spikes/d17-provisional-lock.py:305-349 | the whole new state of an installation, with locks of others held or not |
| LockHost.Host.AcquireReady | spikes/d17-provisional-lock.py:352-373 | an acquisition locks exactly the recorded inode, exactly when it can |
| Ownership.StateRoot.MarkerCandidates | spikes/d17-provisional-ownership.py:274-292 | every marker is parsed; one bad marker refuses the namespace |
| Ownership.StateRoot.ClassifyNamespace | spikes/d17-provisional-ownership.py:332-356 | the directory loop computes the declarative class of the namespace |
| Ownership.StateRoot.MaterializeCandidate | spikes/d17-provisional-ownership.py:369-402 | materialization is its step, stranded directory included |
| Ownership.StateRoot.PrepareCandidate | spikes/d17-provisional-ownership.py:453-460 | preparation is its step |
| Ownership.StateRoot.CleanupCandidate | spikes/d17-provisional-ownership.py:471-493 | cleanup is its step, cancellation before refusal included; when it succeeds is OwnershipOutcomes.CleanedExactly |
| Ownership.StateRoot.PromoteCandidate | spikes/d17-provisional-ownership.py:496-512 | promotion is its step: ownership, journal, marker |
| Ownership.StateRoot.ProveCandidateExec | spikes/d17-provisional-ownership.py:521-527 | the exec proof is its step |
| OwnershipSafety.SingletonCandidate | spikes/d17-provisional-ownership.py:332-356 | in every run at most one marker, its candidate not owned, and the runtime directories are exactly owned ids, that candidate and foreign artifacts |
| OwnershipSafety.OneWinnerPerSlot | spikes/d17-provisional-ownership.py:471-512 | per slot generation cleanup or promotion succeeds at most once; the loser is refused or a no-op for ever |
| OwnershipSafety.OwnershipIsPermanent | spikes/d17-provisional-ownership.py:496-512 | no run removes an owned runtime or its directory |
| OwnershipSafety.StaleHandleChangesNoMarker | spikes/d17-provisional-ownership.py:471-512 | a handle that is not the current marker changes no marker and no directory |
| OwnershipSafety.ActionsAreFenced | spikes/d17-provisional-ownership.py:515-527 | actions are allowed only after this candidate was promoted and then proven |
| OwnershipSafety.ProvenActionsStayAllowed | spikes/d17-provisional-ownership.py:515-518 | once proven they stay allowed while the registry can be read |
| OwnershipSafety.RefusalEffects | spikes/d17-provisional-ownership.py:359-402 | a refusal leaves every file as it was, exactly unless one of two guards is met |
| OwnershipSafety.CollisionStrandsPresentation | spikes/d17-provisional-ownership.py:359-366 | a directory left by a collision keeps its presentation out for ever |
| OwnershipSafety.PromotionCanOverfill | spikes/d17-provisional-ownership.py:295-329 | a promotion overfills the registry exactly when it holds 32 |
| OwnershipSafety.OverfullIsTheEnd | spikes/d17-provisional-ownership.py:295-319 | after that every call is refused in every later state |
| OwnershipOutcomes.MaterializedExactly | spikes/d17-provisional-ownership.py:369-402 | materialization succeeds exactly for the presentation's own undisturbed candidate, or a creatable one in an untouched namespace, and what it then leaves |
| OwnershipOutcomes.PreparedExactly | spikes/d17-provisional-ownership.py:453-460 | a capability is issued exactly for an undisturbed candidate without a record |
| OwnershipOutcomes.CleanedExactly | spikes/d17-provisional-ownership.py:471-493 | cleanup succeeds exactly for the marker's own handle with its seed, exact artifacts and no record or its own issued or cancelled one; what it then leaves |
| OwnershipOutcomes.CleanupRefusedBecause | spikes/d17-provisional-ownership.py:471-493 | why any other cleanup is refused |
| OwnershipOutcomes.PromotedExactly | spikes/d17-provisional-ownership.py:496-512 | promotion succeeds exactly for an undisturbed candidate with an issued record |
| OwnershipOutcomes.ProvenExactly | spikes/d17-provisional-ownership.py:521-527 | an exec proof succeeds exactly for an owned runtime with its own launching record |
| OwnershipOutcomes.AllowedExactly | spikes/d17-provisional-ownership.py:515-518 | actions are allowed exactly for an owned runtime with its own proven record |
| OwnershipOutcomes.CleanupUndoes | spikes/d17-provisional-ownership.py:369-493 | cleaning up takes creation and preparation back, but for the slot generation and a cancelled record |
| OwnershipOutcomes.OnboardingCompletes | spikes/d17-provisional-ownership.py:369-527 | a candidate that is prepared, promoted and proven is owned and its actions allowed, unless it is the 33rd |
| OwnershipWitnesses.OverfillHappens | spikes/d17-provisional-ownership.py:295-329 | some run has 32 owned runtimes and a prepared candidate whose promotion overfills the registry |
| OwnershipWitnesses.LateCleanupHappens | spikes/d17-provisional-ownership.py:471-493 | some run leads to a cleanup that cancels the journal and is refused |
| OwnershipWitnesses.LateMaterializationHappens | spikes/d17-provisional-ownership.py:359-402 | some run leads to a materialization that is given an owned id, leaves its directory and is refused |
| OnboardingRuns.StepKeeps | src/onboarding_broker.rs:157-219 | every step keeps the invariant of both stores, and a refused step changed nothing: nothing is committed and then refused by the marker |
| OnboardingRuns.Run | src/onboarding_broker.rs:157-219 | the invariant holds after every run of broker, helper and reconciliation steps |
| OnboardingRuns.MarkerNeverAhead | src/onboarding_broker.rs:157-219 | wherever steps stop, an issued marker has its reservation, an owned one a consumed capability, a proven one a proven launch, all of the same identity |
| OnboardingRuns.FencesAreOrdered | src/onboarding_helper.rs:154-425 | an OpenCode start follows effect, session and handle in this order; a Codex start never follows an effect; no OpenCode attempt is recorded as absent; one consumption at most |
| OnboardingCrashes.StoppedConsumeIsRepaired | src/provisional.rs:279-310 | a consumption that died before its marker write is repaired in the marker alone |
| OnboardingCrashes.PrepareStops | src/onboarding_broker.rs:157-185 | what a preparation that died between its two writes leaves: a reservation whose marker does not offer it |
| OnboardingCrashes.StoppedPrepareIsRefused | src/state/current/onboarding.rs:546-666 | its own presentation can neither consume it nor prepare again |
| OnboardingCrashes.StoppedPrepareIsNeverConsumed | src/onboarding_broker.rs:157-219 | over every later run, in any context and with any token or fence, its operation stays as it is or is cancelled |
| OnboardingCrashes.StoppedPrepareIsTakenBack | src/provisional.rs:311-361 | and is cancelled, with its marker removed, once its shell is gone |
| OnboardingCrashes.StoppedPrepareEnds | src/provisional.rs:311-361 | after that its operation is rolled back in every later state of every run |
| OnboardingCrashes.TornIsRefused | src/provisional.rs:925-976 | a truncated marker stays so, and every broker, helper, reconciliation and materialization call of its directory is refused and changes nothing |
| OnboardingCrashes.TornForever | src/provisional.rs:925-976 | over every run |
| OnboardingRuns.AdvancedFits | src/state/current/onboarding.rs:2547-2661 | every permitted, evidenced advance leaves phase, watermark, session and record in agreement |
| OnboardingRuns.NotedKeeps | src/state/current/onboarding.rs:2165-2231 | binding a session or an observer keeps every promise made to markers and fences |
| OnboardingOutcomes.LiveShellIsLeftAlone | src/provisional.rs:258-361 | while its shell may live, reconciliation changes nothing but the marker of a consumed operation |
| OnboardingOutcomes.ReconciledExactly | src/provisional.rs:258-361 | what reconciliation does to every marker that is not owned, by the phase of its operation |
| OnboardingOutcomes.PreparedExactly | src/onboarding_broker.rs:157-185 | a preparation is done exactly before a materialized marker whose key and Runtime are unused, for at most a minute; what it then leaves |
| OnboardingOutcomes.ConsumedExactly | src/onboarding_broker.rs:191-219 | a consumption is done exactly for the operation the marker hands out, by its token and in time; what it then leaves |
| OnboardingOutcomes.AdvancedExactly | src/state/current/onboarding.rs:2547-2661 | in a reachable state, an advance is done exactly when its context stands behind the operation and the phase and provider lead on |
| OnboardingOutcomes.RecordersSucceedExactly | src/onboarding_helper.rs:154-300 | each recorder is done exactly when its own fence is held and leads on |
| OnboardingOutcomes.FailuresRecordedExactly | src/onboarding_helper.rs:304-425 | recovery from every fence but a Codex start, known absence from exactly that one |
| OnboardingOutcomes.SessionRecordedExactly | src/onboarding_helper.rs:212-228 | a session is recorded exactly while its effect is the last thing on record and no other is bound |
| OnboardingOutcomes.HandleRecordedExactly | src/onboarding_helper.rs:234-253 | a handle is recorded exactly for the bound session, on a real port, when no other one is |
| OnboardingOutcomes.ProvenExactly | src/provider_reconcile.rs:176-230 | a launch is proven exactly from its recorded start, by a provider that was seen, or again |
| OnboardingOutcomes.RetiredExactly | src/provisional.rs:570-600 | exactly a proven marker is retired |
| OnboardingOutcomes.RecordersStop | src/onboarding_helper.rs:154-300 | a recorder that stops after its commit leaves the record and no fence |
| OnboardingOutcomes.PrepareStopsInMarker | src/onboarding_broker.rs:157-185 | a preparation that stops has committed its row and left the old marker, a truncated one or the new one |
| OnboardingOutcomes.ConsumeStopsInMarker | src/onboarding_broker.rs:191-219 | likewise a consumption, which then hands nothing on |
| OnboardingOutcomes.ReconcileStops | src/provisional.rs:258-361 | a reconciliation that stops has committed its cancellation; its marker is completed or removed like any other |
| OnboardingCourses.CodexCompletes | src/onboarding_helper.rs:154-279 | in every reachable state, a fresh Codex candidate whose calls are made in turn ends proven and retired, without an effect; nothing else changed |
| OnboardingCourses.OpencodeCompletes | src/onboarding_helper.rs:154-300 | likewise for OpenCode, with effect, session and handle on record before the start |
| Broker.Host.Prepare | src/onboarding_broker.rs:157-185 | keeps the invariant of both stores; refused, it changed nothing; done, marker and journal hold one fresh reservation with this token and expiry |
| Broker.Host.Consume | src/onboarding_broker.rs:191-219 | keeps the invariant; done, it was the issued token in time, and marker, journal and fence speak of one ownership |
| Broker.RequestIsTheMarkers | src/onboarding_broker.rs:224-265 | a request is rebuilt exactly under a whole marker of this presentation and lease with live, managed evidence, and is the marker's own: presentation, generation, Runtime and lease |
| Broker.RebuiltRequestBinds | src/onboarding_broker.rs:224-265 | after a reservation, a rebuilt request is the reserved one exactly when no piece of evidence changed |
| Broker.AdvanceMovesOn | src/state/current/onboarding.rs:2547-2661 | an advance that is done moved exactly the owned, current operation by one permitted transition, under the marker of its identity |
| Broker.Host.BeginProviderPreparation | src/onboarding_helper.rs:154-180 | done, the record is reservation, ownership, preparation and the fence is the latest word on it; otherwise where it stopped |
| Broker.Host.RecordOpencodeExternalEffectStarted | src/onboarding_helper.rs:185-207 | done, an OpenCode operation has recorded its effect and the fence is current |
| Broker.Host.RecordOpencodeCreatedSession | src/onboarding_helper.rs:212-230 | done, the Runtime is bound to this session and the fence is current |
| Broker.Host.RecordOpencodeRuntimeHandle | src/onboarding_helper.rs:234-255 | done, the handle is recorded and the whole record up to it stands |
| Broker.Host.RecordCodexProviderExecStarted | src/onboarding_helper.rs:259-279 | done, the record is exactly a Codex start, without any effect |
| Broker.Host.AdvanceCodexToProviderExecFence | src/onboarding_helper.rs:380-400 | refuses OpenCode; done, it went through every Codex fence |
| Broker.Host.RecordOpencodeProviderExecStarted | src/onboarding_helper.rs:284-300 | done, the record is exactly an OpenCode start: effect, session, handle, start |
| Broker.Host.RecordRecoveryRequired | src/onboarding_helper.rs:304-374 | done, the operation moved on to recovery with its record kept; a Codex start is refused |
| Broker.Host.RecordCodexExecFailedKnownAbsent | src/onboarding_helper.rs:409-425 | done, the record is a Codex start and its proved absence; OpenCode is refused |
| Broker.PreparedIsConsumable | src/onboarding_broker.rs:191-219 | a finished preparation is consumed by exactly its token, from clock zero until expiry |
| Handoff.ConsumptionIsVerification | src/state/current/onboarding.rs:2018-2122 | the journal's comparison of token and request succeeds exactly when revalidation on bytes and digests does, short of the collisions named |
| Handoff.ReservationIsIssue | src/state/current/onboarding.rs:1204-1396 | a fresh reservation succeeds exactly when issuing its capability does |
| Handshake.ParseExactly | spikes/d17-two-phase-handshake.py:457-468 | exactly the tokens the parser accepts, dots in the secret included |
| Handshake.DottedSecretParses | spikes/d17-two-phase-handshake.py:457-468 | a secret of nothing but dots is accepted |
| Handshake.IssuedTokenParses | spikes/d17-two-phase-handshake.py:428-468 | an issued token parses back into its parts |
| Handshake.ConsumedAtMostOnce | spikes/d17-two-phase-handshake.py:471-504 | in every interleaving one process at most is inside, a capability is consumed at most once, and `consumed`, `runtime_owned` and having been consumed agree |
| Handshake.RefusalsChangeNothing | spikes/d17-two-phase-handshake.py:471-504 | a refused process changed no record and does not hold the lease, which is free unless another process has it |
| Handshake.RunKeepsRecords | spikes/d17-two-phase-handshake.py:471-504 | a record never changes but for its one consumption |
| Handshake.OnlyTheTokenConsumes | spikes/d17-two-phase-handshake.py:471-504 | only the issued secret or one with the same digest consumes, with the issued claims and before the deadline |
| Handshake.MisshapenIsRefused | spikes/d17-two-phase-handshake.py:457-468 | a token that is not two parts of the right shape is refused first |
| Handshake.ConsumedExactly | spikes/d17-two-phase-handshake.py:471-504 | lease, record, secret, phase, deadline and claims are met in this order; the first that is not as it should be refuses, and otherwise the token is consumed |
| Handshake.AloneConsumes | spikes/d17-two-phase-handshake.py:471-504 | consumption keeps the lease and moves the record on; a refusal leaves both as they were |
| Handshake.IssuedIsConsumed | spikes/d17-two-phase-handshake.py:428-504 | what was issued is consumed by its token and claims for five seconds by default, and is expired from then on |
| Handshake.Host.Open | spikes/d17-two-phase-handshake.py:385-413 | the lease is taken without waiting, exactly when it is free |
| Handshake.Host.Close | spikes/d17-two-phase-handshake.py:416-420 | the descriptor is unlocked and closed |
| Handshake.Host.IssueCapability | spikes/d17-two-phase-handshake.py:428-454 | issuing is its two steps, and leaves the record of its token |
| Handshake.Host.ConsumeCapability | spikes/d17-two-phase-handshake.py:471-504 | consuming is its three steps, and fails with the first refusal they meet; records and lease are then as they were |
| EffectJournal.AtMostOnePost | spikes/d17-provider-effect-journal.py:212-260 | through any crashes one POST at most; rolled back means none, known means exactly one |
| EffectJournal.StepsMoveForward | spikes/d17-provider-effect-journal.py:196-260 | refusals change nothing, every other step raises the rank, but for the recovery no-op |
| EffectJournal.ChangesAreBounded | spikes/d17-provider-effect-journal.py:196-260 | a run of any length changes the journal at most six times |
| EffectJournal.FinalExactly | spikes/d17-provider-effect-journal.py:252-260 | the phases no operation leads out of, exactly; the attempted phase is one |
| EffectJournal.LostAnswerIsForever | spikes/d17-provider-effect-journal.py:212-225 | a caller that dies between attempt and answer leaves the journal as it is, in every later run |
| EffectJournal.LostAnswerHappens | spikes/d17-provider-effect-journal.py:212-225 | such a journal is reachable, with its one request out |
| EffectJournal.ReleasedOnlyInOrder | spikes/d17-provider-effect-journal.py:196-239 | actions are released only by promotion, preparation, start and proof, in this order |
| EffectCourses.RefusedExactly | spikes/d17-provider-effect-journal.py:196-260 | a call is refused exactly when it does not find its phase, and why |
| EffectCourses.BindingKnownExactly | spikes/d17-provider-effect-journal.py:212-225 | a surviving preparation knows a binding exactly when the request arrived and was answered, and otherwise needs recovery |
| EffectCourses.DeathLeaves | spikes/d17-provider-effect-journal.py:180-260 | what each death leaves, compared with surviving |
| EffectCourses.LaunchReleases | spikes/d17-provider-effect-journal.py:196-239 | every new journal comes to be released, after no request for Codex and one for OpenCode |
| EffectCourses.AbsentExecEnds | spikes/d17-provider-effect-journal.py:241-250 | a known-absent exec rolls Codex back and keeps OpenCode's binding |
| EffectCourses.RecoveryEnds | spikes/d17-provider-effect-journal.py:252-260 | recovery rolls back what nobody prepared, and leaves an unanswered request in recovery |
| EffectJournal.Endpoint.PostBlankSession | spikes/d17-provider-effect-journal.py:123-149 | a binding comes back only for a request that arrived and was answered |
| EffectJournal.Journal.Write | spikes/d17-provider-effect-journal.py:180-191 | a write may be cut off after it truncated the file |
| EffectJournal.Journal.Promote | spikes/d17-provider-effect-journal.py:196-199 | the transition is its step, with every crash |
| EffectJournal.Journal.ActionAllowed | spikes/d17-provider-effect-journal.py:201-202 | allowed exactly in the proven phase |
| EffectJournal.Journal.CodexPrepare | spikes/d17-provider-effect-journal.py:204-210 | the transition is its step, with every crash |
| EffectJournal.Journal.OpencodePrepare | spikes/d17-provider-effect-journal.py:212-225 | attempt, request, answer: the transition is its step, with every crash |
| EffectJournal.Journal.BeginExec | spikes/d17-provider-effect-journal.py:227-234 | the transition is its step, with every crash |
| EffectJournal.Journal.ProveExec | spikes/d17-provider-effect-journal.py:236-239 | the transition is its step, with every crash |
| EffectJournal.Journal.KnownAbsentExecError | spikes/d17-provider-effect-journal.py:241-250 | the transition is its step, by provider, with every crash |
| EffectJournal.Journal.PassiveRecover | spikes/d17-provider-effect-journal.py:252-260 | the transition is its step, the recovery no-op included |
| Grammar.ParseRendered | spikes/d17-provider-grammar.py:111-207 | rendered groups parse back to themselves, whatever their values spell |
| Grammar.RenderParsed | spikes/d17-provider-grammar.py:111-207 | parsed groups render back to the arguments |
| Grammar.ManagedExactly | spikes/d17-provider-grammar.py:111-207 | managed exactly when the list renders an accepted list of groups, normalised to long names |
| Scanners.CheckArgumentShape | spikes/d17-provider-grammar.py:99-108 | the shape check is the declarative one |
| Scanners.ClassifyCodex | spikes/d17-provider-grammar.py:111-160 | the index loop decides the declarative grammar |
| Scanners.ClassifyOpenCode | spikes/d17-provider-grammar.py:163-207 | the index loop decides the declarative grammar |
| Scanners.RenderLength | spikes/d17-provider-grammar.py:111-207 | normalising keeps the number of arguments |
| Scanners.NormalisingIsIdempotent | spikes/d17-provider-grammar.py:111-207 | a normalised list is managed and normalises to itself |
| Scanners.NormalisingCommutesWithPermutation | spikes/d17-provider-grammar.py:111-207 | rearranged groups normalise to the rearranged normal form |
| Scanners.AcceptedIsShort | spikes/d17-provider-grammar.py:99-207 | distinct options bound a managed list by 12 and 10 arguments |
| Scanners.CountLimitNeverBinds | spikes/d17-provider-grammar.py:99-108 | so the limit of 16 never decides |
| GrammarReach.ModelExactly | spikes/d17-provider-grammar.py:85-108 | the arguments that can be a model, secrets in any letter case excluded |
| GrammarReach.AgentExactly | spikes/d17-provider-grammar.py:85-96 | the values that can be an agent |
| GrammarReach.ReplayLimitExactly | spikes/d17-provider-grammar.py:195-201 | a printed number is a replay limit exactly up to ten thousand, leading zeros included |
| GrammarReach.LocalExactly | spikes/d17-provider-grammar.py:144-145 | the local providers, exactly |
| GrammarReach.SandboxExactly | spikes/d17-provider-grammar.py:146-151 | the sandboxes, exactly |
| GrammarReach.ApprovalExactly | spikes/d17-provider-grammar.py:152-153 | the approvals, exactly |
| GrammarReach.CodexReaches | spikes/d17-provider-grammar.py:111-160 | all options at once, with any of their values, are managed: the bound of 12 is reached |
| GrammarReach.OpencodeReaches | spikes/d17-provider-grammar.py:163-207 | likewise: the bound of 10 is reached |
| GrammarReach.UnmanagedExactly | spikes/d17-provider-grammar.py:111-166 | exactly a single request for information is left to the provider |
| GrammarReach.ManagedIsSound | spikes/d17-provider-grammar.py:111-207 | a managed list names no option twice, and a local provider only beside its flag |
| Signals.DescriptorNamesSnapshot | spikes/opencode-production-d8.2.py:631-659 | a birth that matches before and after the open means the descriptor holds the snapshot's process, however numbers were reused |
| Signals.PhaseBalances | spikes/opencode-production-d8.2.py:629-672 | a phase closes each descriptor exactly once and uses it only while open |
| Signals.LeakExactly | spikes/opencode-production-d8.2.py:643-659 | a phase leaves a descriptor open exactly when the read after an open was ambiguous |
| Terminator.ProcessGroupMembers | spikes/opencode-production-d8.2.py:557-573 | the members are a bounded census of the group |
| Terminator.ProveProviderGroup | spikes/opencode-production-d8.2.py:576-600 | a proof has seen the recorded leader alive and a census of its group and session; a refused one saw a reason |
| Terminator.OpenMember | spikes/opencode-production-d8.2.py:640-659 | a held descriptor is the expected process, read again in its group and session; it is given up only when that process strayed, a read was ambiguous or the open was refused |
| Terminator.OpenMembers | spikes/opencode-production-d8.2.py:631-659 | every live member is held, or the phase stops with nothing signalled |
| Terminator.SendAll | spikes/opencode-production-d8.2.py:662-670 | the held descriptors are signalled in order until one send is refused |
| Terminator.SignalProviderMembers | spikes/opencode-production-d8.2.py:608-672 | the exact calls of a phase: any failure but a refused send signals nobody, success signals every live member once, and each failure names something that was observed |
| Terminator.CleanupProviderGroup | spikes/opencode-production-d8.2.py:685-740 | the stages of a cleanup: the group is left alone without a proven leader, checked if quiet, and else sent TERM, and KILL exactly when the wait after a full TERM gave up; every failure names what was observed |
| CleanupOutcomes.SuccessIsClear | spikes/opencode-production-d8.2.py:685-740 | success means that the group was seen quiet and the root, if asked for, not referenced, but for a leader that was gone |
| CleanupOutcomes.TermAloneIsEnough | spikes/opencode-production-d8.2.py:714-736 | a cleanup without KILL gave up in its TERM phase or saw the group quiet; TERM is never its last word on a group that stays |
| CleanupOutcomes.StubbornIsKilled | spikes/opencode-production-d8.2.py:714-736 | whatever keeps to the contract sends KILL to a group that ignores TERM |
| CleanupOutcomes.RootIsSkipped | spikes/opencode-production-d8.2.py:706-711 | a machine without the leader, whose referenced root is not looked at |
| CleanupOutcomes.SignalsHitTheSnapshot | spikes/opencode-production-d8.2.py:608-740 | every signal of a cleanup names a process of the snapshot by number and birth |
| CleanupOutcomes.CleanupBalances | spikes/opencode-production-d8.2.py:608-740 | a cleanup closes all it opened, exactly unless a read after an open was ambiguous |
| CleanupOutcomes.LeakHappens | spikes/opencode-production-d8.2.py:643-649 | a faithful machine, a proven leader and a course that leaves its one descriptor open |
| StableSource.WaitForStableSettledSource | spikes/opencode-production-d8.2.py:170-225 | the outcome is the declarative verdict of the first observation that has one |
| StableSource.SettledIsStable | spikes/opencode-production-d8.2.py:170-225 | a returned boundary was read without gap or change over the window, and all samples were the caller's, never older |
| StableSource.StableSettles | spikes/opencode-production-d8.2.py:206-219 | conversely a boundary unchanged for the window ends the wait, with the exact outcome |
| StableSource.SampleExactly | spikes/opencode-production-d8.2.py:138-167 | which observations have a boundary, and which boundary |
| StableSource.InvokeForkWithRevisionRetry | spikes/opencode-production-d8.2.py:292-331 | which attempts were made, why each was retried, and why the last ended it, down to the category of a failed command |
| StableSource.ConflictExactly | spikes/opencode-production-d8.2.py:280-289 | the recognised conflict: a nonzero code, blank output, and the diagnostic with only blanks around it |
| StableSource.StrippedExactly | spikes/opencode-production-d8.2.py:280-289 | stripping takes off exactly the blanks at both ends |
| StableSource.RetriesExactly | spikes/opencode-production-d8.2.py:292-331 | a second attempt is made exactly after such a conflict without an effect, at a newer revision of the same boundary |
| StableSource.RejectedExactly | spikes/opencode-production-d8.2.py:292-331 | why a conflict was not retried |
| StableSource.ConflictLineIsRetried | spikes/opencode-production-d8.2.py:292-331 | a conflict printed as a line is retried, and the retry accepted |
| StableSource.FirstCategoryExactly | spikes/opencode-production-d8.2.py:258-277 | a failure is in the category of the first fragment its diagnostics hold |
| StableSource.ForkedAtMostOnce | spikes/opencode-production-d8.2.py:280-331 | at most the last attempt creates a Fork; acceptance means that it did, every rejection that none did, and only a failed command leaves it open; a retry uses a newer revision |
| StableSource.FailureIsUndecided | spikes/opencode-production-d8.2.py:258-289 | a failed command is compatible with a created Fork and with none, so nothing more can be reported |
| Framer.AppServer.Receive | spikes/codex-running-settled-fork.py:150-177 | the call returns the next line of the stream and leaves the rest |
| Framer.AppServer.ReceiveResponse | spikes/codex-running-settled-fork.py:123-138 | the call is the first message with the id |
| Framer.BlankExactly | spikes/codex-running-settled-fork.py:154-158 | which lines are skipped |
| Framer.CollectIsLines | spikes/codex-running-settled-fork.py:150-177 | repeated calls return exactly the non-blank lines, in order |
| Framer.ChunkingDoesNotMatter | spikes/codex-running-settled-fork.py:150-177 | within the bound, however the output is cut |
| Framer.JoinedLines | spikes/codex-running-settled-fork.py:106-114 | lines written one by one are read back |
| Framer.ConservedOverRuns | spikes/codex-running-settled-fork.py:150-177 | after any number of calls, pauses included, all bytes read are counted, and consumed plus buffered is what was read, exactly while that is within the bound |
| Framer.ConsumedLines | spikes/codex-running-settled-fork.py:154-165 | what a call consumes is the line it returns and blank ones |
| Framer.NextIsExpected | spikes/codex-running-settled-fork.py:150-177 | what a call returns is told by the stream alone: its first line, or why there is none |
| Framer.CountStaysInStep | spikes/codex-running-settled-fork.py:170-177 | the count stays in step exactly unless the stream holds no line and goes on with a chunk over the bound |
| Framer.OverrunHappens | spikes/codex-running-settled-fork.py:174-176 | a chunk of one byte too many is read, counted and gone |
| Framer.OverTheBoundIsTheEnd | spikes/codex-running-settled-fork.py:174-176 | after that no line is returned again |
| Framer.AnswerIsFirst | spikes/codex-running-settled-fork.py:123-138 | a response depends only on the lines of the output |
| Framer.AnswerExactly | spikes/codex-running-settled-fork.py:123-138 | the answer is what the first line that is not about something else says |
| ProcessTree.ProcessTree | spikes/opencode-fresh-session.py:110-129 | the work list ends with exactly the reachable processes, cycles included |
| ProcessTree.Descendants | spikes/codex-running-settled-fork.py:321-328 | the growing set ends with exactly the reachable processes |
| ProcessTree.DescendantCommandRunning | spikes/codex-running-settled-fork.py:309-333 | true exactly when a reachable process has the command name |
| ProcessTree.ClosedIsBelow | spikes/opencode-fresh-session.py:122-129 | a closed set of reachable processes is the reachable set |
| RootSearch.BytesContainRoot | spikes/opencode-production-d8.2.py:826-839 | true exactly when some occurrence stands on boundaries, overlapping ones included |
| RootSearch.ContainsExactly | spikes/opencode-production-d8.2.py:826-839 | that is, exactly when the root stands between two texts that end and begin at boundaries |

## Left out

- SHA-256, UUID and secret generation: parameters; results name the collision that would break them.
- JSON: markers, records and journals are values; a line's parse is a parameter, and a line that is not text counts as invalid JSON.
- File modes beyond "regular and private", owners, symlink resolution, fsync and real SQLite errors: only inode identity, content, exclusive creation, compare-and-set and commit.
- Inode numbers may be reused only after an inode has no name and no open descriptor.
- `LaunchCapabilityClaims::new`, registry-text checks, project, location and workstream rows, revision overflow and runtime process evidence: they refuse before, or change nothing that the two stores agree on.
- The host-wide inventory check before a materialization: candidates may be made side by side, so the modelled runs include the program's and more.
- The archive flow that commits a recovery, and observer rows after the start: later than the handoff.
- The lease's own revalidation: a lost lease is a stop after a commit, in a marker write or after it.
- Crashes inside the bodies of the ownership spike: its bodies are atomic steps, as only the order between them is promised.
- UUID spellings in the ownership spike: an identity is one the reader accepts or one it refuses.
- Non-UTF-8 command lines and paths, and which of the refusal messages of the argument grammar is given.
- Stable-lock host identity and generation beyond their bounds check, and lock paths other than the one fixed path.
- The host's own promise about a Fork command: exit code 0 means that the Fork exists, and its conflict diagnostic that it does not; both are assumed.
- Waiting times: a bounded wait is a number of polls or a sequence of clock readings; nothing is said about when the operating system schedules a process.
- Reading one process's identity is one instant, and its start time tells apart the processes that share its number.
- Shell wrappers, tmux, PTYs, HTTP and sshd: plumbing.
