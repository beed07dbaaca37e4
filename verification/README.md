# Mihari installation: a verified model

Mihari installs, updates and removes a service on a running machine. This project models the
parts of it that must survive a crash at any moment, together with the algorithms they lean on,
and proves what each of them is for.

**The install transaction** (`InstallJournal`, `InstallEngine`, `InstallRollback`,
`InstallRollforward`, `InstallUndecided`, `InstallEndings`, `InstallAtomicity`, `InstallPlans`,
`InstallExactness`, `InstallAccuracy`, `InstallLostActivation`, `InstallDiscipline`,
`InstallConvergence`, `InstallPrograms`, `InstallOutcomes`, `InstallVetting`, `InstallMilestones`,
`InstallRules`, `InstallScheduler`). Every external effect is bracketed by
a durable intent and a done record; one journal write moves the recovery authority from source to
target. A *world* maps keys (a binary, a unit file, the mask of the service) to state tokens. A run
consumes a list of *fates*, one per journal write and per effect: it happens, it does not, or it
happens and reports an error. A list of fates therefore names one way to cut a run, and a history is
any cut forward run followed by any number of cut recoveries, each with or without the loss of
unsynced writes. `InstallEngine` states the engine as functions on values; `InstallScheduler` is the
scheduler as the program runs it, an object whose loops and branches are proved to follow those
functions. `InstallRules` spells the small rules out (which kinds undo which, what counts as started,
what the store accepts, which key an action is about), so that the theorems rest on named values.

**The validation child** (`ValidationHandshake`, `ValidationSafety`, `ValidationOrder`,
`ValidationSecrecy`, `ValidationProgress`):
installers, recoveries and children interleave over the journal, a launch record, a pipe and a ready
document; any of them may die between any two steps, and anybody may write frames with guessed
nonces to a child's pipe.

**Settings creation** (`SettingsCreation`, `AtomicFile`): any number of processes run load,
exclusive lock, reload, save and unlock.

**Service objects** (`ServiceSlots`): whole files move between one live place and staging slots.

**The installation manager** (`InstallationRecords`, `InstallationManagement`,
`InstallationReset`): plans are claimed once and executed under nested sessions; every record
names the one it replaces.

**Trees and documents** (`RetainedCleanup`, `UninstallFiles`, `UninstallTable`, `UniqueJson`,
`ChannelIndex`).

## What was found

- *Rollback believes what actions claim.* An action names an old token it expects and a new one it
  leaves. Source-side atomicity fails if and only if some action, behind actions that told the
  truth, claims to lead its key to the token the key had in the first place:
  `InstallExactness.ProgramIsExact`, for any program of phases, reversible steps, skipped steps,
  reloads and the stop of a validation. There are two ways into this. A program may lead a key back
  (mask, then unmask): a crash behind the second intent, a recovery that undoes the first action and
  dies, and a second recovery that takes the second action for performed
  (`InstallAccuracy.MaskThenUnmask`). Or an action may claim a token that is not there.
  - Hooks carry fixed tokens, and without native service effects they are journaled as they are
    (`internal/app/install_transaction.go:273-306`), so that a crash while stopping a stopped service
    makes recovery start it (`InstallAccuracy.StopOfStoppedService`). For the hooks that stop a
    systemd service `InstallAccuracy.SystemdStopIsExact` states the condition in terms of the
    service's state.
  - The install claims that the definition is absent, whatever is there
    (`internal/app/install_transaction.go:200-203`). If the definition it installs is in place
    already, one refused effect makes recovery remove it
    (`InstallOutcomes.ReinstalledDefinitionIsLost`). With the other artifacts accurate, an install is
    all or nothing in every history if and only if it installs no definition or another one than is
    in place (`InstallOutcomes.ApplyIsExact`). If a third definition is in place nothing is lost, but
    neither the install nor any recovery ever gets past it
    (`InstallConvergence.ForeignDefinitionStrands`). The bootstrap is all or nothing
    (`InstallOutcomes.BootstrapIsAtomic`).
- *Recovery can perform an effect whose intent is published but not yet synced*
  (`internal/app/install_recovery.go:195-220`). If a power loss then takes a published activation
  back, a service switch may stay changed without a record of it. A recovery under source authority
  restores every key in every history, power losses included, if and only if each switch that
  recovery would turn on (unmasked; enabled and running if the operation asks for it) is journaled
  before the activation or not off to begin with: `InstallLostActivation.ExposureIsExact`. An update
  of a running systemd service satisfies this (`InstallOutcomes.UpdateRestoresAll`); a plain install
  on a machine whose service is disabled does not, and `InstallOutcomes.InstallLeavesEnabled` gives
  the history. Without such a power loss every key is restored in any case
  (`InstallAtomicity.SourceAtomicity`). The forward run itself never performs an unsynced effect
  (`InstallDiscipline.ForwardIsStrict`).
- *A settings lock without a live owner is never taken over.* Its owner died before the save, or left
  without being able to remove it. `SettingsCreation.BlockedIsExact` proves that creation is blocked
  for good exactly then; agreement holds nevertheless.

## Model

| member | source | states |
|---|---|---|
| InstallAtomicity.SourceAtomicity | internal/app/install_recovery.go:105-173 | after any cut forward run and any cut recoveries, a recovery that succeeds under source authority restores every payload key and every journaled key, and every key but the reloads if each switch recovery would turn on is journaled before the activation or not off to begin with, or if no power loss took a published activation back |
| InstallAtomicity.TargetAtomicity | internal/app/install_recovery.go:175-352 | once activation is published, a recovery that succeeds leaves the payload of the activation or of some moment of the run behind it, with every payload hook that the journal records, no unfinished action and a reload finished behind the activation; behind its sweep the service is unmasked, and a reinstalled one enabled and running, an installed one enabled, an updated one as it was before, a recovered one as the artifacts and the kept setting say, while no switch that is not asked for moves |
| InstallAtomicity.HistorySafe | internal/app/install_transaction.go:308-346 | at every cut of every history the published authority names the side on which the machine is safe |
| InstallExactness.ProgramIsExact | internal/app/install_recovery.go:119-150 | for any program of phases, reversible steps, skipped steps, reloads and validation stops with distinct identities, all histories restore every key if and only if no action behind true claims only leads its key to its original token |
| InstallExactness.ConditionIsExact | internal/app/install_recovery.go:119-150 | for programs with accurate tokens this means: no action that can be undone returns a key journaled before it to its original token |
| InstallExactness.PlanClaims | internal/app/install_transaction.go:308-364 | every program that can be undone is one about which `ProgramIsExact` speaks |
| InstallExactness.CleanSweep | internal/app/install_recovery.go:119-150 | an undisturbed rollback loop undoes every action on a key that left its original token, last first, skips the keys that are back at it, and touches no other key |
| InstallExactness.AccuracyIsExact | internal/app/install_recovery.go:129-150 | one more action behind a plan, on an untouched key and whatever it claims, is atomic if and only if its new token is not the one in place |
| InstallExactness.ReturnFails | internal/app/install_recovery.go:129-150 | the cut run and the cut recovery after which an uncut recovery leaves a returned key wrong, whatever the program does later |
| InstallExactness.ClaimFails | internal/app/install_recovery.go:222-258 | the cut run after which a recovery undoes an action that never happened |
| InstallExactness.ForeignIsAtomic | internal/app/install_journal.go:345-353 | an action about a third token stops the run and every recovery, so that nothing is left changed |
| InstallExactness.UnactivatedIsAtomic | internal/app/install_recovery.go:105-173 | a well-planned program without an activation restores every key in every history |
| InstallAccuracy.MaskThenUnmask | internal/app/install_recovery.go:416-451 | a concrete key led back by accurate actions, whatever follows them |
| InstallAccuracy.SystemdStopIsExact | internal/service/definition_systemd.go:296-350 | stopping a systemd service with at most one autostart link is atomic if and only if its first hook that does not find what it expects does not find what it wants to leave; with two-valued switches: not masked, not stopped, and not disabled if linked |
| InstallAccuracy.StopOfStoppedService | internal/service/definition_systemd.go:296-350 | the hooks of stopping, on a service that is stopped already, are not atomic |
| InstallLostActivation.ExposureIsExact | internal/app/install_recovery.go:260-313 | for a program with an activation and two-valued switches, all histories, power losses included, restore every key if and only if each switch recovery would turn on is journaled before the activation or not off to begin with |
| InstallLostActivation.ExposedFails | internal/app/install_recovery.go:195-220 | the history whose power loss takes the activation back and leaves an exposed switch on without a record |
| InstallUndecided.RollforwardSteady | internal/app/install_recovery.go:175-193 | until the activation is synced, every key a cut rollforward has moved or may move is recorded in the document behind the activation |
| InstallRollback.RollbackRestores | internal/app/install_recovery.go:105-173 | one rollback keeps the source side safe at every cut and restores on success |
| InstallRollback.SweepBackRestores | internal/app/install_recovery.go:119-150 | the loop restores keys from the last action to the first, whichever reversals earlier recoveries left half done |
| InstallRollforward.RollforwardFinishes | internal/app/install_recovery.go:175-193 | one rollforward keeps the installed payload at every cut and finishes the journal on success |
| InstallRollforward.EnsureReloadSafe | internal/app/install_recovery.go:340-352 | a reload finished behind the activation exists afterwards, and no other key moved |
| InstallEndings.RollforwardEnds | internal/app/install_recovery.go:260-313 | what a successful recovery under target authority does behind its sweep: the switches of each operation by name, every other key but the reloads unmoved, and in the journal one finished action for each switch it turned, and a reload unless one was there, in order |
| InstallEndings.RollbackEnds | internal/app/install_recovery.go:151-172 | a successful recovery under source authority completes the journal, adds only finished reversals and, exactly if there are any, one finished reload behind them, which is the number the machine shows |
| InstallEndings.FinishPerforms | internal/app/install_recovery.go:195-220 | finishing an open action succeeds only with its effect in place, and moves no other key |
| InstallEndings.StepPerforms | internal/app/install_transaction.go:308-346 | a step that succeeds has moved exactly its key to the new token, and is recorded as done under the next number |
| InstallConvergence.RecoveryGetsThrough | internal/app/install_recovery.go:47-83 | if each key moves between two tokens, the next recovery that meets no failure succeeds, however often the ones before were cut |
| InstallConvergence.InstallGetsThrough | internal/app/install_transaction.go:117-241 | for an install without a third token at the definition place that recovery succeeds, and where the install is all or nothing it ends with the whole old or the whole new payload |
| InstallConvergence.ForeignDefinitionStrands | internal/app/install_journal.go:345-353 | with a third token at the definition place an install stops there, and no recovery ever succeeds |
| InstallOutcomes.ApplyIsAtomic | internal/app/install_transaction.go:117-241 | an install whose other artifacts are accurate, and whose definition is not the one in place, is all or nothing over every history, and the published authority says which; on the source side every key is back under the condition of `SourceAtomicity` |
| InstallOutcomes.ApplyIsExact | internal/app/install_transaction.go:200-203 | with the other artifacts accurate, all histories are all or nothing if and only if the install has no definition or another one than is in place |
| InstallOutcomes.DefinitionIsLost | internal/app/install_transaction.go:200-203 | the cut after which a recovery succeeds under source authority and removes a definition that was there all along |
| InstallOutcomes.ReinstalledDefinitionIsLost | internal/app/install_transaction.go:200-203 | the same on the shortest run: files unchanged, no service, one refused effect |
| InstallOutcomes.CommitIsExact | internal/app/install_transaction.go:165-216 | the install up to its commit as an instance of `ProgramIsExact`, whatever is at the definition place |
| InstallOutcomes.SwitchedIsInstalled | internal/app/install_transaction.go:217-236 | if the hooks behind the activation only switch the service, a finished install has exactly the installed payload |
| InstallOutcomes.InstallExposure | internal/app/install_recovery.go:260-313 | every history of an install restores every key, power losses included, if and only if the hooks of stopping journal each switch that is off and that recovery would turn on |
| InstallOutcomes.InstallLeavesEnabled | internal/app/install_recovery.go:260-313 | the history of a plain install that is rolled back and leaves a disabled service enabled |
| InstallOutcomes.UpdateRestoresAll | internal/app/install_recovery.go:260-313 | an update of a running systemd service restores every key in every history, power losses included |
| InstallOutcomes.BootstrapIsAtomic | internal/app/foreground_bootstrap.go:140-171 | the foreground bootstrap is all or nothing over every history |
| InstallOutcomes.BootstrapExposure | internal/app/foreground_bootstrap.go:140-171 | it restores every key in every history if and only if no switch is off that recovery would turn on |
| InstallPrograms.ProducersArePhased | internal/app/install_lifecycle.go:10-46 | whatever their hooks journal, install, bootstrap and lifecycle runs enter only phases that agree with the authority, and reach target authority by the activation alone |
| InstallPrograms.SingleCommitPoint | internal/app/install_transaction.go:377-396 | over every cut history of the three producers, each event fits the log before it, the startup gate opens exactly for documents under target authority, and a synced one of those is never taken back |
| InstallVetting.ActivationIsVetted | internal/app/install_transaction.go:205-216 | over every cut history of an install or a bootstrap whose hooks record no activation, each document under target authority, published or fallen back to, holds an activation, and before every activation in it a finished validation start with the given hash and a finished stop behind that |
| InstallMilestones.UndisturbedInstall | internal/app/install_transaction.go:153-241 | an install that nothing disturbs ends complete under target authority with the new payload, and shows its phases and finished actions in exactly this order: the stop hooks, data, binaries, definition and reload, validation, activation, the publishing hooks |
| InstallMilestones.UndisturbedBootstrap | internal/app/foreground_bootstrap.go:140-171 | a bootstrap that nothing disturbs creates the data, validates and activates, in this order |
| InstallMilestones.UndisturbedLifecycle | internal/app/install_lifecycle.go:10-46 | a lifecycle operation that nothing disturbs stops, activates, publishes and completes |
| InstallOutcomes.ApplyFits | internal/app/install_transaction.go:165-216 | the forward run of an install whose claim about the definition is true or not made satisfies the hypotheses of crash atomicity, and what it installs is the new file at each place |
| InstallOutcomes.SystemdStopFits | internal/service/definition_systemd.go:296-350 | stopping a running, unmasked service with at most one autostart link satisfies the hypotheses |
| InstallDiscipline.WriteAhead | internal/app/install_transaction.go:308-346 | in every history an effect follows a publication that announces it, publications only append actions or finish intents, sequence numbers are positions, and authority does not go back |
| InstallDiscipline.ForwardIsStrict | internal/app/install_transaction.go:308-346 | in a forward run every effect directly follows its synced intent, and at most the last action is open |
| InstallDiscipline.CommitIsFinal | internal/app/install_transaction.go:377-390 | after a synced target publication no later document has source authority, power losses included |
| InstallDiscipline.GateFollowsAuthority | internal/app/startup_gate.go:19-27 | a published journal passes the startup gate exactly if its authority is target and its layout fits; a pending one never does |
| InstallDiscipline.EventFits | internal/app/install_journal.go:279-331 | each event of an allowed log is allowed by the events before it |
| InstallJournal.ReverseKindsPairUp | internal/app/install_recovery.go:416-464 | reversal is injective on kinds, keeps the subject, and no kind is both reversible and a reversal |
| InstallRules.ReversalsAreComplete | internal/app/install_recovery.go:416-464 | every forward kind can be undone but the validation stop and the activation, and a kind is a reversal exactly if it undoes one or restores data |
| InstallRules.DoneFinishesRecord | internal/app/install_journal.go:292-331 | a done record finishes an open one of the same number, kind and role, keeps what it does not repeat, and changes nothing else |
| InstallRules.OpenRecordIsFinished | internal/app/install_journal.go:292-331 | with nothing failing an open record is always finished that way |
| InstallRules.PublishedIsSound | internal/app/install_journal.go:263-276 | with nothing failing a document is published exactly if its numbers are positions and each action names two different states |
| InstallRules.ReversedIsExact | internal/app/install_recovery.go:354-365 | an action counts as reversed exactly if a later one has its reverse kind, its role and its references |
| InstallRules.ReloadsCountOn | internal/app/install_recovery.go:151-159 | every reload that succeeds, forwards or back, moves the number of reloads on by one |
| InstallRules.FailuresAreReal | internal/app/install_journal.go:263-276 | a half done write is read by everybody and not durable, a half done effect has happened, a refused one has not |
| InstallRules.RetainedDataStays | internal/app/install_recovery.go:222-229 | a rollback, wherever it is cut and whatever its journal records, does not touch the data of a transaction that retains it |
| InstallEngine.FindRecord | internal/app/install_journal.go:293-298 | the first recorded action with that sequence number, kind and role, or none |
| InstallEngine.FindSeq | internal/app/install_recovery.go:397-404 | the first recorded action with that sequence number, or none |
| InstallScheduler.InstallTransaction.constructor | internal/app/install_transaction.go:153-157 | a transaction starts from its durable fresh journal |
| InstallScheduler.InstallTransaction.Save | internal/app/install_journal.go:263-276 | only a valid document is published, and success means synced |
| InstallScheduler.InstallTransaction.Validate | internal/app/install_journal.go:452-459 | exactly the journals whose sequence numbers are positions and whose actions are valid |
| InstallScheduler.InstallTransaction.RecordIntent | internal/app/install_journal.go:285-291 | appends the intent and publishes it |
| InstallScheduler.InstallTransaction.RecordDone | internal/app/install_journal.go:292-331 | finishes the recorded intent and publishes it, refusing an unknown or finished one |
| InstallScheduler.InstallTransaction.Step | internal/app/install_transaction.go:308-346 | intent, effect, done, stopping at the first failure |
| InstallScheduler.InstallTransaction.FileStep | internal/app/install_transaction.go:348-364 | a step, or nothing if nothing changes |
| InstallScheduler.InstallTransaction.ReloadStep | internal/app/install_transaction.go:366-375 | a step from the current reload number to the next |
| InstallScheduler.InstallTransaction.Activate | internal/app/install_transaction.go:377-390 | the write that moves authority and phase together, between its intent and its done record |
| InstallScheduler.InstallTransaction.SetPhase | internal/app/install_transaction.go:392-396 | publishes the phase |
| InstallScheduler.InstallTransaction.ActionBySeq | internal/app/install_recovery.go:397-404 | the position of that sequence number |
| InstallScheduler.InstallTransaction.AlreadyReversed | internal/app/install_recovery.go:354-365 | whether a later action has the reverse kind and the same role and references |
| InstallScheduler.InstallTransaction.HasDoneKind | internal/app/install_recovery.go:406-414 | whether the last action of a kind is done |
| InstallScheduler.InstallTransaction.FinishAction | internal/app/install_recovery.go:195-220 | performs an intent that was not started, records it as done, refuses an unknown token |
| InstallScheduler.InstallTransaction.Reverse | internal/app/install_recovery.go:222-258 | the reversal of a forward action, with the observed token for data and the current number for reloads |
| InstallScheduler.InstallTransaction.Visit | internal/app/install_recovery.go:119-150 | one iteration of the rollback loop |
| InstallScheduler.InstallTransaction.Rollback | internal/app/install_recovery.go:105-173 | follows the rollback about which `RollbackRestores` speaks |
| InstallScheduler.InstallTransaction.EnsureAction | internal/app/install_recovery.go:315-338 | brings a switch to its new token, refusing a third one |
| InstallScheduler.InstallTransaction.EnsureReload | internal/app/install_recovery.go:340-352 | reloads unless a reload finished behind the finished activation |
| InstallScheduler.InstallTransaction.EnsureTarget | internal/app/install_recovery.go:260-313 | unmask, enable, reload, start; on success the switches stand as the operation asks, each operation by name |
| InstallScheduler.InstallTransaction.Rollforward | internal/app/install_recovery.go:175-193 | follows the rollforward about which `RollforwardFinishes` speaks |
| InstallScheduler.InstallTransaction.RecoverLocked | internal/app/install_recovery.go:47-83 | starts from the published document; keeps a safe machine safe wherever it is cut, and on success has the old state back, or the new one finished and the switches as each operation asks |
| InstallScheduler.InstallTransaction.RunHooks | internal/app/install_transaction.go:273-306 | each journaling hook is one step, one step unless nothing changes, or one reload |
| InstallScheduler.InstallTransaction.RunValidation | internal/app/install_validation.go:237-277 | on success the journal has gained a finished start with the hash and a finished stop, and nothing else |
| InstallScheduler.InstallTransaction.ApplyLocked | internal/app/install_transaction.go:117-241 | follows the program about which `ApplyIsAtomic` speaks, leaves the machine safe wherever it is cut, and shows no document under target authority without a validation before its activation |
| InstallScheduler.InstallTransaction.StartForeground | internal/app/foreground_bootstrap.go:140-171 | follows the program about which `BootstrapIsAtomic` speaks, and shows no document under target authority without a validation before its activation |
| InstallScheduler.InstallTransaction.LifecycleActions | internal/app/install_lifecycle.go:10-46 | follows the lifecycle program of `ProducersArePhased` and `UndisturbedLifecycle` |
| ValidationSafety.LaunchSafety | internal/app/validation_daemon.go:53-88 | in every interleaving a child in its run is exactly the one its published launch record names |
| ValidationSafety.EmptyReadIsFinal | internal/app/validation_launch.go:61-80 | if recovery read an empty child name, no child of that transaction ran before and none ever runs |
| ValidationSafety.OneUserOfData | internal/app/install_validation.go:279-395 | while the lock holder works on data, no validation child of any transaction is in its run |
| ValidationSafety.ActivationImpliesValidation | internal/app/install_validation.go:206-277 | the ready document of an activated transaction reports success, names this transaction, its candidate and its layout, and was written by the child that the launch record names, which ran and exited without error |
| ValidationSafety.FailureIsFinal | internal/app/install_validation.go:219-221 | once a document reporting a failure is stored for a transaction, no continuation ever activates it |
| ValidationSafety.ReadyIsFinal | internal/app/validation_daemon.go:100-124 | a ready document is never replaced |
| ValidationSafety.MatchIsExact | internal/app/install_validation.go:206-235 | the installer believes exactly the document about this transaction, candidate and layout that reports success and was written by its own child |
| ValidationSafety.LoadingIsExact | internal/app/validation_daemon.go:59-77 | a child accepts exactly the journal of its own transaction, binary and layout in the phase of the validation with a validation pending, and exits otherwise |
| ValidationSafety.AdmissionIsExact | internal/app/validation_daemon.go:78-88 | a child enters its run exactly if the launch record names it, its parent and the pending hash, and the frame brings the nonce behind that hash and names the same things |
| ValidationSafety.RecoverIsExact | internal/app/validation_launch.go:61-80 | recovery does nothing about a stopped or never launched validation, refuses a record that is not about this journal, and stops exactly the child that the record names |
| ValidationOrder.ActivationFollowsStop | internal/app/install_validation.go:237-277 | in every interleaving the journal that is activated records the start of a validation with a drawn nonce and behind it its finished stop, and its phase is at or behind the activation from then on |
| ValidationOrder.ActivatedIsValidated | internal/app/install_transaction.go:205-216 | in every interleaving a journal in the phase of its activation is one that was validated |
| ValidationProgress.UndisturbedValidation | internal/app/install_validation.go:237-381 | undisturbed, the named child runs on the frame it was sent, reports success and exits, and the transaction is activated with start and stop in its journal |
| ValidationProgress.FailedValidation | internal/app/install_validation.go:219-221 | a child that reports a failure leaves the installer without a match, is stopped, and nothing is activated |
| ValidationProgress.RecoverySettles | internal/app/install_recovery.go:47-83 | after any interleaving, once the lock is free, the next process can deal with the validation it finds, record that and complete the journal |
| ValidationProgress.RecoveryIsPossible | internal/app/install_recovery.go:47-83 | and can begin a transaction of its own behind that |
| ValidationSafety.HandshakeSucceeds | internal/app/install_validation.go:322-348 | a child that reads its installer's frame passes every check while the installer waits, because the name is published first |
| ValidationSafety.RecoverDisarms | internal/app/validation_launch.go:61-99 | after recovery has dealt with a validation, every live child is one that no launch record names, so that it cannot enter its run |
| ValidationSafety.Reachable | internal/app/validation_session.go:29-86 | the invariant of all documents, processes and stages holds after any sequence of steps |
| ValidationSecrecy.FrameIsGenuine | internal/app/install_validation.go:157-179 | a child enters its run only on the very frame that its installer sent to it, whatever frames with guessed nonces reach its pipe |
| ValidationSecrecy.EnterIsHonest | internal/app/validation_daemon.go:82-88 | a frame that passes the nonce comparison is the one that was sent |
| ValidationHandshake.ScanNonce | internal/app/validation_daemon.go:65-73 | the hash of the validation started last, unless it was stopped |
| SettingsCreation.CreationAgreement | internal/config/settings.go:291-420 | in every interleaving at most one process reports creation, at most one secret is committed, and every success carries it |
| SettingsCreation.SecretIsFinal | internal/config/settings.go:373-386 | a committed secret stays in the file, whatever sidecars are merged later |
| SettingsCreation.LoneProcessCreates | internal/config/settings.go:311-364 | a process nobody hinders creates the file with its secret and with the channel and stamp of a sidecar that has something new, returns what it wrote, and frees the lock |
| SettingsCreation.LoneProcessMerges | internal/config/settings.go:373-386 | a sidecar with a new stamp and a known channel ends in the file and in the result, with the secret kept |
| SettingsCreation.LoneProcessLoads | internal/config/settings.go:373-393 | otherwise the file stays, and the process returns it, or an error if its sidecar cannot be read |
| SettingsCreation.LateProcessMerges | internal/config/settings.go:331-364 | a process that gets the lock and finds a file creates nothing: it merges or returns what is there, and frees the lock |
| SettingsCreation.RefusedLock | internal/config/settings.go:395-420 | a lock that cannot be taken leads to the file without the lock if there is one, and otherwise to waiting or to an error |
| SettingsCreation.OwnersErrorFrees | internal/config/settings.go:319-364 | a fatal load under the lock, a timeout or a failed save ends in an error, leaves the file alone and frees the lock |
| SettingsCreation.BlockedIsExact | internal/config/settings.go:395-420 | no continuation ever has a file if and only if there is none, the lock is there, and no live process owns it |
| SettingsCreation.LockLeftBehind | internal/config/settings.go:319-330 | a failed save followed by a failed removal of the lock is such a state |
| SettingsCreation.SidecarActsOnce | internal/config/settings.go:519-537 | a sidecar keeps the secret, acts once per stamp and does not revert a later switch |
| AtomicFile.Directory.Replace | internal/config/atomic.go:69-87 | the replace is the commit point: before it only the temporary file changed |
| AtomicFile.Directory.WriteAtomic | internal/config/atomic.go:39-93 | commits exactly if every call up to the replacement succeeds, an error exactly if nothing was committed, a warning exactly if the directory sync or the removal fails behind a commit; a commit installs the whole content, otherwise every other file is as before |
| ServiceSlots.AlwaysReachable | internal/app/install_service_slots.go:16-46 | over any requests the objects stay the same, one slot is empty exactly if something is live, and every recorded state and "absent" can be published |
| ServiceSlots.PublishConserves | internal/app/install_service_slots.go:16-46 | no publication loses, copies or creates an object, however it fails |
| ServiceSlots.PublishReaches | internal/app/install_service_slots.go:23-45 | publishing a recorded state or "absent" from an intact layout succeeds and makes it live |
| ServiceSlots.PublishIsExact | internal/app/install_service_slots.go:16-46 | from any layout, foreign and missing objects included, an undisturbed publication succeeds if and only if the live object is recorded and the request is served already or by a slot with no foreign object up to it; it swaps the live object with the first such slot, and a refused one changes nothing |
| ServiceSlots.ForeignStays | internal/app/install_service_slots.go:17-30 | over any requests, however they fail, an object that no version records stays where it is, and nothing at all moves while it is live |
| ServiceSlots.LiveLeavesOneGap | internal/app/install_service_slots.go:31-36 | an object is live exactly if one slot is empty |
| ServiceSlots.ChoiceIsPossible | internal/app/install_service_slots.go:23-45 | whatever the scan chooses can be done and shows what was asked for |
| ServiceSlots.ServiceObjectMatches | internal/app/install_service_identity.go:5-12 | whether a version has that state and, within the recorded boot, that identity |
| ServiceSlots.ServiceObject.PublishServiceObject | internal/app/install_service_slots.go:16-46 | moves at most one object, as `AfterPublish` says |
| ServiceSlots.Prepare | internal/app/install_native_service_unix.go:99-132 | the original stays live with an empty slot of its own, and behind it every state among the wanted values gets one filled slot, from the first value that has it, in their order |
| ServiceSlots.PreparedIsIntact | internal/app/install_native_service_unix.go:99-132 | the prepared layout is intact |
| InstallationManagement.InstallationManager.Execute | internal/app/installation_manager.go:138-308 | an outcome is reported if and only if the plan can be claimed, every answer is good and the store still holds the record that was read; then the durable record is the one spelled out field by field in `FinalRecord`; every path closes all sessions, keeps the record chain, consumes the plan at most once and stores nothing but records of the authorised target |
| InstallationManagement.InstallationManager.ExecuteLocked | internal/app/installation_manager.go:194-307 | the execution under the operation lock, allowed at every event, with an outcome exactly if every call under the lock succeeds |
| InstallationManagement.InstallationManager.ExecuteQuiesced | internal/app/installation_manager.go:220-298 | quiesces first, closes gate and data session on every path, and yields a target exactly if quiesce, deployment and both closes succeed |
| InstallationManagement.InstallationManager.Deploy | internal/app/installation_manager.go:250-289 | data is applied behind a durable applying record of the bound target, and the complete record follows it, exactly if binding, publications and the final check succeed |
| InstallationManagement.InstallationManager.PublishDurable | internal/app/installation_manager.go:461-470 | succeeds exactly if the store holds the named record and the write is synced; the new record is durable then |
| InstallationManagement.InstallationManager.Plan | internal/app/installation_manager.go:93-135 | stores an authorisation exactly for an input that fits its target |
| InstallationManagement.InstallationManager.Claim | internal/app/installation_manager.go:310-322 | hands out a stored authorisation and removes it |
| InstallationManagement.StepsFollowRecords | internal/app/installation_manager.go:216-300 | in every allowed trace quiesce and apply follow a durable applying record, apply one with the bound target, and start a durable complete record with data session and gate closed |
| InstallationManagement.QuiescedFirst | internal/app/installation_manager.go:218-248 | in every allowed trace the gate and the data session are opened, the root bound and the data applied behind exactly one quiesce |
| InstallationManagement.ServedInOrder | internal/app/installation_manager.go:216-300 | a trace that started the service has exactly one quiesce, one apply and one start, in this order |
| InstallationManagement.ArchivedFirst | internal/app/installation_manager.go:208-215 | the record that was read, and no other, is archived once, before anything replaces it |
| InstallationManagement.PublishedAreSane | internal/app/installation_manager.go:427-444 | every published record has an owner until it is complete, a reset list of known names without repetition exactly if fresh, and a sound target |
| InstallationManagement.GoodAnswersMean | internal/app/installation_manager.go:331-425 | what an outcome stands on, field by field: the plan was about this machine and record, keeps the credential, deletes what a fresh install resets and nothing on a repair, and the observation under the lock was the same |
| InstallationManagement.ResetNamesAreListed | internal/app/installation_manager.go:446-459 | the names to reset are those of the table, in its order, exactly on a fresh install |
| InstallationManagement.OutcomeIsPossible | internal/app/installation_manager.go:138-308 | both a repair and a fresh install can succeed |
| InstallationManagement.PublicationsChain | internal/app/installation_manager.go:216-289 | each publication names the durable record before it, the first the one read under the lock |
| InstallationManagement.EverythingIsClosed | internal/app/installation_manager.go:159-248 | every session opened is closed exactly once |
| InstallationManagement.SessionsNest | internal/app/installation_manager.go:159-248 | sessions are opened at most once and what is open is the watcher's stack |
| InstallationManagement.StackIsPrefix | internal/app/installation_manager.go:159-248 | sessions are opened in one order and closed in reverse |
| InstallationManagement.ClaimedAtMostOnce | internal/app/installation_manager.go:310-322 | over any sequence of plans and claims, of which `Plan` and `Claim` make one move each, a stored authorisation is handed out at most once |
| InstallationManagement.TargetIsAuthorised | internal/app/installation_manager.go:472-496 | every record published on any path names the authorised target in every field, except that a missing root may have got its identity, and a complete one names a bound root |
| InstallationRecords.ChainKeepsBase | internal/app/installation_manager.go:427-444 | the base of a record is what the last completed execution installed, over any interrupted ones, and the source scope never changes |
| InstallationRecords.ScopeIsOrigins | internal/app/installation_manager.go:427-444 | complete records keep the first record's source scope too |
| InstallationRecords.ApplyingContinues | internal/app/installation_manager.go:397-444 | a new record continues exactly the record read under the lock, or starts from the legacy manifest |
| InstallationRecords.SameExecution | internal/app/installation_manager.go:258-289 | binding the root and completing keep the record in the chain |
| InstallationReset.DataEntries | internal/app/installation_reset.go:17-70 | succeeds exactly on acceptable observations; deletes the fixed list, preserves the rest and the credential, sorted |
| InstallationReset.KeepChildren | internal/app/installation_reset.go:39-66 | succeeds exactly if every name is valid and no preserved child repeats |
| InstallationReset.PreviewIsPartition | internal/app/installation_reset.go:17-70 | no path is listed twice, the credential is preserved and overlaps no deletion, and the manager's scope check accepts the preview |
| InstallationReset.EveryChildHasOnePlace | internal/app/installation_reset.go:39-66 | every child is preserved or deleted and never both, deleted exactly if managed in a fresh install |
| InstallationReset.BeforeIsLexicographic | internal/app/installation_reset.go:67-70 | preserved entries are ordered by their first difference |
| RetainedCleanup.Tree.CleanRetainedDirectory | internal/app/uninstall_retained.go:89-136 | success leaves exactly what is spared; if no call fails it succeeds exactly if the directory is there; at no moment, removals that fail half way included, is a spared entry missing |
| RetainedCleanup.Tree.CleanEntry | internal/app/uninstall_retained.go:102-134 | one entry is kept, descended into or removed |
| RetainedCleanup.CleanedIsSpared | internal/app/uninstall_retained.go:89-136 | the result is the retained subtree and the way to it, a tree again, and a second cleanup changes nothing |
| RetainedCleanup.StopsAtLink | internal/app/uninstall_retained.go:114-120 | a link or file on the way is kept, and nothing behind it |
| UninstallFiles.PrefixClosed | internal/app/uninstall_files.go:155-442 | every directory above an allowed entry is allowed, at any depth and for any tests on names |
| UninstallTable.AllowedIsListed | internal/app/uninstall_files.go:155-442 | an entry is allowed if and only if a row of the table of path patterns lists it, for any tests on names |
| UninstallTable.TreeIsListed | internal/app/uninstall_files.go:103-140 | a tree passes the walker if and only if no entry is a link and each is the exempt regular command or listed under its path from the root |
| UninstallFiles.CheckDirectory | internal/app/uninstall_files.go:103-140 | the walker accepts a tree if and only if every entry is no link and is allowed or the exempt command |
| UninstallFiles.CheckTarget | internal/app/uninstall_files.go:40-66 | a missing root is accepted, a link or file in its place is not |
| UniqueJson.ValueIsExact | internal/app/install_request.go:271-311 | reading a value succeeds if and only if no key repeats, nothing is null and nesting is bounded, and consumes exactly its tokens |
| UniqueJson.MembersAreExact | internal/app/install_request.go:286-301 | the same for members, given the keys seen |
| UniqueJson.KeysAreExact | internal/app/install_request.go:246-260 | the keys found are the object's own |
| UniqueJson.Decoder.UniqueValue | internal/app/install_request.go:271-311 | the consuming loop follows the checker |
| UniqueJson.Decoder.UniqueMembers | internal/app/install_request.go:246-268 | the consuming loop follows the checker and collects the keys |
| UniqueJson.DecodeStrict | internal/app/install_request.go:208-269 | on a document it succeeds if and only if it is one object without repeated keys or null, nested at most 16 deep, and returns its keys; a document with anything behind it is refused |
| ChannelIndex.ParseIndex | internal/app/channel_index.go:47-102 | finds the meaning of an index if it has one and fails otherwise; of lines written as words with any white space around and between them it returns tag and digest exactly if one line is "latest" and the tag, one is the wanted platform, any word and the digest, none of these repeats and every platform line is sound |
| ChannelIndex.SplitInvertsJoin | internal/app/channel_index.go:106-116 | splitting a line inverts joining words with white space, for any words that are not empty and hold none |
| ChannelIndex.SaidIsMeant | internal/app/channel_index.go:47-102 | what the words of an index say is its meaning |
| ChannelIndex.MeantIsSaid | internal/app/channel_index.go:47-102 | an index means nothing else than its words say |
| ChannelIndex.OneMeaning | internal/app/channel_index.go:47-102 | an index has at most one meaning, a property of the multiset of its lines, so their order does not matter |
| ChannelIndex.NoiseMeansNothing | internal/app/channel_index.go:59-83 | unrecognised lines may be inserted anywhere |
| ChannelIndex.CommentsAreNothing | internal/app/channel_index.go:106-116 | a line is skipped if and only if it is white space or starts, behind blanks and tabs, with "#" or "//" |

## Left out

- InstallLostActivation.ExposureIsExact: asks that the switches which the operation asks for are two-valued; with a third token on one of them recovery stops at it and never reaches the switches behind it.
- InstallExactness.ProgramIsExact: admits an action without a reversal (the stop of a validation) as the last on its key, as the install and the bootstrap have it; a second validation in the same transaction is not covered.
- The ending of a rollback with native service effects (restoring the old definition and starting it), the native prepared authority, removal of obsolete definitions and the stop authority of `internal/app/install_recovery.go:10-44`; the model takes the path without them.
- Service adapters: what stopping, publishing and starting the service journals is a list of hooks; for the source-side theorem the hooks of stopping satisfy the same condition as any other action, which `SystemdStopFits` shows for systemd and no adapter besides. Lifecycle operations use native service effects, so only their phases, authority and write-ahead discipline are stated, with the recovery of the modelled path.
- The data publisher of `PublishDataLocked`, `AfterDataCommitted`, `BeforeRollback` and lease checks: hooks into code outside the core. An error from observing a key is a missing key or a refused next step.
- The first publication of a fresh journal is taken to be durable when a history begins; effects themselves are taken to be durable. Paths, hashes and object identities in a journal that no run changes are one field.
- InstallConvergence.RecoveryGetsThrough: asks that each key moves between two tokens; with three tokens on one key a recovery can stop at an unknown state, which is safe.
- Validation: the stop of the child is recorded as done after the reap and nothing else, while the source publishes its intent before it (`internal/app/install_validation.go:237-277`); in the install transaction both records are modelled.
- Loss of unsynced writes is not part of the validation model (it ends every child); timers, cancellation and the framing of pipe messages are folded into steps that may happen or fail at any time. Nonces are fresh, nobody guesses one, and their hash is injective.
- Settings: contents other than the secret, the channel and its stamp, their validation and YAML. Deadlines are a step that may happen at any turn of a loop. Nobody else deletes the file or the lock.
- Digests of plans and records are the documents themselves. Path syntax, identities' inner fields, request binding and wire sizes are not modelled; the records of other operations (update, uninstall, migrate) occur only as records found on disk.
- UninstallFiles.PrefixClosed: the patterns of single file names (`internal/app/uninstall_files.go:444-631`) are a parameter, so nothing is said about them.
- Uninstall: reading errors in the walker, aliases of the retained path (`internal/app/uninstall_retained.go:57-83`), opening the root again.
- Windows paths, case folding and reparse points: a path is its list of components, and "/" itself is not a data root.
- JSON and YAML syntax: the checker works on tokens, and only the token streams of well-formed documents are described.
- ChannelIndex.ParseIndex: works on lines; the tests for tags, digests and platform keys are parameters, and the size limit and the download are left out.
- ChannelIndex.MeantIsSaid: asks that the tag test refuses the empty tag, which a "latest" line of the wrong length stands for (`internal/app/channel_index.go:195-210` refuses it).
- Command line, user interface, HTTP, archives, diagnostics and runtime assembly.
