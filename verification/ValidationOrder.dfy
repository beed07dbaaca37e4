/**
  The order of a validation in the journal: between its start and the activation nothing else
  is recorded but its stop.
 */
module ValidationOrder {
  import opened Options
  import opened InstallJournal
  import opened ValidationHandshake

  predicate Validating(stage: Stage) {
    stage.Intended? || stage.Launched? || stage.Spawned? || stage.Named? || stage.Framed? || stage.Matched? || stage.Reaped?
  }

  /** The start of the validation with that nonce is recorded, and nothing else. */
  predicate Started(j: View, nonce: string) {
    && j.phase.DefinitionCommitted? && |j.actions| == 1
    && j.actions[0].kind.ValidationStart? && j.actions[0].candidate == HashOf(nonce)
  }

  /** Its stop is recorded as done behind its start. */
  predicate Stopped(j: View, nonce: string) {
    && j.phase.DefinitionCommitted? && |j.actions| == 2
    && j.actions[0].kind.ValidationStart? && j.actions[0].candidate == HashOf(nonce)
    && j.actions[1].kind.ValidationStop? && j.actions[1].status.Done?
  }

  /** A phase at or behind the activation. */
  predicate Behind(phase: Phase) { phase.ActivationCommitted? || phase.Complete? }

  ghost predicate InOrder(s: System) {
    && (s.owner.Some? && s.owner.value.stage.Preparing? ==> s.journal.Some? && s.journal.value.actions == [])
    && (s.owner.Some? && Validating(s.owner.value.stage) ==>
          s.journal.Some? && s.owner.value.nonce in s.nonces && Started(s.journal.value, s.owner.value.nonce))
    && (s.owner.Some? && s.owner.value.stage.Finished? ==>
          s.journal.Some? && s.owner.value.nonce in s.nonces && Stopped(s.journal.value, s.owner.value.nonce))
    && (forall t :: t in s.activations ==> exists nonce :: nonce in s.nonces && Stopped(s.activations[t], nonce))
  }

  /** An activated journal does not leave its phase, and is not validated again. */
  ghost predicate PastActivation(s: System) {
    && s.activations.Keys <= s.transactions && (s.journal.Some? ==> s.journal.value.tx in s.transactions)
    && (s.journal.Some? && s.journal.value.tx in s.activations ==> Behind(s.journal.value.phase))
    && (s.journal.Some? && s.journal.value.phase.ActivationCommitted? ==> s.journal.value.tx in s.activations)
    && (s.owner.Some? && (s.owner.value.stage.Preparing? || Validating(s.owner.value.stage) || s.owner.value.stage.Finished?) ==>
          s.journal.Some? && s.journal.value.tx !in s.activations)
  }

  lemma StepPastActivation(s: System, l: Label)
    requires PastActivation(s) && Next(s, l).Some?
    ensures PastActivation(Next(s, l).value)
  {
    hide PastActivation, NextLock, NextInstaller, NextChild;
    match l
    case TakeLock(_) | Unlock | Crash | Recover | RecordRestore | FinishRecovery | Begin(_, _, _) | Prepare(_) => LockPastActivation(s, l);
    case Receive(_) | LoadJournal(_) | Enter(_) | Publish(_, _) | Exit(_, _) | Forge(_, _) => ChildPastActivation(s, l);
    case _ => InstallerPastActivation(s, l);
  }

  lemma LockPastActivation(s: System, l: Label)
    requires PastActivation(s) && NextLock(s, l).Some?
    ensures PastActivation(NextLock(s, l).value)
  {
    hide LaunchLoads, ValidationOver, PendingNonce, ValidStart, ValidationAction;
  }

  lemma InstallerPastActivation(s: System, l: Label)
    requires PastActivation(s) && NextInstaller(s, l).Some?
    ensures PastActivation(NextInstaller(s, l).value)
  {
    hide ReadyMatches, SameStart, HashOf, ValidStart, LaunchOf, FrameOf, ValidationAction;
  }

  lemma ChildPastActivation(s: System, l: Label)
    requires PastActivation(s)
    requires l.Receive? || l.LoadJournal? || l.Enter? || l.Publish? || l.Exit? || l.Forge?
    requires NextChild(s, l).Some?
    ensures PastActivation(NextChild(s, l).value)
  {
    hide JournalAdmits, LaunchAdmits, FrameAdmits, Behind;
    var s' := NextChild(s, l).value;
    assert s'.journal == s.journal && s'.owner == s.owner && s'.activations == s.activations && s'.transactions == s.transactions;
  }

  lemma {:induction false} ReachablePastActivation(labels: seq<Label>)
    ensures PastActivation(After(labels))
  {
    hide PastActivation, Next;
    if labels == [] {
      NothingPastActivation();
    } else {
      ReachablePastActivation(labels[..|labels| - 1]);
      var s := After(labels[..|labels| - 1]);
      if Next(s, labels[|labels| - 1]).Some? { StepPastActivation(s, labels[|labels| - 1]); }
    }
  }

  lemma NothingPastActivation()
    ensures PastActivation(Initial())
  {
  }

  lemma StepInOrder(s: System, l: Label)
    requires InOrder(s) && Next(s, l).Some?
    ensures InOrder(Next(s, l).value)
  {
    hide InOrder, NextLock, NextInstaller, NextChild;
    match l
    case TakeLock(_) | Unlock | Crash | Recover | RecordRestore | FinishRecovery | Begin(_, _, _) | Prepare(_) => LockInOrder(s, l);
    case Receive(_) | LoadJournal(_) | Enter(_) | Publish(_, _) | Exit(_, _) | Forge(_, _) => ChildInOrder(s, l);
    case _ => InstallerInOrder(s, l);
  }

  lemma LockInOrder(s: System, l: Label)
    requires InOrder(s) && NextLock(s, l).Some?
    ensures InOrder(NextLock(s, l).value)
  {
    hide LaunchLoads, ValidationOver, PendingNonce, HashOf, ValidStart;
  }

  lemma InstallerInOrder(s: System, l: Label)
    requires InOrder(s) && NextInstaller(s, l).Some?
    ensures InOrder(NextInstaller(s, l).value)
  {
    hide ReadyMatches, SameStart, HashOf, ValidStart, LaunchOf, FrameOf;
  }

  /** Children change neither the journal nor what its owner does. */
  lemma ChildInOrder(s: System, l: Label)
    requires InOrder(s)
    requires l.Receive? || l.LoadJournal? || l.Enter? || l.Publish? || l.Exit? || l.Forge?
    requires NextChild(s, l).Some?
    ensures InOrder(NextChild(s, l).value)
  {
    hide JournalAdmits, LaunchAdmits, FrameAdmits, HashOf, Started, Stopped;
    var s' := NextChild(s, l).value;
    assert s'.journal == s.journal && s'.owner == s.owner && s'.activations == s.activations && s'.nonces == s.nonces;
  }

  lemma {:induction false} ReachableInOrder(labels: seq<Label>)
    ensures InOrder(After(labels))
  {
    hide InOrder, Next;
    if labels == [] {
      NothingInOrder();
    } else {
      ReachableInOrder(labels[..|labels| - 1]);
      var s := After(labels[..|labels| - 1]);
      if Next(s, labels[|labels| - 1]).Some? { StepInOrder(s, labels[|labels| - 1]); }
    }
  }

  lemma NothingInOrder()
    ensures InOrder(Initial())
  {
  }

  /**
    In every interleaving, the journal that is activated records a validation with a drawn nonce,
    started and stopped, and from then on its phase is at or behind the activation.
   */
  lemma ActivationFollowsStop(labels: seq<Label>, t: string)
    requires t in After(labels).activations
    ensures var j := After(labels).activations[t];
            && j.phase == DefinitionCommitted && |j.actions| == 2
            && j.actions[0].kind.ValidationStart? && (exists nonce :: nonce in After(labels).nonces && j.actions[0].candidate == HashOf(nonce))
            && j.actions[1].kind.ValidationStop? && j.actions[1].status.Done?
    ensures var s := After(labels);
            s.journal.Some? && s.journal.value.tx == t ==> s.journal.value.phase == ActivationCommitted || s.journal.value.phase == Complete
  {
    hide After, HashOf;
    ReachableInOrder(labels);
    ReachablePastActivation(labels);
  }

  /** Only a validated transaction has a journal in the phase of its activation. */
  lemma ActivatedIsValidated(labels: seq<Label>)
    requires After(labels).journal.Some? && After(labels).journal.value.phase == ActivationCommitted
    ensures After(labels).journal.value.tx in After(labels).activations
  {
    hide After;
    ReachablePastActivation(labels);
  }
}
