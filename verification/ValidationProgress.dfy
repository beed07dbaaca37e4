/**
  The validation gets through: undisturbed it ends in an activation, and whatever happened
  before, the next recovery can deal with it.
 */
module ValidationProgress {
  import opened Options
  import opened InstallJournal
  import opened ValidationHandshake

  /** One more step that is possible; sets and maps of the result are compared one by one. */
  lemma OneMoreLabel(labels: seq<Label>, l: Label, s: System, s': System)
    requires After(labels) == s && Next(s, l).Some?
    requires var n := Next(s, l).value;
             && n.journal == s'.journal && n.launches == s'.launches && n.readies == s'.readies && n.owner == s'.owner
             && n.children == s'.children && n.processes == s'.processes && n.transactions == s'.transactions
             && n.emptyReads == s'.emptyReads && n.activations == s'.activations && n.told == s'.told
             && n.nonces == s'.nonces && n.guesses == s'.guesses
    ensures After(labels + [l]) == s'
  {
    hide Next;
    assert (labels + [l])[..|labels|] == labels;
  }

  // ---- An undisturbed validation ----

  /** Who takes part, and in what. */
  datatype Cast = Cast(installer: Process, child: Process, tx: string, candidate: string, layout: string, nonce: string)

  predicate Fits(c: Cast) { ValidStart(c.installer) && ValidStart(c.child) && c.installer != c.child }

  function StartAction(c: Cast): Action { ValidationAction(ValidationStart, 1, HashOf(c.nonce), Status.Intent) }

  function StopAction(): Action { ValidationAction(ValidationStop, 2, "", Done) }

  function NativeOf(c: Cast): Native { Native(c.tx, c.installer, c.candidate, c.layout) }

  function StartedView(c: Cast): View { View(c.tx, DefinitionCommitted, c.candidate, c.layout, [StartAction(c)]) }

  function RecordOf(c: Cast, child: Process): Launch { Launch(c.tx, HashOf(c.nonce), c.installer, child, c.candidate, c.layout) }

  function SentFrame(c: Cast): Frame { Frame(c.nonce, HashOf(c.nonce), c.tx, c.candidate, c.installer, c.layout) }

  /** The system while the validation goes on, but for the stage, the launch record and the child. */
  function During(c: Cast, stage: Stage, launches: map<string, Launch>, children: map<Process, Child>, told: set<(Process, Frame)>): System {
    System(Some(StartedView(c)), launches, map[], Some(Owner(c.installer, stage, c.nonce)), children,
           {c.installer} + children.Keys, {c.tx}, {}, map[], told, {c.nonce}, {})
  }

  function Opening(c: Cast): seq<Label> {
    [TakeLock(c.installer)] + [Label.Recover] + [Begin(c.tx, c.candidate, c.layout)] + [Prepare(DefinitionCommitted)]
    + [Intend(c.nonce, true)] + [SaveLaunch(true, true)]
  }

  lemma OpeningLaunches(c: Cast)
    requires Fits(c)
    ensures After(Opening(c)) == During(c, Launched, map[c.tx := RecordOf(c, NOBODY)], map[], {})
  {
    hide After, HashOf;
    var t: seq<Label> := [];
    NothingHappened();
    var s0 := Initial();
    var s1 := s0.(owner := Some(Owner(c.installer, Recovering, "")), processes := {c.installer});
    OneMoreLabel(t, TakeLock(c.installer), s0, s1);
    t := t + [TakeLock(c.installer)];
    var s2 := At(s1, Settled);
    OneMoreLabel(t, Label.Recover, s1, s2);
    t := t + [Label.Recover];
    var s3 := At(s2.(journal := Some(View(c.tx, Prepared, c.candidate, c.layout, [])), transactions := {c.tx}), Preparing);
    OneMoreLabel(t, Begin(c.tx, c.candidate, c.layout), s2, s3);
    t := t + [Begin(c.tx, c.candidate, c.layout)];
    var s4 := s3.(journal := Some(View(c.tx, DefinitionCommitted, c.candidate, c.layout, [])));
    OneMoreLabel(t, Prepare(DefinitionCommitted), s3, s4);
    t := t + [Prepare(DefinitionCommitted)];
    OpeningIntends(c, t, s4);
    assert t + [Intend(c.nonce, true)] + [SaveLaunch(true, true)] == Opening(c);
  }

  lemma OpeningIntends(c: Cast, t: seq<Label>, s4: System)
    requires After(t) == s4
    requires s4 == System(Some(View(c.tx, DefinitionCommitted, c.candidate, c.layout, [])), map[], map[], Some(Owner(c.installer, Preparing, "")),
                          map[], {c.installer}, {c.tx}, {}, map[], {}, {}, {})
    ensures After(t + [Intend(c.nonce, true)] + [SaveLaunch(true, true)]) == During(c, Launched, map[c.tx := RecordOf(c, NOBODY)], map[], {})
  {
    hide After, HashOf;
    assert [] + [StartAction(c)] == [StartAction(c)];
    var s5 := During(c, Intended, map[], map[], {});
    OneMoreLabel(t, Intend(c.nonce, true), s4, s5);
    OneMoreLabel(t + [Intend(c.nonce, true)], SaveLaunch(true, true), s5, During(c, Launched, map[c.tx := RecordOf(c, NOBODY)], map[], {}));
  }

  lemma NothingHappened()
    ensures After([]) == Initial()
  {
  }

  function Sending(c: Cast): seq<Label> { [Spawn(c.child, NativeOf(c))] + [SaveName(true, true)] + [Send] }

  /** The child as the frame reaches it, and later. */
  function ChildAt(c: Cast, stage: ChildStage, ran: bool): Child {
    Child(NativeOf(c), stage, Some(SentFrame(c)), ran, if ran then Some(SentFrame(c)) else None)
  }

  function Underway(c: Cast, stage: ChildStage, ran: bool): System {
    During(c, Framed(c.child), map[c.tx := RecordOf(c, c.child)], map[c.child := ChildAt(c, stage, ran)], {(c.child, SentFrame(c))})
  }

  lemma SendingFrames(c: Cast)
    requires Fits(c)
    ensures After(Opening(c) + Sending(c)) == Underway(c, Waiting, false)
  {
    hide After, HashOf;
    OpeningLaunches(c);
    var t := Opening(c);
    var child := Child(NativeOf(c), Waiting, None, false, None);
    var s := During(c, Spawned(c.child), map[c.tx := RecordOf(c, NOBODY)], map[c.child := child], {});
    OneMoreLabel(t, Spawn(c.child, NativeOf(c)), After(t), s);
    t := t + [Spawn(c.child, NativeOf(c))];
    var n := During(c, Named(c.child), map[c.tx := RecordOf(c, c.child)], map[c.child := child], {});
    OneMoreLabel(t, SaveName(true, true), s, n);
    t := t + [SaveName(true, true)];
    OneMoreLabel(t, Send, n, Underway(c, Waiting, false));
    assert t + [Send] == Opening(c) + Sending(c);
  }

  function Running(c: Cast, ok: bool): seq<Label> { [Receive(c.child)] + [LoadJournal(c.child)] + [Enter(c.child)] + [Publish(c.child, ok)] }

  lemma ChildLoads(c: Cast)
    requires Fits(c)
    ensures After(Opening(c) + Sending(c) + [Receive(c.child)] + [LoadJournal(c.child)]) == Underway(c, Loaded(SentFrame(c), StartedView(c)), false)
  {
    hide After, HashOf, ValidHash, PendingNonce;
    SendingFrames(c);
    PendingIsStarted(c);
    var t := Opening(c) + Sending(c);
    var s := Underway(c, Received(SentFrame(c)), false);
    OneMoreLabel(t, Receive(c.child), Underway(c, Waiting, false), s);
    OneMoreLabel(t + [Receive(c.child)], LoadJournal(c.child), s, Underway(c, Loaded(SentFrame(c), StartedView(c)), false));
  }

  lemma ChildRuns(c: Cast, ok: bool)
    requires Fits(c)
    ensures After(Opening(c) + Sending(c) + Running(c, ok))
            == Underway(c, InRun(StartedView(c)), true).(readies := map[c.tx := Ready(c.tx, c.child, c.candidate, c.layout, ok)])
  {
    hide After, HashOf, ValidHash, PendingNonce;
    ChildLoads(c);
    PendingIsStarted(c);
    var t := Opening(c) + Sending(c) + [Receive(c.child)] + [LoadJournal(c.child)];
    var s := Underway(c, InRun(StartedView(c)), true);
    OneMoreLabel(t, Enter(c.child), Underway(c, Loaded(SentFrame(c), StartedView(c)), false), s);
    t := t + [Enter(c.child)];
    OneMoreLabel(t, Publish(c.child, ok), s, s.(readies := map[c.tx := Ready(c.tx, c.child, c.candidate, c.layout, ok)]));
    assert t + [Publish(c.child, ok)] == Opening(c) + Sending(c) + Running(c, ok);
  }

  lemma PendingIsStarted(c: Cast)
    ensures PendingNonce(StartedView(c).actions) == HashOf(c.nonce) && ValidHash(HashOf(c.nonce))
  {
  }

  function Closing(): seq<Label> { [Match] + [Reap(true)] + [RecordStop] + [Activate] }

  /**
    Undisturbed, a validation ends in the activation of its transaction: the child it named ran
    on the frame it was sent, reported success and exited, and the journal records start and stop.
   */
  lemma UndisturbedValidation(c: Cast)
    requires Fits(c)
    ensures var s := After(Opening(c) + Sending(c) + Running(c, true) + Closing());
            && c.tx in s.activations
            && s.activations[c.tx] == View(c.tx, DefinitionCommitted, c.candidate, c.layout, [StartAction(c), StopAction()])
            && s.journal == Some(s.activations[c.tx].(phase := ActivationCommitted))
            && s.owner == Some(Owner(c.installer, Committed, c.nonce))
            && s.launches == map[c.tx := RecordOf(c, c.child)]
            && s.readies == map[c.tx := Ready(c.tx, c.child, c.candidate, c.layout, true)]
            && s.children == map[c.child := ChildAt(c, Exited(true), true)]
  {
    hide After, HashOf;
    ChildRuns(c, true);
    var t := Opening(c) + Sending(c) + Running(c, true);
    var s0 := After(t);
    var s1 := At(s0, Matched(c.child));
    OneMoreLabel(t, Match, s0, s1);
    t := t + [Match];
    var s2 := At(s1.(children := map[c.child := ChildAt(c, Exited(true), true)]), Reaped(c.child));
    OneMoreLabel(t, Reap(true), s1, s2);
    t := t + [Reap(true)];
    assert [StartAction(c)] + [StopAction()] == [StartAction(c), StopAction()];
    var stopped := View(c.tx, DefinitionCommitted, c.candidate, c.layout, [StartAction(c), StopAction()]);
    var s3 := At(s2.(journal := Some(stopped)), Finished(c.child));
    OneMoreLabel(t, RecordStop, s2, s3);
    t := t + [RecordStop];
    var s4 := At(s3.(journal := Some(stopped.(phase := ActivationCommitted)), activations := map[c.tx := stopped]), Committed);
    OneMoreLabel(t, Activate, s3, s4);
    assert t + [Activate] == Opening(c) + Sending(c) + Running(c, true) + Closing();
  }

  /** A child that reports a failure leaves its installer without a match, and the stop of the validation kills it. */
  lemma FailedValidation(c: Cast)
    requires Fits(c)
    ensures Next(After(Opening(c) + Sending(c) + Running(c, false)), Match).None?
    ensures var s := After(Opening(c) + Sending(c) + Running(c, false) + [Fail] + [CleanUp]);
            s.owner.None? && s.children == map[c.child := ChildAt(c, Exited(false), true)] && s.activations == map[]
  {
    hide After, HashOf;
    ChildRuns(c, false);
    var t := Opening(c) + Sending(c) + Running(c, false);
    var s := After(t);
    OneMoreLabel(t, Fail, s, At(s, Failing(c.child)));
    t := t + [Fail];
    OneMoreLabel(t, CleanUp, At(s, Failing(c.child)), s.(children := map[c.child := ChildAt(c, Exited(false), true)], owner := None));
  }

  // ---- Recovery is never stuck ----

  /** The launch record of the current transaction can be loaded for its journal, and names nobody or a real process. */
  ghost predicate Loadable(s: System) {
    && (s.owner.Some? ==> ValidStart(s.owner.value.self))
    && (s.journal.Some? ==> s.journal.value.tx in s.transactions) && s.launches.Keys <= s.transactions
    && (s.journal.Some? && s.journal.value.tx in s.launches ==>
          var l := s.launches[s.journal.value.tx];
          LaunchLoads(l, s.journal.value) && (l.child == NOBODY || ValidStart(l.child)))
    && (s.owner.Some? && s.owner.value.stage.Spawned? ==> ValidStart(s.owner.value.stage.child))
  }

  lemma StepLoadable(s: System, l: Label)
    requires Loadable(s) && Next(s, l).Some?
    ensures Loadable(Next(s, l).value)
  {
    hide Loadable, NextLock, NextInstaller, NextChild;
    match l
    case TakeLock(_) | Unlock | Crash | Recover | RecordRestore | FinishRecovery | Begin(_, _, _) | Prepare(_) => LockLoadable(s, l);
    case Receive(_) | LoadJournal(_) | Enter(_) | Publish(_, _) | Exit(_, _) | Forge(_, _) => ChildLoadable(s, l);
    case _ => InstallerLoadable(s, l);
  }

  lemma LockLoadable(s: System, l: Label)
    requires Loadable(s) && NextLock(s, l).Some?
    ensures Loadable(NextLock(s, l).value)
  {
    hide ValidationOver, PendingNonce, ValidStart, ValidationAction, ValidHash;
  }

  lemma InstallerLoadable(s: System, l: Label)
    requires Loadable(s) && NextInstaller(s, l).Some?
    ensures Loadable(NextInstaller(s, l).value)
  {
    hide ReadyMatches, SameStart, ValidStart, FrameOf, ValidationAction, HashOf, ValidHash;
    if s.owner.Some? && s.journal.Some? { HashLoads(s.owner.value.nonce); }
  }

  lemma HashLoads(nonce: string)
    ensures ValidHash(HashOf(nonce))
  {
  }

  lemma ChildLoadable(s: System, l: Label)
    requires Loadable(s)
    requires l.Receive? || l.LoadJournal? || l.Enter? || l.Publish? || l.Exit? || l.Forge?
    requires NextChild(s, l).Some?
    ensures Loadable(NextChild(s, l).value)
  {
    hide JournalAdmits, LaunchAdmits, FrameAdmits, LaunchLoads, ValidStart;
    var s' := NextChild(s, l).value;
    assert s'.journal == s.journal && s'.owner == s.owner && s'.launches == s.launches && s'.transactions == s.transactions;
  }

  lemma {:induction false} ReachableLoadable(labels: seq<Label>)
    ensures Loadable(After(labels))
  {
    hide Loadable, Next;
    if labels == [] {
      NothingLoaded();
    } else {
      ReachableLoadable(labels[..|labels| - 1]);
      var s := After(labels[..|labels| - 1]);
      if Next(s, labels[|labels| - 1]).Some? { StepLoadable(s, labels[|labels| - 1]); }
    }
  }

  lemma NothingLoaded()
    ensures Loadable(Initial())
  {
  }

  /** The lock holder deals with the validation it finds. */
  lemma RecoverIsPossible(labels: seq<Label>, p: Process) returns (s: System)
    requires After(labels).owner.None? && ValidStart(p) && p !in After(labels).processes
    ensures After(labels + [TakeLock(p)] + [Label.Recover]) == s
    ensures s.journal == After(labels).journal && s.transactions == After(labels).transactions
    ensures s.owner == Some(Owner(p, if s.journal.None? then Settled else Rolling, ""))
  {
    hide After, ValidStart, ValidationOver, LaunchLoads;
    ReachableLoadable(labels);
    var s0 := After(labels);
    var s1 := s0.(owner := Some(Owner(p, Recovering, "")), processes := s0.processes + {p});
    OneMoreLabel(labels, TakeLock(p), s0, s1);
    s := Next(s1, Label.Recover).value;
    OneMoreLabel(labels + [TakeLock(p)], Label.Recover, s1, s);
  }

  /** The journal that recovery leaves: complete, with a record that the validation was dealt with. */
  function Settlement(j: View): View {
    j.(phase := Complete,
       actions := j.actions
                  + [Action(|j.actions| + 1, RestoreValidation, ValidationRole, Text("running"), Text("idle"), "", PendingNonce(j.actions), Done)])
  }

  /**
    Whatever happened, whoever died: once the lock is free, the next process that takes it can
    deal with the validation it finds, record that in the journal and complete it.
   */
  lemma RecoverySettles(labels: seq<Label>, p: Process) returns (s: System)
    requires After(labels).owner.None? && ValidStart(p) && p !in After(labels).processes
    ensures After(labels + [TakeLock(p)] + [Label.Recover] + [RecordRestore] + [FinishRecovery]) == s
    ensures s.owner == Some(Owner(p, Settled, "")) && s.transactions == After(labels).transactions
    ensures s.journal == if After(labels).journal.None? then None else Some(Settlement(After(labels).journal.value))
  {
    hide After, ValidStart, PendingNonce;
    var r := RecoverIsPossible(labels, p);
    var t := labels + [TakeLock(p)] + [Label.Recover];
    if r.journal.None? {
      IdleLabel(t, RecordRestore);
      IdleLabel(t + [RecordRestore], FinishRecovery);
      s := r;
    } else {
      var n := Next(r, RecordRestore).value;
      OneMoreLabel(t, RecordRestore, r, n);
      s := Next(n, FinishRecovery).value;
      OneMoreLabel(t + [RecordRestore], FinishRecovery, n, s);
    }
  }

  /** Behind that it can begin a transaction of its own. */
  lemma RecoveryIsPossible(labels: seq<Label>, p: Process, tx: string, candidate: string, layout: string)
    requires After(labels).owner.None? && ValidStart(p) && p !in After(labels).processes && tx !in After(labels).transactions
    ensures var more := labels + [TakeLock(p)] + [Label.Recover] + [RecordRestore] + [FinishRecovery] + [Begin(tx, candidate, layout)];
            && After(more).owner == Some(Owner(p, Preparing, ""))
            && After(more).journal == Some(View(tx, Prepared, candidate, layout, []))
  {
    hide After, ValidStart, Settlement;
    var s := RecoverySettles(labels, p);
    var t := labels + [TakeLock(p)] + [Label.Recover] + [RecordRestore] + [FinishRecovery];
    OneMoreLabel(t, Begin(tx, candidate, layout), s, Next(s, Begin(tx, candidate, layout)).value);
  }

  lemma IdleLabel(labels: seq<Label>, l: Label)
    requires Next(After(labels), l).None?
    ensures After(labels + [l]) == After(labels)
  {
    hide Next;
    assert (labels + [l])[..|labels|] == labels;
  }
}
