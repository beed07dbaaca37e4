/**
  Write-ahead discipline and the single commit point, over the log of everything a
  history publishes and does: one forward run and any number of recoveries.
 */
module InstallDiscipline {
  import opened Options
  import opened InstallJournal
  import opened InstallEngine
  import opened InstallRollback
  import opened InstallRollforward
  import opened InstallAtomicity

  /** The document an observer reads after these events. */
  function Current(log: seq<Event>): Option<Journal>
    decreases |log|
  {
    if log == [] then None
    else
      match log[|log| - 1]
      case Published(j, _) => Some(j)
      case Reverted(j) => Some(j)
      case Effect(_) => Current(log[..|log| - 1])
  }

  /** The last document known to survive a power loss. */
  function LastDurable(log: seq<Event>): Option<Journal>
    decreases |log|
  {
    if log == [] then None
    else if log[|log| - 1].Published? && log[|log| - 1].durable then Some(log[|log| - 1].journal)
    else LastDurable(log[..|log| - 1])
  }

  /** The document holds `a` as an intent under its own sequence number. */
  predicate Announces(j: Journal, a: Action) {
    1 <= a.seqNo <= |j.actions| && j.actions[a.seqNo - 1] == a && a.status.Intent?
  }

  /** The next document of the same transaction: at most one action more, none lost, no way back. */
  predicate Follows(j: Journal, next: Journal) {
    && next.id == j.id && next.layout == j.layout
    && Extends(j.actions, next.actions) && |next.actions| <= |j.actions| + 1
    && (j.authority.Target? ==> next.authority.Target?)
  }

  ghost predicate FitsLog(log: seq<Event>, e: Event) {
    match e
    case Published(j, _) =>
      && ValidJournal(j) && PhaseMatchesAuthority(j)
      && (Current(log).Some? ==> Follows(Current(log).value, j))
    case Effect(a) => Current(log).Some? && Announces(Current(log).value, a)
    case Reverted(j) => LastDurable(log) == Some(j)
  }

  ghost predicate Disciplined(log: seq<Event>)
    decreases |log|
  {
    log == [] || (Disciplined(log[..|log| - 1]) && FitsLog(log[..|log| - 1], log[|log| - 1]))
  }

  lemma LogGrows(log: seq<Event>, e: Event)
    requires Disciplined(log) && FitsLog(log, e)
    ensures Disciplined(log + [e])
    ensures Current(log + [e]) == match e case Effect(_) => Current(log) case Published(j, _) => Some(j) case Reverted(j) => Some(j)
    ensures LastDurable(log + [e]) == if e.Published? && e.durable then Some(e.journal) else LastDurable(log)
  {
    assert (log + [e])[..|log|] == log && (log + [e])[|log|] == e;
  }

  // ---- Every operation of the engine is disciplined ----

  ghost predicate Logged(m: Machine) {
    && Disciplined(m.log) && Current(m.log) == Some(m.visible) && LastDurable(m.log) == Some(m.durable)
    && ValidJournal(m.visible) && PhaseMatchesAuthority(m.visible)
    && ValidJournal(m.durable) && PhaseMatchesAuthority(m.durable)
  }

  /** The operation kept the log, and on success the caller holds the published document. */
  ghost predicate Logs(r: Run) { Logged(r.m) && (r.ok ==> r.m.visible == r.j) }

  lemma SaveLogs(m: Machine, next: Journal)
    requires Logged(m) && PhaseMatchesAuthority(next) && Follows(m.visible, next)
    ensures Logs(Save(m, next)) && Save(m, next).j == next
  {
    hide Disciplined;
    if ValidJournal(next) {
      LogGrows(m.log, Published(next, true));
      LogGrows(m.log, Published(next, false));
    }
  }

  lemma ApplyLogs(m: Machine, a: Action)
    requires Logged(m) && Announces(m.visible, a)
    ensures Logged(Apply(m, a).0) && Apply(m, a).0.visible == m.visible
  {
    hide Disciplined, SubjectOf;
    LogGrows(m.log, Effect(a));
  }

  lemma IntentLogs(m: Machine, j: Journal, a: Action)
    requires Logged(m) && m.visible == j
    ensures var r := RecordIntent(m, j, a);
            && Logs(r) && r.j == j.(actions := r.j.actions)
            && (r.ok ==> r.j.actions == j.actions + [a.(seqNo := |j.actions| + 1, status := Intent)])
  {
    hide Logged, Save;
    var a' := a.(seqNo := |j.actions| + 1, status := Intent);
    if ValidAction(a') {
      assert PhaseMatchesAuthority(j) by { LoggedIsSound(m); }
      SaveLogs(m, j.(actions := j.actions + [a']));
    }
  }

  lemma LoggedIsSound(m: Machine)
    requires Logged(m)
    ensures ValidJournal(m.visible) && PhaseMatchesAuthority(m.visible)
  {
    hide Disciplined;
  }

  lemma DoneLogs(m: Machine, j: Journal, k: nat)
    requires Logged(m) && m.visible == j && k < |j.actions| && j.actions[k].status.Intent?
    ensures var r := RecordDone(m, j, j.actions[k].(status := Done));
            && Logs(r) && r.j == j.(actions := j.actions[k := j.actions[k].(status := Done)])
  {
    hide Logged, Save, RecordDone;
    LoggedIsSound(m);
    RecordDoneIsSave(m, j, k);
    DoneExtends(j.actions, k);
    var next := j.(actions := j.actions[k := j.actions[k].(status := Done)]);
    SaveLogs(m, next);
    SaveKeepsJournal(m, next);
  }

  lemma SaveKeepsJournal(m: Machine, next: Journal)
    ensures Save(m, next).j == next
  {
  }

  lemma StepLogs(m: Machine, j: Journal, a: Action)
    requires Logged(m) && m.visible == j
    ensures Logs(Step(m, j, a)) && Step(m, j, a).j == j.(actions := Step(m, j, a).j.actions)
  {
    hide Logged, RecordIntent, Apply, RecordDone;
    IntentLogs(m, j, a);
    var r := RecordIntent(m, j, a);
    if r.ok {
      var n := |j.actions|;
      ApplyLogs(r.m, r.j.actions[n]);
      DoneLogs(Apply(r.m, r.j.actions[n]).0, r.j, n);
    }
  }

  lemma ActivateLogs(m: Machine, j: Journal)
    requires Logged(m) && m.visible == j
    ensures Logs(Activate(m, j)) && (Activate(m, j).ok ==> Activate(m, j).j.authority.Target?)
  {
    hide Logged, RecordIntent, Apply, RecordDone, Save;
    IntentLogs(m, j, ActivationAction());
    var r := RecordIntent(m, j, ActivationAction());
    if r.ok {
      var next := r.j.(authority := Target, phase := ActivationCommitted);
      SaveLogs(r.m, next);
      SaveKeepsJournal(r.m, next);
      var s := Save(r.m, next);
      if s.ok {
        var n := |j.actions|;
        ApplyLogs(s.m, next.actions[n]);
        DoneLogs(Apply(s.m, next.actions[n]).0, next, n);
      }
    }
  }

  lemma PhaseLogs(m: Machine, j: Journal, next: Journal)
    requires Logged(m) && m.visible == j && PhaseMatchesAuthority(next)
    requires next == j.(phase := next.phase, authority := next.authority) && (j.authority.Target? ==> next.authority.Target?)
    ensures Logs(Save(m, next)) && Save(m, next).j == next
  {
    hide Logged, Save;
    assert Extends(j.actions, next.actions);
    SaveLogs(m, next);
  }

  /** A program enters only phases that agree with the authority it runs under. */
  predicate WellPhased(program: seq<Instr>, target: bool)
    decreases |program|
  {
    program == [] ||
    match program[0]
    case Enter(phase) =>
      && (if target then phase.ActivationCommitted? || phase.Complete? else Pending(phase))
      && WellPhased(program[1..], target)
    case DoActivate => WellPhased(program[1..], true)
    case _ => WellPhased(program[1..], target)
  }

  lemma {:induction false} ProgramLogs(m: Machine, j: Journal, program: seq<Instr>)
    requires Logged(m) && m.visible == j && WellPhased(program, j.authority.Target?)
    ensures Logs(RunProgram(m, j, program))
    decreases |program|
  {
    hide Logged, Step, Activate, Save;
    if program != [] {
      match program[0] {
        case Enter(phase) => PhaseLogs(m, j, j.(phase := phase));
        case Do(a) => StepLogs(m, j, a);
        case Change(a) => StepLogs(m, j, a);
        case DoReload => StepLogs(m, j, ReloadAction(m.world, Reload));
        case DoActivate => ActivateLogs(m, j);
      }
      var r := Execute(m, j, program[0]);
      if r.ok { ProgramLogs(r.m, r.j, program[1..]); }
    }
  }

  // ---- Recovery ----

  lemma FinishLogs(m: Machine, j: Journal, a: Action)
    requires Logged(m) && m.visible == j
    ensures Logs(FinishAction(m, j, a)) && FinishAction(m, j, a).j == j.(actions := FinishAction(m, j, a).j.actions)
  {
    hide Logged, Apply, RecordDone, Classify, Observe;
    LoggedIsSound(m);
    var i := FindSeq(j.actions, a.seqNo);
    if i < |j.actions| && j.actions[i].status.Intent? {
      var current := j.actions[i];
      assert Announces(j, current);
      DoneLogs(m, j, i);
      ApplyLogs(m, current);
      DoneLogs(Apply(m, current).0, j, i);
    }
  }

  lemma ReverseLogs(m: Machine, j: Journal, f: Action)
    requires Logged(m) && m.visible == j
    ensures Logs(Reverse(m, j, f)) && Reverse(m, j, f).j == j.(actions := Reverse(m, j, f).j.actions)
  {
    hide Logged, Step, ReverseKind, Observe;
    forall a ensures Logs(Step(m, j, a)) && Step(m, j, a).j == j.(actions := Step(m, j, a).j.actions) {
      StepLogs(m, j, a);
    }
  }

  lemma VisitLogs(m: Machine, j: Journal, a: Action)
    requires Logged(m) && m.visible == j
    ensures var r := Visit(m, j, a).run; Logs(r) && r.j == j.(actions := r.j.actions)
  {
    hide Logged, FinishAction, Reverse, AlreadyReversed, Classify, Observe, ReverseKind;
    FinishLogs(m, j, a);
    ReverseLogs(m, j, a);
  }

  lemma {:induction false} SweepBackLogs(m: Machine, j: Journal, snapshot: seq<Action>, n: nat)
    requires Logged(m) && m.visible == j && n <= |snapshot|
    ensures var r := SweepBack(m, j, snapshot, n).run; Logs(r) && r.j == j.(actions := r.j.actions)
    decreases n
  {
    hide Logged, Visit;
    if n > 0 {
      VisitLogs(m, j, snapshot[n - 1]);
      var s := Visit(m, j, snapshot[n - 1]);
      if s.run.ok { SweepBackLogs(s.run.m, s.run.j, snapshot, n - 1); }
    }
  }

  lemma RollbackLogs(m: Machine)
    requires Logged(m) && m.visible.authority.Source?
    ensures Logs(Rollback(m, m.visible))
  {
    hide Logged, SweepBack, Step, Save;
    var j := m.visible;
    SweepBackLogs(m, j, j.actions, |j.actions|);
    var s := SweepBack(m, j, j.actions, |j.actions|);
    if s.run.ok {
      var reload := ReloadAction(s.run.m.world, RestoreReload);
      StepLogs(s.run.m, s.run.j, reload);
      var r := if s.reversed then Step(s.run.m, s.run.j, reload) else s.run;
      if r.ok { PhaseLogs(r.m, r.j, r.j.(authority := Source, phase := Complete)); }
    }
  }

  lemma {:induction false} SweepForwardLogs(m: Machine, j: Journal, snapshot: seq<Action>, from: nat)
    requires Logged(m) && m.visible == j && from <= |snapshot|
    ensures var r := SweepForward(m, j, snapshot, from); Logs(r) && r.j == j.(actions := r.j.actions)
    decreases |snapshot| - from
  {
    hide Logged, FinishAction;
    if from < |snapshot| {
      FinishLogs(m, j, snapshot[from]);
      var r := FinishAction(m, j, snapshot[from]);
      if r.ok { SweepForwardLogs(r.m, r.j, snapshot, from + 1); }
    }
  }

  lemma EnsureLogs(m: Machine, j: Journal, a: Action)
    requires Logged(m) && m.visible == j
    ensures Logs(EnsureAction(m, j, a)) && Logs(EnsureReload(m, j))
    ensures EnsureAction(m, j, a).j == j.(actions := EnsureAction(m, j, a).j.actions)
    ensures EnsureReload(m, j).j == j.(actions := EnsureReload(m, j).j.actions)
  {
    hide Logged, Step, Observe, ReloadedAfterActivation;
    StepLogs(m, j, a);
    StepLogs(m, j, ReloadAction(m.world, Reload));
  }

  lemma EnsureTargetLogs(m: Machine, j: Journal, p: Policy)
    requires Logged(m) && m.visible == j
    ensures var r := EnsureTarget(m, j, p); Logs(r) && r.j == j.(actions := r.j.actions)
  {
    hide Logged, EnsureAction, EnsureReload, TargetPolicy;
    var (enabled, running) := TargetPolicy(p, j);
    var unmask := ServiceAction(Unmask, "masked", "unmasked");
    var enable := ServiceAction(Enable, "disabled", "enabled");
    var start := ServiceAction(Start, "stopped", "running");
    EnsureLogs(m, j, unmask);
    var r := EnsureAction(m, j, unmask);
    if r.ok {
      EnsureLogs(r.m, r.j, enable);
      var e := if enabled then EnsureAction(r.m, r.j, enable) else r;
      if e.ok {
        EnsureLogs(e.m, e.j, start);
        var l := EnsureReload(e.m, e.j);
        if l.ok { EnsureLogs(l.m, l.j, start); }
      }
    }
  }

  lemma RollforwardLogs(m: Machine, p: Policy)
    requires Logged(m) && m.visible.authority.Target?
    ensures Logs(Rollforward(m, m.visible, p))
  {
    hide Logged, SweepForward, EnsureTarget, Save;
    var j := m.visible;
    SweepForwardLogs(m, j, j.actions, 0);
    var r := SweepForward(m, j, j.actions, 0);
    if r.ok {
      EnsureTargetLogs(r.m, r.j, p);
      var e := EnsureTarget(r.m, r.j, p);
      if e.ok { PhaseLogs(e.m, e.j, e.j.(authority := Target, phase := Complete)); }
    }
  }

  lemma AttemptLogs(m: Machine, p: Policy, a: Attempt)
    requires Logged(m)
    ensures Logged(AfterAttempt(m, p, a))
  {
    hide Disciplined, Rollback, Rollforward;
    var m1 := m.(fates := a.fates);
    if m.visible.authority.Source? { RollbackLogs(m1); } else { RollforwardLogs(m1, p); }
    LossLogs(RecoverOnce(m1, p).m);
  }

  lemma LossLogs(m: Machine)
    requires Logged(m)
    ensures Logged(PowerLoss(m))
  {
    hide Disciplined;
    LogGrows(m.log, Reverted(m.durable));
  }

  lemma {:induction false} AttemptsLog(m: Machine, p: Policy, attempts: seq<Attempt>)
    requires Logged(m)
    ensures Logged(AfterAttempts(m, p, attempts))
    decreases |attempts|
  {
    hide Logged, AfterAttempt;
    if attempts != [] {
      AttemptsLog(m, p, attempts[..|attempts| - 1]);
      AttemptLogs(AfterAttempts(m, p, attempts[..|attempts| - 1]), p, attempts[|attempts| - 1]);
    }
  }

  // ---- The discipline of whole histories ----

  /**
    Write-ahead: in every history each effect is announced by the document then in
    force, as an intent with the same kind, role, references and tokens, and each
    document follows the one before.
   */
  lemma WriteAhead(world: World, j: Journal, program: seq<Instr>, fates: seq<Fate>, powerLoss: bool,
                   p: Policy, attempts: seq<Attempt>)
    requires ValidJournal(j) && PhaseMatchesAuthority(j) && j.authority.Source? && WellPhased(program, false)
    ensures Logged(AfterCrashes(world, j, program, fates, powerLoss, p, attempts))
  {
    hide RunProgram, PowerLoss, AfterAttempts;
    var m0 := Begin(world, j, fates);
    assert Logged(m0) by {
      assert m0.log[..0] == [] && m0.log == [] + [Published(j, true)];
      LogGrows([], Published(j, true));
    }
    ProgramLogs(m0, j, program);
    var m := RunProgram(m0, j, program).m;
    LossLogs(m);
    AttemptsLog(if powerLoss then PowerLoss(m) else m, p, attempts);
  }

  lemma {:induction false} PrefixDisciplined(log: seq<Event>, n: nat)
    requires Disciplined(log) && n <= |log|
    ensures Disciplined(log[..n])
    decreases |log|
  {
    if n < |log| {
      PrefixDisciplined(log[..|log| - 1], n);
      assert log[..|log| - 1][..n] == log[..n];
    } else {
      assert log[..n] == log;
    }
  }

  /** What the discipline says about the event at `i`. */
  lemma EventFits(log: seq<Event>, i: nat)
    requires Disciplined(log) && i < |log|
    ensures FitsLog(log[..i], log[i])
  {
    PrefixDisciplined(log, i + 1);
    assert log[..i + 1][..i] == log[..i];
  }

  /** While the surviving document is an activated one, so is the document in force. */
  lemma {:induction false} DurableTargetHolds(log: seq<Event>)
    requires Disciplined(log)
    ensures LastDurable(log).Some? && LastDurable(log).value.authority.Target? ==>
              Current(log).Some? && Current(log).value.authority.Target?
    decreases |log|
  {
    if log != [] {
      DurableTargetHolds(log[..|log| - 1]);
      if log[|log| - 1].Reverted? { EventFits(log, |log| - 1); }
    }
  }

  /**
    Single commit point: after a synced document under target authority, no document
    that is ever published or fallen back to is under source authority.
   */
  lemma {:induction false} CommitIsFinal(log: seq<Event>, i: nat, k: nat)
    requires Disciplined(log) && i <= k < |log|
    requires log[i].Published? && log[i].durable && log[i].journal.authority.Target?
    ensures !log[k].Effect? ==> log[k].journal.authority.Target?
    ensures LastDurable(log[..k + 1]).Some? && LastDurable(log[..k + 1]).value.authority.Target?
    decreases k
  {
    assert log[..k + 1][..k] == log[..k] && log[..k + 1][k] == log[k];
    if k > i {
      CommitIsFinal(log, i, k - 1);
      PrefixDisciplined(log, k);
      DurableTargetHolds(log[..k]);
      EventFits(log, k);
    }
  }

  /** Phase and authority agree in every document, so the startup gate opens for activated ones alone. */
  lemma GateFollowsAuthority(log: seq<Event>, i: nat, layout: string)
    requires Disciplined(log) && i < |log| && log[i].Published?
    ensures PassesStartupGate(log[i].journal, layout) <==>
              log[i].journal.authority.Target? && log[i].journal.layout == layout
    ensures Pending(log[i].journal.phase) ==> log[i].journal.authority.Source?
  {
    EventFits(log, i);
  }

  // ---- The forward run is stricter still ----

  /** Each effect comes right after the synced publication of its own intent. */
  ghost predicate SyncedEffects(log: seq<Event>) {
    forall i {:trigger log[i]} :: 0 <= i < |log| && log[i].Effect? ==>
      i > 0 && log[i - 1].Published? && log[i - 1].durable && Announces(log[i - 1].journal, log[i].action)
  }

  /** At most the last action is unfinished. */
  predicate OpenAtMostLast(actions: seq<Action>) { AllDone(actions, if actions == [] then 0 else |actions| - 1) }

  ghost predicate Strict(r: Run) {
    && SyncedEffects(r.m.log) && OpenAtMostLast(r.m.visible.actions)
    && (r.ok ==> r.m.visible == r.j && ValidJournal(r.j) && AllDone(r.j.actions, |r.j.actions|))
  }

  ghost predicate Settled(m: Machine, j: Journal) {
    SyncedEffects(m.log) && m.visible == j && ValidJournal(j) && AllDone(j.actions, |j.actions|)
  }

  /** A save of a document with at most its last action open keeps the strict form. */
  lemma SaveStrict(m: Machine, next: Journal)
    requires SyncedEffects(m.log) && OpenAtMostLast(m.visible.actions) && OpenAtMostLast(next.actions)
    ensures var r := Save(m, next);
            && SyncedEffects(r.m.log) && OpenAtMostLast(r.m.visible.actions) && r.j == next
            && (r.ok ==> r.m.visible == next && ValidJournal(next) && r.m.log == m.log + [Published(next, true)])
  {
    hide ValidJournal, OpenAtMostLast;
    assert forall e: Event :: forall i :: 0 <= i < |m.log| ==> (m.log + [e])[i] == m.log[i];
  }

  lemma EffectStrict(m: Machine, j: Journal, a: Action)
    requires SyncedEffects(m.log) && |m.log| > 0 && m.log[|m.log| - 1] == Published(j, true) && Announces(j, a)
    ensures SyncedEffects(Apply(m, a).0.log) && Apply(m, a).0.visible == m.visible
  {
    hide SubjectOf, Announces;
    var log := m.log + [Effect(a)];
    forall i | 0 <= i < |log| && log[i].Effect?
      ensures i > 0 && log[i - 1].Published? && log[i - 1].durable && Announces(log[i - 1].journal, log[i].action)
    {
      if i < |m.log| { assert m.log[i].Effect?; }
    }
  }

  lemma FinishStrict(m: Machine, j: Journal)
    requires SyncedEffects(m.log) && m.visible == j && ValidJournal(j) && OpenAtMostLast(j.actions)
    requires |j.actions| > 0 && j.actions[|j.actions| - 1].status.Intent?
    ensures Strict(FinishLast(m, j))
  {
    hide SyncedEffects, Save;
    var n := |j.actions| - 1;
    RecordDoneIsSave(m, j, n);
    SaveStrict(m, j.(actions := j.actions[n := j.actions[n].(status := Done)]));
  }

  lemma StepStrict(m: Machine, j: Journal, a: Action)
    requires Settled(m, j)
    ensures Strict(Step(m, j, a))
  {
    hide SyncedEffects, Save, Apply, FinishLast;
    var n := |j.actions|;
    var a' := a.(seqNo := n + 1, status := Intent);
    if ValidAction(a') {
      var j1 := j.(actions := j.actions + [a']);
      SaveStrict(m, j1);
      var r := Save(m, j1);
      if r.ok {
        EffectStrict(r.m, j1, j1.actions[n]);
        var (m', ok) := Apply(r.m, j1.actions[n]);
        if ok { FinishStrict(m', j1); }
      }
    }
  }

  lemma ActivateStrict(m: Machine, j: Journal)
    requires Settled(m, j)
    ensures Strict(Activate(m, j))
  {
    hide SyncedEffects, Save, Apply, FinishLast;
    var n := |j.actions|;
    var j1 := j.(actions := j.actions + [ActivationAction().(seqNo := n + 1, status := Intent)]);
    SaveStrict(m, j1);
    var r := Save(m, j1);
    if r.ok {
      var j2 := j1.(authority := Target, phase := ActivationCommitted);
      SaveStrict(r.m, j2);
      var s := Save(r.m, j2);
      if s.ok {
        EffectStrict(s.m, j2, j2.actions[n]);
        var (m', ok) := Apply(s.m, j2.actions[n]);
        if ok { FinishStrict(m', j2); }
      }
    }
  }

  /** In a forward run effects follow synced intents, and only the last action can be unfinished. */
  lemma {:induction false} ForwardIsStrict(m: Machine, j: Journal, program: seq<Instr>)
    requires Settled(m, j)
    ensures Strict(RunProgram(m, j, program))
    decreases |program|
  {
    hide Step, Activate, Save, SyncedEffects;
    if program != [] {
      match program[0] {
        case Enter(phase) => SaveStrict(m, j.(phase := phase));
        case Do(a) => StepStrict(m, j, a);
        case Change(a) => StepStrict(m, j, a);
        case DoReload => StepStrict(m, j, ReloadAction(m.world, Reload));
        case DoActivate => ActivateStrict(m, j);
      }
      var r := Execute(m, j, program[0]);
      if r.ok { ForwardIsStrict(r.m, r.j, program[1..]); }
    }
  }
}
