/**
  No activation without a validation: in every history of an install or a bootstrap, a
  document under target authority records a finished validation before its activation.
 */
module InstallVetting {
  import opened Options
  import opened InstallJournal
  import opened InstallEngine
  import opened InstallRollback
  import opened InstallRollforward
  import opened InstallAtomicity
  import opened InstallPrograms

  /** Before position `n` a validation with that hash was started and, later, stopped. */
  ghost predicate ValidatedBefore(actions: seq<Action>, hash: string, n: nat)
    requires n <= |actions|
  {
    exists s, t :: 0 <= s < t < n
      && actions[s].kind.ValidationStart? && actions[s].candidate == hash && actions[s].status.Done?
      && actions[t].kind.ValidationStop? && actions[t].status.Done?
  }

  ghost predicate Vetted(actions: seq<Action>, hash: string) {
    forall a {:trigger ValidatedBefore(actions, hash, a)} ::
      0 <= a < |actions| && actions[a].kind.Activation? ==> ValidatedBefore(actions, hash, a)
  }

  /** A document under target authority has been activated, and every activation in it was preceded by a validation. */
  ghost predicate VettedDocument(j: Journal, hash: string) {
    && ValidJournal(j) && Vetted(j.actions, hash)
    && (j.authority.Target? ==> exists a :: 0 <= a < |j.actions| && j.actions[a].kind.Activation?)
  }

  ghost predicate VettedLog(log: seq<Event>, hash: string) {
    forall i :: 0 <= i < |log| && !log[i].Effect? ==> VettedDocument(log[i].journal, hash)
  }

  ghost predicate VettedMachine(m: Machine, hash: string) {
    VettedDocument(m.visible, hash) && VettedDocument(m.durable, hash) && VettedLog(m.log, hash)
  }

  /** The run kept the machine, and on success the caller holds the published document. */
  ghost predicate KeepsVetted(r: Run, hash: string) { VettedMachine(r.m, hash) && (r.ok ==> r.m.visible == r.j) }

  // ---- Documents ----

  lemma ValidatedStays(a: seq<Action>, b: seq<Action>, hash: string, n: nat)
    requires n <= |a| && Extends(a, b) && ValidatedBefore(a, hash, n)
    ensures ValidatedBefore(b, hash, n)
  {
    var s, t :| 0 <= s < t < n
      && a[s].kind.ValidationStart? && a[s].candidate == hash && a[s].status.Done?
      && a[t].kind.ValidationStop? && a[t].status.Done?;
    assert AdvancesTo(a[s], b[s]) && AdvancesTo(a[t], b[t]);
  }

  /** Finishing actions and appending one that is no activation, or is preceded by a validation. */
  lemma VettedGrows(j: Journal, next: Journal, hash: string)
    requires VettedDocument(j, hash) && ValidJournal(next) && Extends(j.actions, next.actions) && |next.actions| <= |j.actions| + 1
    requires next.authority.Target? ==> j.authority.Target? || exists a :: 0 <= a < |next.actions| && next.actions[a].kind.Activation?
    requires |next.actions| > |j.actions| && next.actions[|j.actions|].kind.Activation? ==> ValidatedBefore(j.actions, hash, |j.actions|)
    ensures VettedDocument(next, hash)
  {
    hide ValidatedBefore;
    forall a | 0 <= a < |next.actions| && next.actions[a].kind.Activation? ensures ValidatedBefore(next.actions, hash, a) {
      if a < |j.actions| { assert AdvancesTo(j.actions[a], next.actions[a]); }
      ValidatedStays(j.actions, next.actions, hash, a);
    }
    if j.authority.Target? {
      var a :| 0 <= a < |j.actions| && j.actions[a].kind.Activation?;
      assert AdvancesTo(j.actions[a], next.actions[a]);
    }
  }

  // ---- Every operation of the engine ----

  lemma SaveVetted(m: Machine, next: Journal, hash: string)
    requires VettedMachine(m, hash) && (ValidJournal(next) ==> VettedDocument(next, hash))
    ensures KeepsVetted(Save(m, next), hash) && Save(m, next).j == next
  {
    hide VettedDocument, ValidJournal;
  }

  lemma EffectVetted(m: Machine, a: Action, hash: string)
    requires VettedMachine(m, hash)
    ensures VettedMachine(Apply(m, a).0, hash) && Apply(m, a).0.visible == m.visible
  {
    hide VettedDocument, KeyOf;
  }

  lemma IntentVetted(m: Machine, j: Journal, a: Action, hash: string)
    requires VettedMachine(m, hash) && m.visible == j
    requires a.kind.Activation? ==> ValidatedBefore(j.actions, hash, |j.actions|)
    ensures var r := RecordIntent(m, j, a);
            && KeepsVetted(r, hash)
            && (r.ok ==> r.j == j.(actions := j.actions + [a.(seqNo := |j.actions| + 1, status := Intent)]))
  {
    hide VettedLog, Save, ValidAction;
    var a' := a.(seqNo := |j.actions| + 1, status := Intent);
    var next := j.(actions := j.actions + [a']);
    if ValidJournal(next) { VettedGrows(j, next, hash); }
    SaveVetted(m, next, hash);
  }

  lemma DoneVetted(m: Machine, j: Journal, k: nat, hash: string)
    requires VettedMachine(m, hash) && m.visible == j && k < |j.actions| && j.actions[k].status.Intent?
    ensures var r := RecordDone(m, j, j.actions[k].(status := Done));
            KeepsVetted(r, hash) && r.j == j.(actions := j.actions[k := j.actions[k].(status := Done)])
  {
    hide VettedLog, Save, RecordDone, Vetted;
    RecordDoneIsSave(m, j, k);
    DoneExtends(j.actions, k);
    var next := j.(actions := j.actions[k := j.actions[k].(status := Done)]);
    if ValidJournal(next) { VettedGrows(j, next, hash); }
    SaveVetted(m, next, hash);
  }

  lemma StepVetted(m: Machine, j: Journal, a: Action, hash: string)
    requires VettedMachine(m, hash) && m.visible == j && !a.kind.Activation?
    ensures var r := Step(m, j, a);
            && KeepsVetted(r, hash)
            && (r.ok ==> r.j == j.(actions := j.actions + [a.(seqNo := |j.actions| + 1, status := Done)]))
  {
    hide VettedMachine, RecordIntent, RecordDone, Apply;
    IntentVetted(m, j, a, hash);
    var r := RecordIntent(m, j, a);
    if r.ok {
      var n := |j.actions|;
      EffectVetted(r.m, r.j.actions[n], hash);
      var m' := Apply(r.m, r.j.actions[n]).0;
      DoneVetted(m', r.j, n, hash);
      assert r.j.actions[n := r.j.actions[n].(status := Done)] == j.actions + [a.(seqNo := n + 1, status := Done)];
    }
  }

  lemma PhaseVetted(m: Machine, j: Journal, next: Journal, hash: string)
    requires VettedMachine(m, hash) && m.visible == j && next == j.(phase := next.phase, authority := next.authority)
    requires next.authority.Target? ==> j.authority.Target?
    ensures KeepsVetted(Save(m, next), hash) && Save(m, next).j == next
  {
    hide VettedLog, Save, Vetted;
    VettedGrows(j, next, hash);
    SaveVetted(m, next, hash);
  }

  lemma FinishVetted(m: Machine, j: Journal, a: Action, hash: string)
    requires VettedMachine(m, hash) && m.visible == j
    ensures KeepsVetted(FinishAction(m, j, a), hash) && FinishAction(m, j, a).j == j.(actions := FinishAction(m, j, a).j.actions)
  {
    hide VettedMachine, Apply, RecordDone, Classify, Observe;
    var i := FindSeq(j.actions, a.seqNo);
    if i < |j.actions| && j.actions[i].status.Intent? {
      DoneVetted(m, j, i, hash);
      EffectVetted(m, j.actions[i], hash);
      DoneVetted(Apply(m, j.actions[i]).0, j, i, hash);
    }
  }

  lemma ReverseVetted(m: Machine, j: Journal, f: Action, hash: string)
    requires VettedMachine(m, hash) && m.visible == j
    ensures KeepsVetted(Reverse(m, j, f), hash)
  {
    hide VettedMachine, Step, Observe;
    forall a: Action | !a.kind.Activation? ensures KeepsVetted(Step(m, j, a), hash) { StepVetted(m, j, a, hash); }
  }

  lemma VisitVetted(m: Machine, j: Journal, a: Action, hash: string)
    requires VettedMachine(m, hash) && m.visible == j
    ensures KeepsVetted(Visit(m, j, a).run, hash)
  {
    hide VettedMachine, FinishAction, Reverse, AlreadyReversed, Classify, Observe, ReverseKind;
    FinishVetted(m, j, a, hash);
    ReverseVetted(m, j, a, hash);
  }

  lemma {:induction false} SweepBackVetted(m: Machine, j: Journal, snapshot: seq<Action>, n: nat, hash: string)
    requires VettedMachine(m, hash) && m.visible == j && n <= |snapshot|
    ensures KeepsVetted(SweepBack(m, j, snapshot, n).run, hash)
    decreases n
  {
    hide VettedMachine, Visit;
    if n > 0 {
      VisitVetted(m, j, snapshot[n - 1], hash);
      var s := Visit(m, j, snapshot[n - 1]);
      if s.run.ok { SweepBackVetted(s.run.m, s.run.j, snapshot, n - 1, hash); }
    }
  }

  lemma RollbackVetted(m: Machine, hash: string)
    requires VettedMachine(m, hash)
    ensures VettedMachine(Rollback(m, m.visible).m, hash)
  {
    hide VettedMachine, SweepBack, Step, Save;
    var j := m.visible;
    SweepBackVetted(m, j, j.actions, |j.actions|, hash);
    var s := SweepBack(m, j, j.actions, |j.actions|);
    if s.run.ok {
      var reload := ReloadAction(s.run.m.world, RestoreReload);
      StepVetted(s.run.m, s.run.j, reload, hash);
      var r := if s.reversed then Step(s.run.m, s.run.j, reload) else s.run;
      if r.ok { PhaseVetted(r.m, r.j, r.j.(authority := Source, phase := Complete), hash); }
    }
  }

  lemma {:induction false} SweepForwardVetted(m: Machine, j: Journal, snapshot: seq<Action>, from: nat, hash: string)
    requires VettedMachine(m, hash) && m.visible == j && from <= |snapshot|
    ensures var r := SweepForward(m, j, snapshot, from); KeepsVetted(r, hash) && r.j == j.(actions := r.j.actions)
    decreases |snapshot| - from
  {
    hide VettedMachine, FinishAction;
    if from < |snapshot| {
      FinishVetted(m, j, snapshot[from], hash);
      var r := FinishAction(m, j, snapshot[from]);
      if r.ok { SweepForwardVetted(r.m, r.j, snapshot, from + 1, hash); }
    }
  }

  lemma EnsureVetted(m: Machine, j: Journal, a: Action, hash: string)
    requires VettedMachine(m, hash) && m.visible == j && !a.kind.Activation?
    ensures KeepsVetted(EnsureAction(m, j, a), hash) && KeepsVetted(EnsureReload(m, j), hash)
    ensures EnsureAction(m, j, a).ok ==> EnsureAction(m, j, a).j == j.(actions := EnsureAction(m, j, a).j.actions)
    ensures EnsureReload(m, j).ok ==> EnsureReload(m, j).j == j.(actions := EnsureReload(m, j).j.actions)
  {
    hide VettedMachine, Step, Observe, ReloadedAfterActivation;
    StepVetted(m, j, a, hash);
    StepVetted(m, j, ReloadAction(m.world, Reload), hash);
  }

  lemma EnsureTargetVetted(m: Machine, j: Journal, p: Policy, hash: string)
    requires VettedMachine(m, hash) && m.visible == j
    ensures var r := EnsureTarget(m, j, p); KeepsVetted(r, hash) && (r.ok ==> r.j == j.(actions := r.j.actions))
  {
    hide VettedMachine, EnsureAction, EnsureReload, TargetPolicy;
    var (enabled, running) := TargetPolicy(p, j);
    var unmask := ServiceAction(Unmask, "masked", "unmasked");
    var enable := ServiceAction(Enable, "disabled", "enabled");
    var start := ServiceAction(Start, "stopped", "running");
    EnsureVetted(m, j, unmask, hash);
    var r := EnsureAction(m, j, unmask);
    if r.ok {
      EnsureVetted(r.m, r.j, enable, hash);
      var e := if enabled then EnsureAction(r.m, r.j, enable) else r;
      if e.ok {
        EnsureVetted(e.m, e.j, start, hash);
        var l := EnsureReload(e.m, e.j);
        if l.ok { EnsureVetted(l.m, l.j, start, hash); }
      }
    }
  }

  lemma RollforwardVetted(m: Machine, p: Policy, hash: string)
    requires VettedMachine(m, hash) && m.visible.authority.Target?
    ensures VettedMachine(Rollforward(m, m.visible, p).m, hash)
  {
    hide VettedMachine, SweepForward, EnsureTarget, Save;
    var j := m.visible;
    SweepForwardVetted(m, j, j.actions, 0, hash);
    var r := SweepForward(m, j, j.actions, 0);
    if r.ok {
      EnsureTargetVetted(r.m, r.j, p, hash);
      var e := EnsureTarget(r.m, r.j, p);
      if e.ok { PhaseVetted(e.m, e.j, e.j.(authority := Target, phase := Complete), hash); }
    }
  }

  lemma LossVetted(m: Machine, hash: string)
    requires VettedMachine(m, hash)
    ensures VettedMachine(PowerLoss(m), hash)
  {
    hide VettedDocument;
  }

  lemma {:induction false} AttemptsVetted(m: Machine, p: Policy, attempts: seq<Attempt>, hash: string)
    requires VettedMachine(m, hash)
    ensures VettedMachine(AfterAttempts(m, p, attempts), hash)
    decreases |attempts|
  {
    hide VettedDocument, VettedLog, Rollback, Rollforward, PowerLoss;
    if attempts != [] {
      AttemptsVetted(m, p, attempts[..|attempts| - 1], hash);
      var m1 := AfterAttempts(m, p, attempts[..|attempts| - 1]).(fates := attempts[|attempts| - 1].fates);
      RollbackVetted(m1, hash);
      if m1.visible.authority.Target? { RollforwardVetted(m1, p, hash); }
      LossVetted(RecoverOnce(m1, p).m, hash);
    }
  }

  // ---- The forward runs ----

  lemma ActivateVetted(m: Machine, j: Journal, hash: string)
    requires VettedMachine(m, hash) && m.visible == j && ValidatedBefore(j.actions, hash, |j.actions|)
    ensures KeepsVetted(Activate(m, j), hash)
  {
    hide VettedLog, Vetted, ValidJournal, ValidatedBefore, RecordIntent, RecordDone, Apply, Save;
    IntentVetted(m, j, ActivationAction(), hash);
    var r := RecordIntent(m, j, ActivationAction());
    if r.ok {
      var n := |j.actions|;
      var next := r.j.(authority := Target, phase := ActivationCommitted);
      assert next.actions[n].kind.Activation?;
      Authorised(r.j, next, hash);
      SaveVetted(r.m, next, hash);
      var s := Save(r.m, next);
      if s.ok {
        EffectVetted(s.m, next.actions[n], hash);
        DoneVetted(Apply(s.m, next.actions[n]).0, next, n, hash);
      }
    }
  }

  lemma Authorised(j: Journal, next: Journal, hash: string)
    requires VettedDocument(j, hash) && next == j.(authority := Target, phase := next.phase)
    requires exists a :: 0 <= a < |j.actions| && j.actions[a].kind.Activation?
    ensures VettedDocument(next, hash)
  {
    hide ValidJournal;
    SameValidity(j, next);
  }

  lemma SameValidity(j: Journal, next: Journal)
    requires next.actions == j.actions
    ensures ValidJournal(next) == ValidJournal(j)
  {
  }

  /** Instructions that never record an activation by themselves. */
  predicate Inactive(program: seq<Instr>) {
    forall i :: 0 <= i < |program| ==>
      !program[i].DoActivate? && ((program[i].Do? || program[i].Change?) ==> !program[i].action.kind.Activation?)
  }

  lemma {:induction false} InactiveVetted(m: Machine, j: Journal, program: seq<Instr>, hash: string)
    requires VettedMachine(m, hash) && m.visible == j && Inactive(program)
    ensures var r := RunProgram(m, j, program); KeepsVetted(r, hash)
    decreases |program|
  {
    hide VettedMachine, Step, Save;
    if program != [] {
      match program[0] {
        case Enter(phase) => PhaseVetted(m, j, j.(phase := phase), hash);
        case Do(a) => StepVetted(m, j, a, hash);
        case Change(a) => StepVetted(m, j, a, hash);
        case DoReload => StepVetted(m, j, ReloadAction(m.world, Reload), hash);
      }
      var r := Execute(m, j, program[0]);
      if r.ok { InactiveVetted(r.m, r.j, program[1..], hash); }
    }
  }

  /** The two steps of a validation, at the end of a program. */
  lemma ValidationRuns(m: Machine, j: Journal, begin: Action, end: Action, hash: string)
    requires VettedMachine(m, hash) && m.visible == j
    requires begin.kind.ValidationStart? && begin.candidate == hash && end.kind.ValidationStop?
    ensures var r := RunProgram(m, j, [Do(begin), Do(end)]);
            KeepsVetted(r, hash) && (r.ok ==> ValidatedBefore(r.j.actions, hash, |r.j.actions|))
  {
    hide VettedMachine, Step;
    var p := [Do(begin), Do(end)];
    assert p[1..] == [Do(end)] && p[1..][1..] == [];
    StepVetted(m, j, begin, hash);
    var r := Step(m, j, begin);
    if r.ok {
      StepVetted(r.m, r.j, end, hash);
      var e := Step(r.m, r.j, end);
      assert RunProgram(r.m, r.j, [Do(end)]) == if e.ok then RunProgram(e.m, e.j, []) else e;
      if e.ok {
        var n := |j.actions|;
        assert e.j.actions[n].kind.ValidationStart? && e.j.actions[n + 1].kind.ValidationStop?;
      }
    }
  }

  /** A program whose activation comes right behind a validation. */
  lemma VettedRuns(m: Machine, j: Journal, p: seq<Instr>, begin: Action, end: Action, q: seq<Instr>, hash: string)
    requires VettedMachine(m, hash) && m.visible == j && Inactive(p) && Inactive(q)
    requires begin.kind.ValidationStart? && begin.candidate == hash && end.kind.ValidationStop?
    ensures VettedMachine(RunProgram(m, j, p + [Do(begin), Do(end)] + [DoActivate] + q).m, hash)
  {
    hide VettedMachine, RunProgram, ValidatedBefore, Execute;
    var v := [Do(begin), Do(end)];
    InactiveVetted(m, j, p, hash);
    RunAppend(m, j, p, v);
    var r := RunProgram(m, j, p);
    if r.ok { ValidationRuns(r.m, r.j, begin, end, hash); }
    var s := RunProgram(m, j, p + v);
    RunAppend(m, j, p + v, [DoActivate]);
    RunOne(s.m, s.j, DoActivate);
    ExecuteActivates(s.m, s.j);
    if s.ok { ActivateVetted(s.m, s.j, hash); }
    var a := RunProgram(m, j, p + v + [DoActivate]);
    RunAppend(m, j, p + v + [DoActivate], q);
    if a.ok { InactiveVetted(a.m, a.j, q, hash); }
  }

  /** Hooks that record no activation. */
  predicate PlainHooks(hooks: seq<Instr>) { JournalHooks(hooks) && Inactive(hooks) }

  lemma InstallIsVetted(m: Machine, j: Journal, art: Artifacts, d: DataAction, hash: string, stop: seq<Instr>, publish: seq<Instr>)
    requires VettedMachine(m, hash) && m.visible == j && PlainHooks(stop) && PlainHooks(publish)
    ensures VettedMachine(RunProgram(m, j, ApplyProgram(art, d, hash, stop, publish)).m, hash)
  {
    hide VettedMachine, RunProgram;
    var p := stop + DataPart(art, d) + BinaryPart(art) + DefinitionPart(art);
    var q := publish + [Enter(Complete)];
    assert Inactive(p) by { InstallIsInactive(art, d, stop); }
    VettedRuns(m, j, p, ValidationBegins(hash), ValidationEnds(), q, hash);
    assert ApplyProgram(art, d, hash, stop, publish) == p + [Do(ValidationBegins(hash)), Do(ValidationEnds())] + [DoActivate] + q;
  }

  lemma InstallIsInactive(art: Artifacts, d: DataAction, stop: seq<Instr>)
    requires PlainHooks(stop)
    ensures Inactive(stop + DataPart(art, d) + BinaryPart(art) + DefinitionPart(art))
  {
    assert Inactive(DataPart(art, d)) && Inactive(BinaryPart(art)) && Inactive(DefinitionPart(art));
  }

  lemma BootstrapIsVetted(m: Machine, j: Journal, hash: string)
    requires VettedMachine(m, hash) && m.visible == j
    ensures VettedMachine(RunProgram(m, j, BootstrapProgram(hash)).m, hash)
  {
    hide VettedMachine, RunProgram;
    var p := [Do(FileAction(DataPublish, DataRole, ABSENT, Text("created"))), Enter(DefinitionCommitted)];
    VettedRuns(m, j, p, ValidationBegins(hash), ValidationEnds(), [], hash);
    assert BootstrapProgram(hash) == p + [Do(ValidationBegins(hash)), Do(ValidationEnds())] + [DoActivate] + [];
  }

  lemma BeginVetted(world: World, j: Journal, fates: seq<Fate>, hash: string)
    requires FreshJournal(j)
    ensures VettedMachine(Begin(world, j, fates), hash)
  {
  }

  /**
    Whatever is cut and whatever power losses take back: every document under target authority
    that an install or a bootstrap, or a recovery from it, ever publishes or falls back to holds
    an activation, and before each activation a finished start and a finished stop of a
    validation with the given hash.
   */
  lemma ActivationIsVetted(world: World, j: Journal, producer: Producer, fates: seq<Fate>, powerLoss: bool,
                           p: Policy, attempts: seq<Attempt>, i: nat)
    requires FreshJournal(j) && !producer.Managing?
    requires producer.Installing? ==> PlainHooks(producer.stop) && PlainHooks(producer.publish)
    requires i < |AfterCrashes(world, j, ProgramOf(producer), fates, powerLoss, p, attempts).log|
    ensures var e := AfterCrashes(world, j, ProgramOf(producer), fates, powerLoss, p, attempts).log[i];
            !e.Effect? && e.journal.authority.Target? ==>
              && (exists a :: 0 <= a < |e.journal.actions| && e.journal.actions[a].kind.Activation?)
              && forall a :: 0 <= a < |e.journal.actions| && e.journal.actions[a].kind.Activation? ==>
                   exists s, t :: 0 <= s < t < a
                     && e.journal.actions[s].kind.ValidationStart? && e.journal.actions[s].candidate == producer.hash
                     && e.journal.actions[s].status.Done?
                     && e.journal.actions[t].kind.ValidationStop? && e.journal.actions[t].status.Done?
  {
    hide RunProgram, PowerLoss, AfterAttempts, ApplyProgram, BootstrapProgram, ValidJournal;
    var hash := producer.hash;
    var m0 := Begin(world, j, fates);
    BeginVetted(world, j, fates, hash);
    match producer {
      case Installing(art, d, _, stop, publish) => InstallIsVetted(m0, j, art, d, hash, stop, publish);
      case Bootstrapping(_) => BootstrapIsVetted(m0, j, hash);
    }
    var m := RunProgram(m0, j, ProgramOf(producer)).m;
    LossVetted(m, hash);
    AttemptsVetted(if powerLoss then PowerLoss(m) else m, p, attempts, hash);
    var log := AfterCrashes(world, j, ProgramOf(producer), fates, powerLoss, p, attempts).log;
    if !log[i].Effect? {
      assert VettedDocument(log[i].journal, hash);
      forall a | 0 <= a < |log[i].journal.actions| && log[i].journal.actions[a].kind.Activation?
        ensures ValidatedBefore(log[i].journal.actions, hash, a) {}
    }
  }
}
