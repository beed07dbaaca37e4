/**
  Recovery gets through: if every key moves between two tokens, then after any cut
  forward run and any cut recoveries, the next recovery that meets no failure succeeds.
 */
module InstallConvergence {
  import opened Options
  import opened InstallJournal
  import opened InstallEngine
  import opened InstallRollback
  import opened InstallRollforward
  import opened InstallAtomicity
  import opened InstallPlans
  import opened InstallExactness
  import opened InstallPrograms
  import opened InstallOutcomes

  /** The two tokens each key may hold. */
  type Pairs = map<Key, (Token, Token)>

  predicate Within(t: Token, pair: (Token, Token)) { t == pair.0 || t == pair.1 }

  predicate Switches(pairs: Pairs, subject: Subject, off: string, on: string) {
    Switch(subject) in pairs && pairs[Switch(subject)] == (Text(off), Text(on))
  }

  ghost predicate PairsFit(pairs: Pairs) {
    && Switches(pairs, Masking, "masked", "unmasked")
    && Switches(pairs, Enablement, "disabled", "enabled")
    && Switches(pairs, Running, "stopped", "running")
    && forall key :: key in pairs ==>
         && !key.subject.Reloads? && pairs[key].0 != Text("") && pairs[key].1 != Text("")
         && (key.subject.Data? ==> pairs[key].0 == ABSENT)
  }

  predicate Paired(a: Action, pairs: Pairs) {
    if a.kind.Activation? then a.oldState == AuthorityToken(Source) && a.newState == AuthorityToken(Target)
    else if SubjectOf(a.kind).Reloads? then a.role.DefinitionRole? && a.oldState.ReloadAt? && a.newState.ReloadAt?
    else KeyOf(a) in pairs && Within(a.oldState, pairs[KeyOf(a)]) && Within(a.newState, pairs[KeyOf(a)])
  }

  ghost predicate PairedJournal(j: Journal, pairs: Pairs) {
    && ValidJournal(j)
    && forall i {:trigger Paired(j.actions[i], pairs)} :: 0 <= i < |j.actions| ==> Paired(j.actions[i], pairs)
  }

  ghost predicate PairedWorld(world: World, pairs: Pairs) {
    && RELOAD_KEY in world && world[RELOAD_KEY].ReloadAt?
    && forall key :: key in pairs ==> key in world && Within(world[key], pairs[key])
  }

  ghost predicate Sound(m: Machine, pairs: Pairs) {
    PairsFit(pairs) && PairedJournal(m.visible, pairs) && PairedJournal(m.durable, pairs) && PairedWorld(m.world, pairs)
  }

  /** A run that stays sound, and succeeds if nothing fails it. */
  ghost predicate Onward(m: Machine, r: Run, pairs: Pairs) {
    && Sound(r.m, pairs) && (r.ok ==> r.m.visible == r.j)
    && (m.fates == [] ==> r.ok && r.m.fates == [])
  }

  /** The same without the promise of success. */
  ghost predicate StaysSound(r: Run, pairs: Pairs) { Sound(r.m, pairs) && (r.ok ==> r.m.visible == r.j) }

  lemma SaveOnward(m: Machine, next: Journal, pairs: Pairs)
    requires Sound(m, pairs) && PairedJournal(next, pairs)
    ensures Onward(m, Save(m, next), pairs) && Save(m, next).m.world == m.world && Save(m, next).j == next
  {
    hide PairsFit, PairedWorld;
  }

  /** The key of a paired action holds its old or its new token. */
  lemma PairedIsReady(m: Machine, j: Journal, a: Action, pairs: Pairs)
    requires Sound(m, pairs) && Paired(a, pairs) && a.oldState != a.newState
    ensures Observe(m, j, a).Some? && Classify(a, Observe(m, j, a).value).Some?
    ensures !a.kind.Activation? ==> KeyOf(a) in m.world && Observe(m, j, a).value == m.world[KeyOf(a)]
    ensures !a.kind.Activation? && !SubjectOf(a.kind).Reloads? ==> m.world[KeyOf(a)] == a.oldState || m.world[KeyOf(a)] == a.newState
  {
    hide PairedJournal;
  }

  lemma ApplyOnward(m: Machine, a: Action, pairs: Pairs)
    requires Sound(m, pairs) && Paired(a, pairs)
    ensures var (m', ok) := Apply(m, a);
            && Sound(m', pairs) && m'.visible == m.visible
            && (m.fates == [] && (a.kind.Activation? || (KeyOf(a) in m.world && (m.world[KeyOf(a)] == a.oldState || m.world[KeyOf(a)] == a.newState)))
                ==> ok && m'.fates == [])
  {
    hide PairedJournal;
  }

  lemma DoneOnward(m: Machine, j: Journal, k: nat, pairs: Pairs)
    requires Sound(m, pairs) && m.visible == j && k < |j.actions| && j.actions[k].status.Intent?
    ensures Onward(m, RecordDone(m, j, j.actions[k].(status := Done)), pairs)
  {
    hide PairsFit, PairedWorld, Save, RecordDone;
    var next := j.(actions := j.actions[k := j.actions[k].(status := Done)]);
    RecordDoneIsSave(m, j, k);
    forall i | 0 <= i < |next.actions| ensures Paired(next.actions[i], pairs) {
      assert Paired(j.actions[i], pairs);
    }
    SaveOnward(m, next, pairs);
  }

  lemma IntentSound(m: Machine, j: Journal, a: Action, pairs: Pairs)
    requires Sound(m, pairs) && m.visible == j && Paired(a, pairs)
    ensures var r := RecordIntent(m, j, a);
            && StaysSound(r, pairs) && r.m.world == m.world
            && (r.ok ==> r.j == j.(actions := j.actions + [a.(seqNo := |j.actions| + 1, status := Intent)]))
            && (m.fates == [] && ValidAction(a.(seqNo := 1)) ==> r.ok && r.m.fates == [])
  {
    hide PairsFit, PairedWorld, Save;
    var a' := a.(seqNo := |j.actions| + 1, status := Intent);
    var next := j.(actions := j.actions + [a']);
    if ValidAction(a') {
      forall i | 0 <= i < |next.actions| ensures Paired(next.actions[i], pairs) {
        if i < |j.actions| { assert Paired(j.actions[i], pairs); }
      }
      SaveOnward(m, next, pairs);
    }
  }

  lemma StepSound(m: Machine, j: Journal, a: Action, pairs: Pairs)
    requires Sound(m, pairs) && m.visible == j && Paired(a, pairs) && !a.kind.Activation?
    ensures StaysSound(Step(m, j, a), pairs)
    ensures m.fates == [] && ValidAction(a.(seqNo := 1))
            && KeyOf(a) in m.world && (m.world[KeyOf(a)] == a.oldState || m.world[KeyOf(a)] == a.newState)
            ==> Onward(m, Step(m, j, a), pairs)
  {
    hide Sound, Apply, RecordDone, RecordIntent;
    IntentSound(m, j, a, pairs);
    var r := RecordIntent(m, j, a);
    if r.ok {
      var n := |j.actions|;
      ApplyOnward(r.m, r.j.actions[n], pairs);
      var (m', ok) := Apply(r.m, r.j.actions[n]);
      if ok { DoneOnward(m', r.j, n, pairs); }
    }
  }

  lemma ReloadOnward(m: Machine, j: Journal, kind: Kind, pairs: Pairs)
    requires Sound(m, pairs) && m.visible == j && SubjectOf(kind).Reloads?
    ensures Onward(m, Step(m, j, ReloadAction(m.world, kind)), pairs)
  {
    hide Step, PairedJournal, PairsFit;
    StepSound(m, j, ReloadAction(m.world, kind), pairs);
  }

  lemma PhaseOnward(m: Machine, j: Journal, phase: Phase, authority: Authority, pairs: Pairs)
    requires Sound(m, pairs) && m.visible == j
    ensures Onward(m, SetPhase(m, j.(authority := authority), phase), pairs)
  {
    hide Save;
    SaveOnward(m, j.(authority := authority).(phase := phase), pairs);
  }

  // ---- Recovery ----

  lemma FinishOnward(m: Machine, j: Journal, a: Action, pairs: Pairs)
    requires Sound(m, pairs) && m.visible == j
    ensures Onward(m, FinishAction(m, j, a), pairs)
  {
    hide Apply, RecordDone, Observe, Classify, Paired, PairsFit, PairedWorld;
    var i := FindSeq(j.actions, a.seqNo);
    if i < |j.actions| && j.actions[i].status.Intent? {
      var current := j.actions[i];
      assert Paired(current, pairs) && ValidAction(current);
      PairedIsReady(m, j, current, pairs);
      if !current.kind.Activation? { NotStartedIsReady(m, j, current); }
      ApplyOnward(m, current, pairs);
      DoneOnward(m, j, i, pairs);
      var (m', ok) := Apply(m, current);
      if ok { DoneOnward(m', j, i, pairs); }
    }
  }

  lemma NotStartedIsReady(m: Machine, j: Journal, a: Action)
    requires Observe(m, j, a).Some? && !a.kind.Activation?
    ensures KeyOf(a) in m.world && Observe(m, j, a).value == m.world[KeyOf(a)]
    ensures Classify(a, Observe(m, j, a).value) == Some(NotStarted) ==> m.world[KeyOf(a)] == a.oldState
  {
  }

  /** A reversal stays within the pair of its key. */
  lemma ReversePaired(f: Action, pairs: Pairs, oldState: Token, newState: Token)
    requires Paired(f, pairs) && ReverseKind(f.kind).Some? && !SubjectOf(f.kind).Reloads?
    ensures var r := ReverseAction(f, ReverseKind(f.kind).value, oldState, newState);
            && KeyOf(r) == KeyOf(f) && KeyOf(f) in pairs && !r.kind.Activation?
            && (Within(oldState, pairs[KeyOf(f)]) && Within(newState, pairs[KeyOf(f)]) ==> Paired(r, pairs))
  {
    hide ReverseKind;
    ReverseKindsPairUp(f.kind);
    assert SubjectOf(f.kind).Authorisation? <==> f.kind.Activation?;
    assert ReverseKind(f.kind).value.Activation? ==> SubjectOf(f.kind).Authorisation?;
    if f.kind.Activation? { ActivationHasNoReverse(); }
  }

  lemma ActivationHasNoReverse()
    ensures ReverseKind(Activation).None?
  {
  }

  lemma IsolateIsData(f: Action, pairs: Pairs)
    requires ReverseKind(f.kind) == Some(DataIsolate) && PairsFit(pairs) && KeyOf(f) in pairs
    ensures pairs[KeyOf(f)].0 == ABSENT
  {
  }

  lemma ReverseOnward(m: Machine, j: Journal, f: Action, pairs: Pairs)
    requires Sound(m, pairs) && m.visible == j && Paired(f, pairs) && ValidAction(f) && !SubjectOf(f.kind).Reloads?
    ensures Onward(m, Reverse(m, j, f), pairs)
  {
    hide Step, ReverseKind, SubjectOf, PairedJournal, PairsFit;
    match ReverseKind(f.kind) {
      case None =>
      case Some(kind) =>
        ReverseKindsPairUp(f.kind);
        ReverseNotReload(f.kind);
        PairedIsReady(m, j, f, pairs);
        ReversePaired(f, pairs, f.newState, f.oldState);
        if kind.DataIsolate? {
          var actual := Observe(m, j, f).value;
          IsolateIsData(f, pairs);
          ReversePaired(f, pairs, actual, ABSENT);
          if actual != ABSENT { StepSound(m, j, ReverseAction(f, kind, actual, ABSENT), pairs); }
        } else {
          StepSound(m, j, ReverseAction(f, kind, f.newState, f.oldState), pairs);
        }
    }
  }

  lemma ReverseNotReload(kind: Kind)
    requires !SubjectOf(kind).Reloads? && ReverseKind(kind).Some?
    ensures !ReverseKind(kind).value.RestoreReload? && !kind.Activation?
  {
  }

  lemma VisitOnward(m: Machine, j: Journal, a: Action, pairs: Pairs)
    requires Sound(m, pairs) && m.visible == j && Paired(a, pairs) && ValidAction(a)
    ensures Onward(m, Visit(m, j, a).run, pairs)
  {
    hide FinishAction, Reverse, AlreadyReversed, IsReverse, Observe, Classify, ReverseKind;
    if !SubjectOf(a.kind).Reloads? {
      FinishOnward(m, j, a, pairs);
      ReverseOnward(m, j, a, pairs);
      PairedIsReady(m, j, a, pairs);
    }
  }

  lemma {:induction false} SweepBackOnward(m: Machine, j: Journal, snapshot: seq<Action>, n: nat, pairs: Pairs)
    requires Sound(m, pairs) && m.visible == j && n <= |snapshot|
    requires forall i :: 0 <= i < n ==> Paired(snapshot[i], pairs) && ValidAction(snapshot[i])
    ensures Onward(m, SweepBack(m, j, snapshot, n).run, pairs)
    decreases n
  {
    hide Visit, Sound, Paired, ValidAction;
    if n > 0 {
      VisitOnward(m, j, snapshot[n - 1], pairs);
      var s := Visit(m, j, snapshot[n - 1]);
      if s.run.ok { SweepBackOnward(s.run.m, s.run.j, snapshot, n - 1, pairs); }
    }
  }

  lemma RollbackOnward(m: Machine, pairs: Pairs)
    requires Sound(m, pairs)
    ensures Onward(m, Rollback(m, m.visible), pairs)
  {
    hide SweepBack, Step, Save, PairsFit, PairedWorld, Paired;
    var j := m.visible;
    forall i | 0 <= i < |j.actions| ensures Paired(j.actions[i], pairs) && ValidAction(j.actions[i]) {}
    SweepBackOnward(m, j, j.actions, |j.actions|, pairs);
    var s := SweepBack(m, j, j.actions, |j.actions|);
    if s.run.ok {
      ReloadOnward(s.run.m, s.run.j, RestoreReload, pairs);
      var r := if s.reversed then Step(s.run.m, s.run.j, ReloadAction(s.run.m.world, RestoreReload)) else s.run;
      if r.ok { PhaseOnward(r.m, r.j, Complete, Source, pairs); }
    }
  }

  lemma {:induction false} SweepForwardOnward(m: Machine, j: Journal, snapshot: seq<Action>, from: nat, pairs: Pairs)
    requires Sound(m, pairs) && m.visible == j && from <= |snapshot|
    ensures Onward(m, SweepForward(m, j, snapshot, from), pairs)
    decreases |snapshot| - from
  {
    hide FinishAction, Sound;
    if from < |snapshot| {
      FinishOnward(m, j, snapshot[from], pairs);
      var r := FinishAction(m, j, snapshot[from]);
      if r.ok { SweepForwardOnward(r.m, r.j, snapshot, from + 1, pairs); }
    }
  }

  lemma EnsureOnward(m: Machine, j: Journal, a: Action, pairs: Pairs)
    requires Sound(m, pairs) && m.visible == j && Paired(a, pairs) && ValidAction(a.(seqNo := 1))
    requires !a.kind.Activation? && !SubjectOf(a.kind).Reloads?
    ensures Onward(m, EnsureAction(m, j, a), pairs)
  {
    hide Step, Sound, Paired;
    PairedIsReady(m, j, a, pairs);
    StepSound(m, j, a, pairs);
  }

  lemma EnsureReloadOnward(m: Machine, j: Journal, pairs: Pairs)
    requires Sound(m, pairs) && m.visible == j
    ensures Onward(m, EnsureReload(m, j), pairs)
  {
    hide Step, Sound, ReloadedAfterActivation;
    ReloadOnward(m, j, Reload, pairs);
  }

  lemma SwitchPaired(pairs: Pairs)
    requires PairsFit(pairs)
    ensures Paired(ServiceAction(Unmask, "masked", "unmasked"), pairs)
    ensures Paired(ServiceAction(Enable, "disabled", "enabled"), pairs)
    ensures Paired(ServiceAction(Start, "stopped", "running"), pairs)
  {
  }

  lemma EnsureTargetOnward(m: Machine, j: Journal, p: Policy, pairs: Pairs)
    requires Sound(m, pairs) && m.visible == j
    ensures Onward(m, EnsureTarget(m, j, p), pairs)
  {
    hide EnsureAction, EnsureReload, TargetPolicy, PairsFit, PairedJournal, PairedWorld, Paired;
    SwitchPaired(pairs);
    var (enabled, running) := TargetPolicy(p, j);
    EnsureOnward(m, j, ServiceAction(Unmask, "masked", "unmasked"), pairs);
    var r := EnsureAction(m, j, ServiceAction(Unmask, "masked", "unmasked"));
    if r.ok {
      EnsureOnward(r.m, r.j, ServiceAction(Enable, "disabled", "enabled"), pairs);
      var e := if enabled then EnsureAction(r.m, r.j, ServiceAction(Enable, "disabled", "enabled")) else r;
      if e.ok {
        EnsureReloadOnward(e.m, e.j, pairs);
        var l := EnsureReload(e.m, e.j);
        if l.ok { EnsureOnward(l.m, l.j, ServiceAction(Start, "stopped", "running"), pairs); }
      }
    }
  }

  lemma RollforwardOnward(m: Machine, p: Policy, pairs: Pairs)
    requires Sound(m, pairs)
    ensures Onward(m, Rollforward(m, m.visible, p), pairs)
  {
    hide SweepForward, EnsureTarget, Save, Sound;
    var j := m.visible;
    SweepForwardOnward(m, j, j.actions, 0, pairs);
    var r := SweepForward(m, j, j.actions, 0);
    if r.ok {
      EnsureTargetOnward(r.m, r.j, p, pairs);
      var e := EnsureTarget(r.m, r.j, p);
      if e.ok { PhaseOnward(e.m, e.j, Complete, Target, pairs); }
    }
  }

  lemma RecoverOnward(m: Machine, p: Policy, pairs: Pairs)
    requires Sound(m, pairs)
    ensures Onward(m, RecoverOnce(m, p), pairs)
  {
    hide Rollback, Rollforward, Sound;
    RollbackOnward(m, pairs);
    RollforwardOnward(m, p, pairs);
  }

  // ---- Whole histories ----

  ghost predicate PairedProgram(program: seq<Instr>, pairs: Pairs) {
    forall i :: 0 <= i < |program| ==>
      match program[i]
      case Do(a) => Paired(a, pairs) && !a.kind.Activation?
      case Change(a) => Paired(a, pairs) && !a.kind.Activation?
      case _ => true
  }

  lemma ActivateSound(m: Machine, j: Journal, pairs: Pairs)
    requires Sound(m, pairs) && m.visible == j
    ensures StaysSound(Activate(m, j), pairs)
  {
    hide PairsFit, PairedWorld, Apply, Save, RecordDone, RecordIntent;
    IntentSound(m, j, ActivationAction(), pairs);
    var r := RecordIntent(m, j, ActivationAction());
    if r.ok {
      var n := |j.actions|;
      var next := r.j.(authority := Target, phase := ActivationCommitted);
      SaveOnward(r.m, next, pairs);
      var s := Save(r.m, next);
      if s.ok {
        assert Paired(s.j.actions[n], pairs);
        ApplyOnward(s.m, s.j.actions[n], pairs);
        var (m', ok) := Apply(s.m, s.j.actions[n]);
        if ok { DoneOnward(m', s.j, n, pairs); }
      }
    }
  }

  lemma {:induction false} ProgramSound(m: Machine, j: Journal, program: seq<Instr>, pairs: Pairs)
    requires Sound(m, pairs) && m.visible == j && PairedProgram(program, pairs)
    ensures StaysSound(RunProgram(m, j, program), pairs)
    decreases |program|
  {
    hide Sound, Step, Activate, Save, Paired;
    if program != [] {
      match program[0] {
        case Enter(phase) => PhaseOnward(m, j, phase, j.authority, pairs);
        case Do(a) => StepSound(m, j, a, pairs);
        case Change(a) => StepSound(m, j, a, pairs);
        case DoReload => ReloadOnward(m, j, Reload, pairs);
        case DoActivate => ActivateSound(m, j, pairs);
      }
      var r := Execute(m, j, program[0]);
      if r.ok { ProgramSound(r.m, r.j, program[1..], pairs); }
    }
  }

  lemma {:induction false} AttemptsSound(m: Machine, p: Policy, attempts: seq<Attempt>, pairs: Pairs)
    requires Sound(m, pairs)
    ensures Sound(AfterAttempts(m, p, attempts), pairs)
    decreases |attempts|
  {
    hide RecoverOnce, PairsFit, PairedJournal, PairedWorld;
    if attempts != [] {
      var before := attempts[..|attempts| - 1];
      AttemptsSound(m, p, before, pairs);
      RecoverOnward(AfterAttempts(m, p, before).(fates := attempts[|attempts| - 1].fates), p, pairs);
    }
  }

  /** However often an install and its recoveries were cut, the next uncut recovery succeeds. */
  lemma RecoveryGetsThrough(world: World, j: Journal, program: seq<Instr>, fates: seq<Fate>, powerLoss: bool,
                            p: Policy, attempts: seq<Attempt>, pairs: Pairs)
    requires PairsFit(pairs) && PairedWorld(world, pairs) && PairedProgram(program, pairs)
    requires ValidJournal(j) && j.actions == []
    ensures RecoverOnce(AfterCrashes(world, j, program, fates, powerLoss, p, attempts).(fates := []), p).ok
  {
    hide RecoverOnce, PairsFit, PairedWorld, PairedProgram, RunProgram;
    var m0 := Begin(world, j, fates);
    assert Sound(m0, pairs);
    ProgramSound(m0, j, program, pairs);
    var m := RunProgram(m0, j, program).m;
    AttemptsSound(if powerLoss then PowerLoss(m) else m, p, attempts, pairs);
    RecoverOnward(AfterCrashes(world, j, program, fates, powerLoss, p, attempts).(fates := []), p, pairs);
  }

  /** What may be at the definition place; an install without a definition leaves it alone. */
  function DefinitionToken(world: World, art: Artifacts): Token
    requires DEFINITION_KEY in world
  {
    if art.definitionNew == ABSENT then world[DEFINITION_KEY] else art.definitionNew
  }

  /** No third token is at the definition place. */
  predicate DefinitionKnown(art: Artifacts, world: World)
    requires DEFINITION_KEY in world
  {
    Within(world[DEFINITION_KEY], (ABSENT, DefinitionToken(world, art)))
  }

  /** The pairs of an install: the old and the new file, and the service switches. */
  function InstallPairs(world: World, art: Artifacts): Pairs
    requires DATA_KEY in world && DEFINITION_KEY in world
  {
    map[Switch(Masking) := (Text("masked"), Text("unmasked")),
        Switch(Enablement) := (Text("disabled"), Text("enabled")),
        Switch(Running) := (Text("stopped"), Text("running")),
        DATA_KEY := (ABSENT, if world[DATA_KEY] == ABSENT then art.dataNew else world[DATA_KEY]),
        MANAGED_KEY := (art.managedOld, art.managedNew),
        PATH_KEY := (art.pathOld, art.pathNew),
        CHANNEL_KEY := (art.channelOld, art.channelNew),
        DEFINITION_KEY := (ABSENT, DefinitionToken(world, art)),
        VALIDATION_KEY := (Text("idle"), Text("running"))]
  }

  /** A machine with a service manager, whose file tokens are never empty. */
  ghost predicate Installable(world: World, art: Artifacts) {
    && RELOAD_KEY in world && world[RELOAD_KEY].ReloadAt?
    && Switch(Masking) in world && Within(world[Switch(Masking)], (Text("masked"), Text("unmasked")))
    && Switch(Enablement) in world && Within(world[Switch(Enablement)], (Text("disabled"), Text("enabled")))
    && Switch(Running) in world && Within(world[Switch(Running)], (Text("stopped"), Text("running")))
    && DATA_KEY in world && world[DATA_KEY] != Text("") && DEFINITION_KEY in world && world[DEFINITION_KEY] != Text("") && Writable(art)
  }

  lemma FilePairs(world: World, art: Artifacts)
    requires DATA_KEY in world && DEFINITION_KEY in world
    ensures var pairs := InstallPairs(world, art);
            && DATA_KEY in pairs && pairs[DATA_KEY] == (ABSENT, if world[DATA_KEY] == ABSENT then art.dataNew else world[DATA_KEY])
            && MANAGED_KEY in pairs && pairs[MANAGED_KEY] == (art.managedOld, art.managedNew)
            && PATH_KEY in pairs && pairs[PATH_KEY] == (art.pathOld, art.pathNew)
            && CHANNEL_KEY in pairs && pairs[CHANNEL_KEY] == (art.channelOld, art.channelNew)
            && DEFINITION_KEY in pairs && pairs[DEFINITION_KEY] == (ABSENT, DefinitionToken(world, art))
            && VALIDATION_KEY in pairs && pairs[VALIDATION_KEY] == (Text("idle"), Text("running"))
  {
  }

  lemma SwitchPairs(world: World, art: Artifacts)
    requires DATA_KEY in world && DEFINITION_KEY in world
    ensures var pairs := InstallPairs(world, art);
            && Switches(pairs, Masking, "masked", "unmasked")
            && Switches(pairs, Enablement, "disabled", "enabled")
            && Switches(pairs, Running, "stopped", "running")
            && pairs.Keys == {Switch(Masking), Switch(Enablement), Switch(Running), DATA_KEY, MANAGED_KEY, PATH_KEY,
                              CHANNEL_KEY, DEFINITION_KEY, VALIDATION_KEY}
  {
  }

  lemma InstallPairsFit(world: World, art: Artifacts)
    requires Installable(world, art)
    ensures PairsFit(InstallPairs(world, art))
  {
    hide InstallPairs;
    FilePairs(world, art);
    SwitchPairs(world, art);
  }

  lemma InstallWorldFits(world: World, art: Artifacts, d: DataAction)
    requires Accurate(art, world, d) && Installable(world, art) && DefinitionKnown(art, world)
    ensures PairedWorld(world, InstallPairs(world, art))
  {
    hide InstallPairs;
    FilePairs(world, art);
    SwitchPairs(world, art);
  }

  lemma PartsPaired(world: World, art: Artifacts, d: DataAction, hash: string)
    requires Accurate(art, world, d)
    ensures PairedProgram(DataPart(art, d), InstallPairs(world, art))
    ensures PairedProgram(BinaryPart(art), InstallPairs(world, art))
    ensures PairedProgram(DefinitionPart(art), InstallPairs(world, art))
    ensures PairedProgram(ValidationPart(hash), InstallPairs(world, art))
  {
    hide InstallPairs, Within;
    FilePairs(world, art);
    FileKeys(world, art);
  }

  lemma FileKeys(world: World, art: Artifacts)
    ensures forall pair: (Token, Token) :: Within(pair.0, pair) && Within(pair.1, pair)
    ensures KeyOf(FileAction(DataPublish, DataRole, ABSENT, art.dataNew)) == DATA_KEY
    ensures KeyOf(FileAction(ManagedBinary, ManagedBinaryRole, art.managedOld, art.managedNew)) == MANAGED_KEY
    ensures KeyOf(FileAction(PathBinary, PathBinaryRole, art.pathOld, art.pathNew)) == PATH_KEY
    ensures KeyOf(FileAction(Channel, ChannelRole, art.channelOld, art.channelNew)) == CHANNEL_KEY
    ensures KeyOf(FileAction(Definition, DefinitionRole, ABSENT, art.definitionNew)) == DEFINITION_KEY
  {
  }

  lemma InstallIsPaired(art: Artifacts, d: DataAction, hash: string, stop: seq<Instr>, publish: seq<Instr>, pairs: Pairs)
    requires PairedProgram(DataPart(art, d), pairs) && PairedProgram(BinaryPart(art), pairs)
    requires PairedProgram(DefinitionPart(art), pairs) && PairedProgram(ValidationPart(hash), pairs)
    requires PairedProgram(stop, pairs) && PairedProgram(publish, pairs)
    ensures PairedProgram(ApplyProgram(art, d, hash, stop, publish), pairs)
  {
    hide PairedProgram, DataPart, BinaryPart, DefinitionPart, ValidationPart;
    PairedAppend(stop, DataPart(art, d), pairs);
    PairedAppend(stop + DataPart(art, d), BinaryPart(art), pairs);
    PairedAppend(stop + DataPart(art, d) + BinaryPart(art), DefinitionPart(art), pairs);
    PairedAppend(stop + DataPart(art, d) + BinaryPart(art) + DefinitionPart(art), ValidationPart(hash), pairs);
    var before := BeforeCommit(art, d, hash, stop);
    PairedAppend(before, [DoActivate], pairs) by { NothingToPair(pairs); }
    PairedAppend(before + [DoActivate], publish, pairs);
    PairedAppend(before + [DoActivate] + publish, [Enter(Complete)], pairs) by { NothingToPair(pairs); }
  }

  lemma NothingToPair(pairs: Pairs)
    ensures PairedProgram([DoActivate], pairs) && PairedProgram([Enter(Complete)], pairs)
  {
  }

  lemma PairedAppend(p: seq<Instr>, q: seq<Instr>, pairs: Pairs)
    requires PairedProgram(p, pairs) && PairedProgram(q, pairs)
    ensures PairedProgram(p + q, pairs)
  {
  }

  /** What the theorem about convergence asks of an install. */
  lemma InstallConverges(world: World, j: Journal, art: Artifacts, hash: string, stop: seq<Instr>, publish: seq<Instr>,
                         fates: seq<Fate>, powerLoss: bool, p: Policy, attempts: seq<Attempt>)
    requires FreshJournal(j) && Accurate(art, world, j.dataAction) && Installable(world, art) && DefinitionKnown(art, world)
    requires PairedProgram(stop, InstallPairs(world, art)) && PairedProgram(publish, InstallPairs(world, art))
    ensures var m := AfterCrashes(world, j, ApplyProgram(art, j.dataAction, hash, stop, publish), fates, powerLoss, p, attempts);
            RecoverOnce(m.(fates := []), p).ok
  {
    hide RecoverOnce, AfterCrashes, PairsFit, PairedWorld, PairedProgram, ApplyProgram, InstallPairs;
    var d := j.dataAction;
    var pairs := InstallPairs(world, art);
    InstallPairsFit(world, art);
    InstallWorldFits(world, art, d);
    PartsPaired(world, art, d, hash);
    InstallIsPaired(art, d, hash, stop, publish, pairs);
    RecoveryGetsThrough(world, j, ApplyProgram(art, d, hash, stop, publish), fates, powerLoss, p, attempts, pairs);
  }

  /**
    No cut strands an install: whenever no third token is at the definition place, the next uncut
    recovery succeeds; where the install is all or nothing, with the whole old or new payload.
   */
  lemma InstallGetsThrough(world: World, j: Journal, art: Artifacts, hash: string, stop: seq<Instr>, publish: seq<Instr>,
                           fates: seq<Fate>, powerLoss: bool, p: Policy, attempts: seq<Attempt>)
    requires FreshJournal(j) && Accurate(art, world, j.dataAction) && Installable(world, art) && DefinitionKnown(art, world)
    requires ForwardHooks(publish) && StopsFit(stop, world, j.dataAction, false)
    requires PairedProgram(stop, InstallPairs(world, art)) && PairedProgram(publish, InstallPairs(world, art))
    ensures var m := AfterCrashes(world, j, ApplyProgram(art, j.dataAction, hash, stop, publish), fates, powerLoss, p, attempts);
            var r := RecoverOnce(m.(fates := []), p);
            && r.ok
            && (DefinitionHarmless(art, world) ==>
                  && r.m.visible.phase.Complete? && r.m.visible.authority == m.visible.authority
                  && if m.visible.authority.Source? then PayloadIs(r.m.world, world)
                     else InstalledAndPublished(r.m, SceneAfter(BeforeCommit(art, j.dataAction, hash, stop), world),
                                                Installed(world, art, j.dataAction), publish))
  {
    hide RecoverOnce, AfterCrashes, PairedProgram, ApplyProgram, PayloadIs, StopsFit, InstallPairs, ForwardHooks, InstalledAndPublished, AnswersForAll, AllBack,
         AllDone, ReloadedAfterActivation, Installable, FreshJournal, Installed, SceneAfter, BeforeCommit;
    InstallConverges(world, j, art, hash, stop, publish, fates, powerLoss, p, attempts);
    if DefinitionHarmless(art, world) {
      ApplyIsAtomic(world, j, art, hash, stop, publish, fates, powerLoss, p, attempts, []);
    }
  }

  // ---- A third token at the definition place ----

  /** Nothing of the run is unsynced, and neither it nor a recovery gets past the intent of `a`. */
  ghost predicate Stranded(m: Machine, s: Scene, a: Action, original: World) { Stuck(m, s, a, original) && m.durable == m.visible }

  lemma {:induction false} StrandedStays(m: Machine, s: Scene, a: Action, original: World, p: Policy, attempts: seq<Attempt>)
    requires Stranded(m, s, a, original) && Foreign(a, s)
    ensures Stranded(AfterAttempts(m, p, attempts), s, a, original)
    decreases |attempts|
  {
    hide RecoverOnce, SourceSafe, NoUndos, Snapshot, Foreign;
    if attempts != [] {
      var before := attempts[..|attempts| - 1];
      StrandedStays(m, s, a, original, p, before);
      StuckRecovery(AfterAttempts(m, p, before).(fates := attempts[|attempts| - 1].fates), s, a, original, p);
    }
  }

  lemma ForeignStops(m: Machine, j: Journal, s: Scene, a: Action, original: World, d: DataAction)
    requires Ready(m, j, s) && m.fates == [] && j.authority.Source? && Foreign(a, s) && ValidAction(a.(seqNo := 1)) && Traced(s, original, d)
    ensures !Step(m, j, a).ok && Stranded(Step(m, j, a).m, s, a, original)
  {
    hide Traced, SourceSafe, FinishLast, Apply, KeyOf, SubjectOf;
    var n := |s.actions|;
    var intent := a.(seqNo := n + 1, status := Intent);
    var next := j.(actions := j.actions + [intent]);
    assert next.actions[n] == intent;
    LuckySave(m, next);
    ForeignEffect(Save(m, next).m, a, intent);
    NothingUndone(s, intent, original, d);
  }

  lemma NothingUndone(s: Scene, intent: Action, original: World, d: DataAction)
    requires Traced(s, original, d) && IsForward(intent)
    ensures NoUndos(s.actions + [intent])
  {
    hide Trace;
    forall i | 0 <= i < |s.actions| ensures !IsUndo((s.actions + [intent])[i]) { TraceKind(s.actions, i, original, d); }
  }

  /** A third token at the definition place strands the install for good, even if nothing ever fails. */
  lemma ForeignDefinitionStrands(world: World, j: Journal, art: Artifacts, hash: string, stop: seq<Instr>, publish: seq<Instr>,
                                 powerLoss: bool, p: Policy, attempts: seq<Attempt>, last: seq<Fate>)
    requires FreshJournal(j) && Accurate(art, world, j.dataAction) && Writable(art) && CanReload(world) && !DefinitionKnown(art, world)
    requires StopsFit(stop, world, j.dataAction, true)
    ensures var m := AfterCrashes(world, j, ApplyProgram(art, j.dataAction, hash, stop, publish), [], powerLoss, p, attempts);
            !RecoverOnce(m.(fates := last), p).ok
  {
    hide ProgramFits, PlanFrom, FinalScene, RunProgram, RecoverOnce, BeforeDefinition, ApplyProgram, Intact, Step, Stuck, Traced, CanReload, AfterAttempts;
    var d := j.dataAction;
    var a := Defines(art);
    var s := BeforeDefinitionFits(world, art, d, stop, true);
    DefinitionUntouched(s, world, art);
    PlanTraced(BeforeDefinition(art, d, stop), world, d);
    var rest := ApplyAtDefinition(art, d, hash, stop, publish);
    PlanRuns(BeforeDefinition(art, d, stop), world, j, []);
    var r := RunProgram(Begin(world, j, []), j, BeforeDefinition(art, d, stop));
    ForeignStops(r.m, r.j, s, a, world, d);
    RunStopsThere(Begin(world, j, []), j, BeforeDefinition(art, d, stop), Change(a), a, rest);
    var m := Step(r.m, r.j, a).m;
    var m' := if powerLoss then PowerLoss(m) else m;
    StuckAnyhow(m, m', s, a, world);
    StrandedStays(m', s, a, world, p, attempts);
    StuckAnyhow(AfterAttempts(m', p, attempts), AfterAttempts(m', p, attempts).(fates := last), s, a, world);
    StuckRecovery(AfterAttempts(m', p, attempts).(fates := last), s, a, world, p);
  }

  lemma StuckAnyhow(m: Machine, m': Machine, s: Scene, a: Action, original: World)
    requires Stranded(m, s, a, original) && m' == m.(fates := m'.fates, log := m'.log)
    ensures Stranded(m', s, a, original)
  {
    hide SourceSafe, NoUndos;
  }
}
