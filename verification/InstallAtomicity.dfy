/**
  Crash atomicity of whole histories: any forward program, cut anywhere, followed
  by any number of recoveries, each cut anywhere, with unsynced writes lost or not.
 */
module InstallAtomicity {
  import opened Options
  import opened InstallJournal
  import opened InstallEngine
  import opened InstallRollback
  import opened InstallRollforward
  import opened InstallUndecided
  import opened InstallEndings

  /** How far an uncut forward run has come. */
  datatype Scene = Scene(actions: seq<Action>, world: World, activated: bool)

  function Performed(s: Scene, a: Action): Scene {
    s.(actions := s.actions + [a.(seqNo := |s.actions| + 1, status := Done)],
       world := s.world[KeyOf(a) := a.newState])
  }

  function Activated(s: Scene): Scene {
    s.(actions := s.actions + [ActivationAction().(seqNo := |s.actions| + 1, status := Done)], activated := true)
  }

  /**
    What a forward action must satisfy to be undone correctly. Its old token is the
    one in place, and no earlier action has its kind, role and references. The last
    two lines hold the condition that the engine itself does not check: the first
    action on a key can be undone, and no later one that can be undone leads the key
    back to its original token.
   */
  ghost predicate Undoable(a: Action, s: Scene, original: World, d: DataAction) {
    && IsForward(a)
    && KeyOf(a) in s.world && s.world[KeyOf(a)] == a.oldState && KeyOf(a) in original
    && (forall k :: 0 <= k < |s.actions| && IsForward(s.actions[k]) ==> !SameIdentity(s.actions[k], a))
    && (a.kind.DataPublish? ==> a.oldState == ABSENT && d.CreateData? && !Journaled(s.actions, KeyOf(a)))
    && (!Journaled(s.actions, KeyOf(a)) ==> ReverseKind(a.kind).Some?)
    && (Journaled(s.actions, KeyOf(a)) && ReverseKind(a.kind).Some? ==> a.newState != original[KeyOf(a)])
  }

  /** Before activation actions are undoable; afterwards anything but a reversal or an activation will do. */
  ghost predicate Fits(a: Action, s: Scene, original: World, d: DataAction) {
    if s.activated then !IsReverse(a.kind) && !a.kind.Activation? else Undoable(a, s, original, d)
  }

  /** The instruction performs `a`. */
  predicate Performs(i: Instr, a: Action) { i == Do(a) || (i == Change(a) && a.oldState != a.newState) }

  function After(i: Instr, s: Scene): Scene {
    match i
    case Enter(_) => s
    case Do(a) => Performed(s, a)
    case Change(a) => if a.oldState == a.newState then s else Performed(s, a)
    case DoReload => Performed(s, ReloadAction(s.world, Reload))
    case DoActivate => Activated(s)
  }

  ghost predicate InstrFits(i: Instr, s: Scene, original: World, d: DataAction) {
    match i
    case Enter(phase) => if s.activated then phase.Complete? else Pending(phase)
    case Do(a) => Fits(a, s, original, d)
    case Change(a) => a.oldState == a.newState || Fits(a, s, original, d)
    case DoReload => true
    case DoActivate => !s.activated
  }

  ghost predicate ProgramFits(program: seq<Instr>, s: Scene, original: World, d: DataAction)
    decreases |program|
  {
    program == [] ||
    (InstrFits(program[0], s, original, d) && ProgramFits(program[1..], After(program[0], s), original, d))
  }

  /** Where a program leads, if nothing cuts it. */
  function FinalScene(program: seq<Instr>, s: Scene): Scene
    decreases |program|
  {
    if program == [] then s else FinalScene(program[1..], After(program[0], s))
  }

  lemma {:induction false} FitsAppend(p: seq<Instr>, i: Instr, s: Scene, original: World, d: DataAction)
    requires ProgramFits(p, s, original, d) && InstrFits(i, FinalScene(p, s), original, d)
    ensures ProgramFits(p + [i], s, original, d) && FinalScene(p + [i], s) == After(i, FinalScene(p, s))
    decreases |p|
  {
    hide InstrFits, After;
    if p == [] {
      assert p + [i] == [i] && [i][1..] == [];
    } else {
      assert (p + [i])[0] == p[0] && (p + [i])[1..] == p[1..] + [i];
      FitsAppend(p[1..], i, After(p[0], s), original, d);
    }
  }

  lemma {:induction false} FinalAppend(p: seq<Instr>, q: seq<Instr>, s: Scene)
    ensures FinalScene(p + q, s) == FinalScene(q, FinalScene(p, s))
    decreases |p|
  {
    hide After;
    if p == [] {
      assert p + q == q;
    } else {
      assert (p + q)[0] == p[0] && (p + q)[1..] == p[1..] + q;
      FinalAppend(p[1..], q, After(p[0], s));
    }
  }

  lemma FinalGrows(program: seq<Instr>, s: Scene, k: nat)
    requires k < |program|
    ensures program[..k + 1] == program[..k] + [program[k]]
    ensures FinalScene(program[..k + 1], s) == After(program[k], FinalScene(program[..k], s))
  {
    hide After;
    var i := program[k];
    assert program[..k + 1] == program[..k] + [i];
    FinalAppend(program[..k], [i], s);
    var e := FinalScene(program[..k], s);
    assert [i][1..] == [] && FinalScene([], After(i, e)) == After(i, e);
  }

  /** The scene at the moment of activation. */
  function AtActivation(program: seq<Instr>, s: Scene): Scene
    decreases |program|
  {
    if program == [] || program[0].DoActivate? then s else AtActivation(program[1..], After(program[0], s))
  }

  function BehindActivation(program: seq<Instr>): seq<Instr>
    decreases |program|
  {
    if program == [] then [] else if program[0].DoActivate? then program[1..] else BehindActivation(program[1..])
  }

  /** The scene after the first `n` instructions behind the activation. */
  function Stage(program: seq<Instr>, s: Scene, n: nat): Scene
    requires n <= |BehindActivation(program)|
  {
    FinalScene(BehindActivation(program)[..n], Activated(AtActivation(program, s)))
  }

  /**
    The payload is that of the activation, or of some moment behind it, and every action that
    the journal records about the payload had happened by then.
   */
  ghost predicate Staged(world: World, actions: seq<Action>, program: seq<Instr>, s: Scene) {
    exists n :: 0 <= n <= |BehindActivation(program)| && AtStage(world, actions, Stage(program, s, n))
  }

  ghost predicate AtStage(world: World, actions: seq<Action>, stage: Scene) {
    Pristine(world, stage.world) && ServiceFrom(actions, |stage.actions|)
  }

  /** From that position on the journal is about the service. */
  predicate ServiceFrom(actions: seq<Action>, n: nat) { forall i :: n <= i < |actions| ==> IsService(SubjectOf(actions[i].kind)) }

  /** The goal is a moment behind the activation, and its cut hook the next thing to do. */
  ghost predicate GoalFrom(goal: Goal, q: seq<Instr>, s: Scene, n: nat) {
    && n <= |q| && goal.payload == FinalScene(q[..n], s).world && goal.count == |FinalScene(q[..n], s).actions|
    && (goal.pending.Some? ==> n < |q| && CutHook(q[n], goal))
  }

  predicate CutHook(i: Instr, goal: Goal) {
    && (i.Do? || i.Change?) && Performs(i, i.action)
    && goal.pending == Some(i.action.(seqNo := goal.count + 1, status := Intent))
  }

  ghost predicate GoalFits(goal: Goal, program: seq<Instr>, s: Scene) {
    exists n: nat :: GoalFrom(goal, BehindActivation(program), Activated(AtActivation(program, s)), n)
  }

  lemma CutStage(e: Scene, i: Instr, goal: Goal)
    requires CutHook(i, goal) && goal.payload == e.world && goal.count == |e.actions|
    ensures |After(i, e).actions| == goal.count + 1
    ensures After(i, e).world == goal.payload[KeyOf(goal.pending.value) := goal.pending.value.newState]
  {
  }

  /** The position of the cut hook tells how far the journal goes. */
  lemma GoalIsStage(world: World, j: Journal, goal: Goal, program: seq<Instr>, s: Scene)
    requires GoalFits(goal, program, s) && Reached(world, goal) && TargetInv(j, goal) && Honest(j, world, goal)
    requires AllDone(j.actions, |j.actions|)
    ensures Staged(world, j.actions, program, s)
  {
    hide Pristine, AtActivation, BehindActivation, FinalScene, SubjectOf, KeyOf, After;
    var q, e := BehindActivation(program), Activated(AtActivation(program, s));
    var n: nat :| GoalFrom(goal, q, e, n);
    var stage := Stage(program, s, n);
    if Happened(world, goal) {
      FinalGrows(q, e, n);
      CutStage(stage, q[n], goal);
      forall i | goal.count + 1 <= i < |j.actions| ensures IsService(SubjectOf(j.actions[i].kind)) {
        assert j.actions[i].seqNo == i + 1;
      }
      assert AtStage(world, j.actions, Stage(program, s, n + 1));
    } else {
      assert AtStage(world, j.actions, stage);
    }
  }

  // ---- The forward run ----

  /** A key that no forward action was about still holds its original token. */
  ghost predicate Untouched(s: Scene, original: World) {
    forall key :: key in original && !key.subject.Reloads? && !Journaled(s.actions, key)
      ==> key in s.world && s.world[key] == original[key]
  }

  /** The machine right after an uncut forward run, before activation. */
  ghost predicate Underway(m: Machine, j: Journal, s: Scene, original: World) {
    && !s.activated && m.visible == j && m.durable == j
    && j.actions == s.actions && m.world == s.world
    && SourceSafe(m, original, true) && Untouched(s, original)
    && NoUndos(j.actions) && AllDone(j.actions, |j.actions|)
  }

  /** At every moment the published document says which side the machine is safe on. */
  ghost predicate Safe(m: Machine, original: World, goal: Goal, all: bool) {
    if m.visible.authority.Source? then SourceSafe(m, original, all) else TargetSafe(m, original, goal)
  }

  lemma NothingRestored(actions: seq<Action>, world: World, original: World)
    requires NoUndos(actions)
    ensures Undos(actions, original) && Restored(actions, world, original)
  {
    forall i, t | 0 <= i < |actions| && 0 <= t < |actions| ensures !Undoes(actions, t, i, original) {
      if Undoes(actions, t, i, original) { ReverseKindsPairUp(actions[i].kind); }
    }
  }

  /** Without reversals neither the world nor a status matters to the source invariant. */
  lemma Restatus(j: Journal, j': Journal, world: World, world': World, original: World)
    requires SourceInv(j, world, original) && NoUndos(j.actions)
    requires ValidJournal(j') && j'.authority.Source? && PhaseMatchesAuthority(j') && j'.dataAction == j.dataAction
    requires Extends(j.actions, j'.actions) && |j'.actions| == |j.actions|
    ensures SourceInv(j', world', original) && NoUndos(j'.actions)
  {
    ShapeStable(j.actions, j'.actions, original);
    forall i, k | 0 <= i < k < |j.actions| && IsForward(j'.actions[i]) && IsForward(j'.actions[k])
      ensures !SameIdentity(j'.actions[i], j'.actions[k])
    {
      assert !SameIdentity(j.actions[i], j.actions[k]);
    }
    NothingRestored(j'.actions, world', original);
  }

  lemma JournaledIffNotFirst(actions: seq<Action>, a: Action)
    ensures FirstOnKey(actions + [a], |actions|) <==> !Journaled(actions, KeyOf(a))
  {
    var b := actions + [a];
    if Journaled(actions, KeyOf(a)) {
      var i :| 0 <= i < |actions| && IsForward(actions[i]) && KeyOf(actions[i]) == KeyOf(a);
      assert IsForward(b[i]) && KeyOf(b[i]) == KeyOf(a);
    }
    if !FirstOnKey(b, |actions|) {
      var i :| 0 <= i < |actions| && IsForward(b[i]) && KeyOf(b[i]) == KeyOf(a);
      assert IsForward(actions[i]);
    }
  }

  /** Recording the intent of an undoable action keeps the source invariant. */
  lemma AppendForward(j: Journal, a: Action, s: Scene, original: World)
    requires SourceInv(j, s.world, original) && NoUndos(j.actions) && j.actions == s.actions
    requires Undoable(a, s, original, j.dataAction) && Untouched(s, original)
    requires a.seqNo == |j.actions| + 1 && ValidAction(a)
    ensures SourceInv(j.(actions := j.actions + [a]), s.world, original) && NoUndos(j.actions + [a])
    ensures Extends(j.actions, j.actions + [a])
  {
    var b := j.actions + [a];
    var n := |j.actions|;
    ShapeStable(j.actions, b, original);
    JournaledIffNotFirst(j.actions, a);
    assert Recoverable(b, n, original);
    forall i, k | 0 <= i < k < |b| && IsForward(b[i]) && IsForward(b[k]) ensures !SameIdentity(b[i], b[k]) {
      if k < n { assert !SameIdentity(j.actions[i], j.actions[k]); }
      else { assert IsForward(s.actions[i]); }
    }
    NothingRestored(b, s.world, original);
  }

  lemma JournaledGrows(actions: seq<Action>, a: Action)
    requires IsForward(a)
    ensures forall key :: Journaled(actions + [a], key) <==> Journaled(actions, key) || key == KeyOf(a)
  {
    var b := actions + [a];
    assert b[|actions|] == a;
    forall key ensures Journaled(b, key) <==> Journaled(actions, key) || key == KeyOf(a) {
      if Journaled(actions, key) {
        var i :| 0 <= i < |actions| && IsForward(actions[i]) && KeyOf(actions[i]) == key;
        assert IsForward(b[i]) && KeyOf(b[i]) == key;
      }
      if Journaled(b, key) {
        var i :| 0 <= i < |b| && IsForward(b[i]) && KeyOf(b[i]) == key;
        if i < |actions| { assert IsForward(actions[i]); }
      }
    }
  }

  /** The effect of a recorded forward action keeps the machine safe. */
  lemma ForwardEffect(m: Machine, j: Journal, a: Action, original: World)
    requires SourceSafe(m, original, true) && m.visible == j == m.durable && NoUndos(j.actions)
    requires |j.actions| > 0 && j.actions[|j.actions| - 1] == a && IsForward(a)
    ensures var (m', ok) := Apply(m, a);
            && SourceSafe(m', original, true) && m'.visible == m'.durable == j
            && (ok ==> KeyOf(a) in m.world && m'.world == m.world[KeyOf(a) := a.newState])
  {
    if KeyOf(a) in m.world {
      var w := m.world[KeyOf(a) := a.newState];
      assert Extends(j.actions, j.actions);
      Restatus(j, j, m.world, w, original);
      forall key | key in original && key in w && Tracked(key, true) && w[key] != original[key]
        ensures exists i :: 0 <= i < |j.actions| && IsForward(j.actions[i]) && KeyOf(j.actions[i]) == key
      {
        if key == KeyOf(a) { assert IsForward(j.actions[|j.actions| - 1]); }
      }
    }
  }

  lemma ForwardDone(m: Machine, j: Journal, original: World)
    requires SourceSafe(m, original, true) && m.visible == j == m.durable && NoUndos(j.actions)
    requires |j.actions| > 0 && j.actions[|j.actions| - 1].status.Intent?
    ensures var n := |j.actions| - 1;
            var next := j.(actions := j.actions[n := j.actions[n].(status := Done)]);
            var r := FinishLast(m, j);
            && SourceSafe(r.m, original, true) && r.m.world == m.world
            && (r.ok ==> r.j == next && r.m.visible == next && r.m.durable == next && NoUndos(next.actions))
  {
    hide Save;
    var n := |j.actions| - 1;
    var next := j.(actions := j.actions[n := j.actions[n].(status := Done)]);
    DoneExtends(j.actions, n);
    RecordDoneIsSave(m, j, n);
    Restatus(j, next, m.world, m.world, original);
    SaveSafe(m, next, original, true);
    SaveOkIsDurable(m, next);
  }

  lemma SaveOkIsDurable(m: Machine, next: Journal)
    ensures Save(m, next).ok ==> Save(m, next).m.durable == next && Save(m, next).m.visible == next
  {
  }

  /** One undoable step of the forward run: safe at every cut, one action further if it succeeds. */
  lemma ForwardStep(m: Machine, j: Journal, s: Scene, a: Action, original: World)
    requires Underway(m, j, s, original) && Undoable(a, s, original, j.dataAction)
    ensures var r := Step(m, j, a);
            && SourceSafe(r.m, original, true)
            && (r.ok ==> Underway(r.m, r.j, Performed(s, a), original) && r.j.dataAction == j.dataAction)
  {
    hide SourceInv, Save, Apply, FinishLast, Undoable;
    var n := |j.actions|;
    var a' := a.(seqNo := n + 1, status := Intent);
    if ValidAction(a') {
      var j1 := j.(actions := j.actions + [a']);
      UndoableAs(a, a', s, original, j.dataAction);
      AppendForward(j, a', s, original);
      SaveSafe(m, j1, original, true);
      SaveOkIsDurable(m, j1);
      var r := Save(m, j1);
      if r.ok {
        assert j1.actions[n] == a';
        ForwardEffect(r.m, j1, a', original);
        var (m2, ok) := Apply(r.m, a');
        if ok {
          ForwardDone(m2, j1, original);
          PerformedKeeps(s, a, j1, original);
        }
      }
    }
  }

  lemma UndoableAs(a: Action, a': Action, s: Scene, original: World, d: DataAction)
    requires Undoable(a, s, original, d) && a' == a.(seqNo := a'.seqNo, status := a'.status)
    ensures Undoable(a', s, original, d) && IsForward(a) && KeyOf(a) == KeyOf(a')
  {
  }

  /** The scene after the step, as seen in the journal. */
  lemma PerformedKeeps(s: Scene, a: Action, j1: Journal, original: World)
    requires IsForward(a) && Untouched(s, original) && AllDone(s.actions, |s.actions|)
    requires j1.actions == s.actions + [a.(seqNo := |s.actions| + 1, status := Intent)]
    ensures var next := j1.actions[|s.actions| := j1.actions[|s.actions|].(status := Done)];
            next == Performed(s, a).actions && AllDone(next, |next|)
    ensures Untouched(Performed(s, a), original)
  {
    var a' := a.(seqNo := |s.actions| + 1, status := Done);
    JournaledGrows(s.actions, a');
  }

  lemma StepOkIsDurable(m: Machine, j: Journal, a: Action)
    ensures Step(m, j, a).ok ==> Step(m, j, a).m.durable == Step(m, j, a).m.visible
  {
    hide ValidAction, FindRecord, SubjectOf;
  }

  lemma JournaledStays(actions: seq<Action>, a: Action)
    ensures forall key :: Journaled(actions, key) ==> Journaled(actions + [a], key)
  {
    forall key | Journaled(actions, key) ensures Journaled(actions + [a], key) {
      var i :| 0 <= i < |actions| && IsForward(actions[i]) && KeyOf(actions[i]) == key;
      assert (actions + [a])[i] == actions[i];
    }
  }

  lemma ForwardReload(m: Machine, j: Journal, s: Scene, original: World)
    requires Underway(m, j, s, original)
    ensures var r := ReloadStep(m, j);
            && SourceSafe(r.m, original, true)
            && (r.ok ==> Underway(r.m, r.j, Performed(s, ReloadAction(s.world, Reload)), original)
                         && r.j.dataAction == j.dataAction)
  {
    hide SourceInv, Step;
    var a := ReloadAction(s.world, Reload);
    RecoveryStepSafe(m, j, a, original, true);
    StepOkIsDurable(m, j, a);
    var r := Step(m, j, a);
    if r.ok {
      var s' := Performed(s, a);
      JournaledStays(s.actions, a.(seqNo := |s.actions| + 1, status := Done));
      assert Untouched(s', original);
    }
  }

  lemma ForwardPhase(m: Machine, j: Journal, s: Scene, phase: Phase, original: World)
    requires Underway(m, j, s, original) && Pending(phase)
    ensures var r := SetPhase(m, j, phase);
            && SourceSafe(r.m, original, true)
            && (r.ok ==> Underway(r.m, r.j, s, original) && r.j.dataAction == j.dataAction)
  {
    hide Save;
    var next := j.(phase := phase);
    assert Extends(j.actions, next.actions);
    Restatus(j, next, m.world, m.world, original);
    SaveSafe(m, next, original, true);
    SaveOkIsDurable(m, next);
  }

  // ---- Activation ----

  /** The machine after an uncut activation and forward run behind it. */
  ghost predicate Switching(m: Machine, j: Journal, s: Scene, original: World) {
    && s.activated && m.visible == j && m.durable == j && |j.actions| == |s.actions|
    && TargetSafe(m, original, Goal(s.world, |s.actions|, None))
  }

  /** The journal that the activation write publishes satisfies the target invariant. */
  lemma ActivationJournal(j: Journal, a: Action, goal: Goal)
    requires ValidJournal(j) && AllDone(j.actions, |j.actions|)
    requires a == ActivationAction().(seqNo := |j.actions| + 1, status := Intent) && goal.count == |j.actions| + 1
    ensures TargetInv(j.(actions := j.actions + [a], authority := Target, phase := ActivationCommitted), goal)
  {
    assert (j.actions + [a])[|j.actions|] == a;
  }

  /** The activation intent is published under source authority. */
  lemma ActivationIntent(m: Machine, j: Journal, s: Scene, original: World)
    requires Underway(m, j, s, original)
    ensures var r := RecordIntent(m, j, ActivationAction());
            var a := ActivationAction().(seqNo := |j.actions| + 1, status := Intent);
            && SourceSafe(r.m, original, true) && r.m.world == m.world
            && (r.ok ==>
                  && r.j == j.(actions := j.actions + [a]) && r.m.visible == r.j && r.m.durable == r.j
                  && NoUndos(r.j.actions))
  {
    hide Save;
    var a := ActivationAction().(seqNo := |j.actions| + 1, status := Intent);
    var j1 := j.(actions := j.actions + [a]);
    AppendSound(j, a, m.world, original);
    SaveSafe(m, j1, original, true);
    SaveOkIsDurable(m, j1);
  }

  /** The one write after which the machine is safe on the target side. */
  lemma ActivationWrite(m: Machine, j: Journal, next: Journal, original: World)
    requires SourceSafe(m, original, true) && m.visible == j == m.durable && NoUndos(j.actions)
    requires next == j.(authority := Target, phase := ActivationCommitted) && TargetInv(next, Goal(m.world, |j.actions|, None))
    ensures var r := Save(m, next);
            && Safe(r.m, original, Goal(m.world, |j.actions|, None), true)
            && (r.ok ==> r.m.visible == next && r.j == next && TargetSafe(r.m, original, Goal(m.world, |j.actions|, None)))
  {
    hide SourceInv;
  }

  lemma ForwardActivate(m: Machine, j: Journal, s: Scene, original: World)
    requires Underway(m, j, s, original)
    ensures var r := Activate(m, j);
            && Safe(r.m, original, Goal(s.world, |s.actions| + 1, None), true)
            && (r.ok ==> Switching(r.m, r.j, Activated(s), original))
  {
    hide SourceSafeAt, TargetInv, Reached, Save, Apply, RecordIntent, RecordDone, NoUndos, Honest;
    var goal := Goal(s.world, |s.actions| + 1, None);
    ActivationIntent(m, j, s, original);
    var r := RecordIntent(m, j, ActivationAction());
    SourceSafeIsValid(m, original, true);
    SourceSafeIsValid(r.m, original, true);
    if r.ok {
      var n := |j.actions|;
      var a := ActivationAction().(seqNo := n + 1, status := Intent);
      var next := r.j.(authority := Target, phase := ActivationCommitted);
      ActivationJournal(j, a, goal);
      ActivationWrite(r.m, r.j, next, original);
      var w := Save(r.m, next);
      if w.ok {
        assert next.actions[n] == a;
        EffectTargetSafe(w.m, a, original, goal);
        var (m', ok) := Apply(w.m, a);
        TargetSafeIsSafe(m', original, goal, true);
        if ok {
          FinishLastTarget(m', next, original, goal);
          TargetSafeIsSafe(FinishLast(m', next).m, original, goal, true);
        }
      }
    }
  }

  lemma SourceSafeIsValid(m: Machine, original: World, all: bool)
    requires SourceSafe(m, original, all)
    ensures ValidJournal(m.visible) && m.visible.authority.Source?
  {
  }

  lemma FinishLastTarget(m: Machine, j: Journal, original: World, goal: Goal)
    requires TargetSafe(m, original, goal) && m.visible == j && goal.pending.None?
    requires |j.actions| > 0 && j.actions[|j.actions| - 1].status.Intent?
    ensures var r := FinishLast(m, j);
            TargetSafe(r.m, original, goal) && (r.ok ==> r.m.visible == r.j && r.m.durable == r.j && |r.j.actions| == |j.actions|)
  {
    hide SourceSafeAt, Reached, Save;
    var n := |j.actions| - 1;
    RecordDoneIsSave(m, j, n);
    DoneFinishing(j, n, goal);
    SaveTargetSafe(m, j.(actions := j.actions[n := j.actions[n].(status := Done)]), original, goal);
  }

  // ---- Whole programs ----

  lemma BeforeActivation(m: Machine, j: Journal, i: Instr, s: Scene, original: World, goal: Goal)
    requires Underway(m, j, s, original) && InstrFits(i, s, original, j.dataAction)
    requires i.DoActivate? ==> goal == Goal(s.world, |s.actions| + 1, None)
    ensures var r := Execute(m, j, i);
            && Safe(r.m, original, goal, true) && (!i.DoActivate? ==> SourceSafe(r.m, original, true))
            && (r.ok ==>
                  && r.j.dataAction == j.dataAction
                  && if i.DoActivate? then Switching(r.m, r.j, After(i, s), original)
                     else Underway(r.m, r.j, After(i, s), original))
  {
    hide Underway, SourceSafeAt, TargetSafe, Step, Activate, ReloadStep, SetPhase, Undoable;
    UnderwayIsSafe(m, j, s, original);
    match i
    case Enter(phase) => ForwardPhase(m, j, s, phase, original); SafeSource(SetPhase(m, j, phase).m, original, goal, true);
    case Do(a) => ForwardStep(m, j, s, a, original); SafeSource(Step(m, j, a).m, original, goal, true);
    case Change(a) =>
      if a.oldState != a.newState {
        ForwardStep(m, j, s, a, original);
        SafeSource(Step(m, j, a).m, original, goal, true);
      }
    case DoReload => ForwardReload(m, j, s, original); SafeSource(ReloadStep(m, j).m, original, goal, true);
    case DoActivate => ForwardActivate(m, j, s, original); ActivateCarries(m, j);
  }

  lemma UnderwayIsSafe(m: Machine, j: Journal, s: Scene, original: World)
    requires Underway(m, j, s, original)
    ensures SourceSafe(m, original, true) && m.visible == j && j.authority.Source? && !s.activated
  {
  }

  lemma SafeSource(m: Machine, original: World, goal: Goal, all: bool)
    requires SourceSafe(m, original, all)
    ensures Safe(m, original, goal, all)
  {
  }

  /** Once its hooks are recorded, a journal can be measured by what they lead to. */
  lemma Regoal(m: Machine, original: World, goal: Goal, w: World)
    requires TargetSafe(m, original, goal) && m.durable == m.visible && Pristine(m.world, w)
    requires forall i :: 0 <= i < |m.visible.actions| && m.visible.actions[i].status.Intent? ==> IsFinishing(m.visible.actions[i])
    ensures TargetSafe(m, original, Goal(w, |m.visible.actions|, None))
  {
  }

  /** A payload hook that is about to run. */
  lemma Expecting(m: Machine, original: World, w: World, a: Action)
    requires var n := |m.visible.actions|; TargetSafe(m, original, Goal(w, n, None)) && m.durable == m.visible && a.seqNo == n + 1
    ensures TargetSafe(m, original, Goal(w, |m.visible.actions|, Some(a)))
  {
  }

  lemma SwitchingIsReady(m: Machine, j: Journal, s: Scene, original: World)
    requires Switching(m, j, s, original)
    ensures j.authority.Target? && Pristine(m.world, s.world)
    ensures forall i :: 0 <= i < |j.actions| && j.actions[i].status.Intent? ==> IsFinishing(j.actions[i])
  {
  }

  lemma StepMoves(w: World, v: World, a: Action)
    requires Pristine(w, v) && KeyOf(a) in w
    ensures Pristine(w[KeyOf(a) := a.newState], v[KeyOf(a) := a.newState])
  {
  }

  /** A step behind the activation: if it is cut, its hook is pending. */
  lemma StepBehind(m: Machine, j: Journal, a: Action, s: Scene, original: World) returns (goal: Goal)
    requires Switching(m, j, s, original) && !IsReverse(a.kind) && !a.kind.Activation?
    ensures goal.payload == s.world && goal.count == |s.actions|
    ensures goal.pending.Some? ==> goal.pending.value == a.(seqNo := |s.actions| + 1, status := Intent) && !IsService(SubjectOf(a.kind))
    ensures var r := Step(m, j, a);
            && Safe(r.m, original, goal, true)
            && (r.ok ==> r.j.dataAction == j.dataAction && Switching(r.m, r.j, Performed(s, a), original))
  {
    hide SourceSafeAt, TargetInv, Pristine, Step, TargetSafe, IsFinishing;
    var n := |s.actions|;
    var a' := a.(seqNo := n + 1, status := Intent);
    goal := Goal(s.world, n, if IsService(SubjectOf(a.kind)) then None else Some(a'));
    SwitchingIsReady(m, j, s, original);
    if IsService(SubjectOf(a.kind)) { ServiceIsFinishing(a); } else { Expecting(m, original, s.world, a'); }
    StepTargetSafe(m, j, a, original, goal);
    StepOkIsDurable(m, j, a);
    var r := Step(m, j, a);
    TargetSafeIsSafe(r.m, original, goal, true);
    if r.ok {
      StepMoves(m.world, s.world, a);
      Regoal(r.m, original, goal, Performed(s, a).world);
    }
  }

  lemma ServiceIsFinishing(a: Action)
    requires !IsReverse(a.kind) && IsService(SubjectOf(a.kind))
    ensures IsFinishing(a)
  {
  }

  /** The scene may differ in what the service does. */
  lemma SwitchingAs(m: Machine, j: Journal, s: Scene, s': Scene, original: World)
    requires Switching(m, j, s, original) && s'.activated && Pristine(s.world, s'.world) && |s'.actions| == |s.actions|
    ensures Switching(m, j, s', original)
  {
    hide TargetSafe, Pristine;
    SwitchingIsReady(m, j, s, original);
    PristineOn(m.world, s.world, s'.world);
    Regoal(m, original, Goal(s.world, |s.actions|, None), s'.world);
  }

  lemma PristineOn(u: World, w: World, v: World)
    requires Pristine(u, w) && Pristine(w, v)
    ensures Pristine(u, v)
  {
  }

  lemma AfterActivation(m: Machine, j: Journal, i: Instr, s: Scene, original: World) returns (goal: Goal)
    requires Switching(m, j, s, original) && InstrFits(i, s, original, j.dataAction)
    ensures goal.payload == s.world && goal.count == |s.actions| && (goal.pending.Some? ==> CutHook(i, goal))
    ensures var r := Execute(m, j, i);
            && Safe(r.m, original, goal, true)
            && (r.ok ==> r.j.dataAction == j.dataAction && Switching(r.m, r.j, After(i, s), original))
  {
    hide SourceSafeAt, Reached, Step, Save;
    goal := Goal(s.world, |s.actions|, None);
    match i
    case Enter(phase) => SaveTargetSafe(m, j.(phase := phase), original, goal);
    case Do(a) => goal := StepBehind(m, j, a, s, original);
    case Change(a) =>
      if a.oldState != a.newState { goal := StepBehind(m, j, a, s, original); }
    case DoReload =>
      var a := ReloadAction(m.world, Reload);
      goal := StepBehind(m, j, a, s, original);
      var r := Step(m, j, a);
      if r.ok { SwitchingAs(r.m, r.j, Performed(s, a), After(i, s), original); }
  }

  lemma {:induction false} SwitchingRuns(m: Machine, j: Journal, q: seq<Instr>, s: Scene, original: World) returns (goal: Goal, n: nat)
    requires Switching(m, j, s, original) && ProgramFits(q, s, original, j.dataAction)
    ensures Safe(RunProgram(m, j, q).m, original, goal, true) && GoalFrom(goal, q, s, n)
    decreases |q|
  {
    hide TargetSafe, Execute, InstrFits, After, CutHook;
    n := 0;
    assert q[..0] == [];
    if q == [] {
      goal := Goal(s.world, |s.actions|, None);
      assert Safe(m, original, goal, true) by { TargetSafeIsSafe(m, original, goal, true); }
    } else {
      goal := AfterActivation(m, j, q[0], s, original);
      var r := Execute(m, j, q[0]);
      if r.ok {
        var k: nat;
        goal, k := SwitchingRuns(r.m, r.j, q[1..], After(q[0], s), original);
        n := k + 1;
        assert q[..n][0] == q[0] && q[..n][1..] == q[1..][..k];
      }
    }
  }

  lemma TargetSafeIsSafe(m: Machine, original: World, goal: Goal, all: bool)
    requires TargetSafe(m, original, goal)
    ensures Safe(m, original, goal, all)
  {
  }

  lemma GoalLater(goal: Goal, i: Instr, rest: seq<Instr>, s: Scene)
    requires GoalFits(goal, rest, After(i, s)) && !i.DoActivate?
    ensures GoalFits(goal, [i] + rest, s)
  {
    hide After, FinalScene, GoalFrom;
    var program := [i] + rest;
    assert program[0] == i && program[1..] == rest;
    assert BehindActivation(program) == BehindActivation(rest) && AtActivation(program, s) == AtActivation(rest, After(i, s));
    var n: nat :| GoalFrom(goal, BehindActivation(rest), Activated(AtActivation(rest, After(i, s))), n);
    assert GoalFrom(goal, BehindActivation(program), Activated(AtActivation(program, s)), n);
  }

  lemma GoalNow(goal: Goal, rest: seq<Instr>, s: Scene, n: nat)
    requires GoalFrom(goal, rest, Activated(s), n)
    ensures GoalFits(goal, [DoActivate] + rest, s)
  {
    hide GoalFrom;
    var program := [DoActivate] + rest;
    assert program[0] == DoActivate && program[1..] == rest;
    assert BehindActivation(program) == rest && AtActivation(program, s) == s;
    assert GoalFrom(goal, BehindActivation(program), Activated(AtActivation(program, s)), n);
  }

  /** The goal of a run that did not come as far as its activation, or not further. */
  lemma EarlyGoal(program: seq<Instr>, s: Scene) returns (goal: Goal)
    ensures GoalFits(goal, program, s) && goal == Goal(AtActivation(program, s).world, |AtActivation(program, s).actions| + 1, None)
  {
    hide AtActivation, BehindActivation;
    goal := Goal(AtActivation(program, s).world, |AtActivation(program, s).actions| + 1, None);
    assert BehindActivation(program)[..0] == [];
    assert GoalFrom(goal, BehindActivation(program), Activated(AtActivation(program, s)), 0);
  }

  /** A forward program leaves the machine safe wherever it is cut. */
  lemma {:induction false} ForwardRuns(m: Machine, j: Journal, program: seq<Instr>, s: Scene, original: World) returns (goal: Goal)
    requires Underway(m, j, s, original) && ProgramFits(program, s, original, j.dataAction)
    ensures Safe(RunProgram(m, j, program).m, original, goal, true) && GoalFits(goal, program, s)
    decreases |program|
  {
    hide Underway, SourceSafeAt, TargetSafe, Execute, InstrFits, GoalFits;
    goal := EarlyGoal(program, s);
    if program == [] {
      UnderwayIsSafe(m, j, s, original);
    } else {
      BeforeActivation(m, j, program[0], s, original, goal);
      var r := Execute(m, j, program[0]);
      if r.ok {
        var s' := After(program[0], s);
        if program[0].DoActivate? {
          var n: nat;
          goal, n := SwitchingRuns(r.m, r.j, program[1..], s', original);
          GoalNow(goal, program[1..], s, n);
        } else {
          goal := ForwardRuns(r.m, r.j, program[1..], s', original);
          GoalLater(goal, program[0], program[1..], s);
        }
        assert [program[0]] + program[1..] == program;
      }
    }
  }

  // ---- Until the activation is synced ----

  /** The activation is synced. */
  predicate Decided(m: Machine, j: Journal) {
    m.visible.authority.Target? && m.durable.authority.Target? && j.authority.Target?
  }

  /** A run writes actions, phase and authority only, and does not go back behind a synced activation. */
  ghost predicate Carried(r: Run, m: Machine, j: Journal) {
    && r.j == j.(actions := r.j.actions, phase := r.j.phase, authority := r.j.authority)
    && (Decided(m, j) ==> Decided(r.m, r.j))
  }

  lemma SaveCarries(m: Machine, j: Journal, next: Journal)
    requires next == j.(actions := next.actions, phase := next.phase, authority := next.authority)
    requires j.authority.Target? ==> next.authority.Target?
    ensures Carried(Save(m, next), m, j) && Save(m, next).j == next
    ensures Save(m, next).ok ==> Save(m, next).m.visible == next && Save(m, next).m.durable == next
  {
    hide ValidJournal;
  }

  lemma RecordCarries(m: Machine, j: Journal, a: Action)
    ensures Carried(RecordIntent(m, j, a), m, j) && RecordIntent(m, j, a).j.authority == j.authority
    ensures RecordIntent(m, j, a).ok ==> RecordIntent(m, j, a).j.actions != []
    ensures Carried(RecordDone(m, j, a), m, j) && RecordDone(m, j, a).j.authority == j.authority
  {
    hide Save, ValidAction, FindRecord, FillFrom;
    SaveCarries(m, j, j.(actions := j.actions + [a.(seqNo := |j.actions| + 1, status := Intent)]));
    var i := FindRecord(j.actions, a);
    if i < |j.actions| { SaveCarries(m, j, j.(actions := j.actions[i := FillFrom(a, j.actions[i])])); }
  }

  lemma EffectCarries(m: Machine, a: Action)
    ensures Apply(m, a).0.visible == m.visible && Apply(m, a).0.durable == m.durable
  {
    hide KeyOf;
  }

  lemma FinishLastCarries(m: Machine, j: Journal)
    ensures Carried(FinishLast(m, j), m, j)
  {
    hide RecordDone;
    if j.actions != [] { RecordCarries(m, j, j.actions[|j.actions| - 1].(status := Done)); }
  }

  lemma StepCarries(m: Machine, j: Journal, a: Action)
    ensures Carried(Step(m, j, a), m, j)
  {
    hide RecordIntent, FinishLast, Apply;
    RecordCarries(m, j, a);
    var r := RecordIntent(m, j, a);
    if r.ok {
      var last := r.j.actions[|r.j.actions| - 1];
      EffectCarries(r.m, last);
      FinishLastCarries(Apply(r.m, last).0, r.j);
    }
  }

  lemma ActivateCarries(m: Machine, j: Journal)
    ensures Carried(Activate(m, j), m, j) && (Activate(m, j).ok ==> Decided(Activate(m, j).m, Activate(m, j).j))
  {
    hide RecordIntent, FinishLast, Apply, Save;
    RecordCarries(m, j, ActivationAction());
    var r := RecordIntent(m, j, ActivationAction());
    if r.ok {
      var next := r.j.(authority := Target, phase := ActivationCommitted);
      SaveCarries(r.m, r.j, next);
      var s := Save(r.m, next);
      if s.ok {
        var last := s.j.actions[|s.j.actions| - 1];
        EffectCarries(s.m, last);
        FinishLastCarries(Apply(s.m, last).0, s.j);
      }
    }
  }

  lemma ExecuteCarries(m: Machine, j: Journal, i: Instr)
    ensures Carried(Execute(m, j, i), m, j)
  {
    hide Step, Activate, Save;
    match i
    case Enter(phase) => SaveCarries(m, j, j.(phase := phase));
    case Do(a) => StepCarries(m, j, a);
    case Change(a) => StepCarries(m, j, a);
    case DoReload => StepCarries(m, j, ReloadAction(m.world, Reload));
    case DoActivate => ActivateCarries(m, j);
  }

  lemma NotJournaledByActivation(actions: seq<Action>, a: Action, original: World, asked: (bool, bool))
    requires Covered(actions, original, asked) && a.kind.Activation?
    ensures Covered(actions + [a], original, asked)
  {
    forall subject ensures !Exposed(actions + [a], original, asked, subject) {
      assert !Exposed(actions, original, asked, subject);
      JournaledStays(actions, a);
    }
  }

  /** The activation write that is published and not synced. */
  lemma HalfActivated(m: Machine, j: Journal, actions: seq<Action>, original: World, p: Policy)
    requires SourceSafe(m, original, true) && m.visible == j == m.durable && AllDone(actions, |actions|)
    requires j.actions == actions + [ActivationAction().(seqNo := |actions| + 1, status := Intent)]
    requires Covered(actions, original, TargetPolicy(p, j))
    ensures Steady(Save(m, j.(authority := Target, phase := ActivationCommitted)).m, original, p)
  {
    hide SourceInv, OnlyRecordedMoved, Covered, ValidJournal;
    NotJournaledByActivation(actions, j.actions[|actions|], original, TargetPolicy(p, j));
  }

  /** A cut activation leaves every switch covered. */
  lemma ActivateSteady(m: Machine, j: Journal, s: Scene, original: World, p: Policy)
    requires Underway(m, j, s, original) && Covered(s.actions, original, TargetPolicy(p, j))
    ensures Steady(Activate(m, j).m, original, p)
  {
    hide SourceSafeAt, RecordIntent, FinishLast, Apply, Save, Covered, Untouched, TargetPolicy;
    ActivationIntent(m, j, s, original);
    var r := RecordIntent(m, j, ActivationAction());
    SourceIsSteady(r.m, original, p);
    if r.ok {
      PolicyKept(p, j, r.j);
      HalfActivated(r.m, r.j, j.actions, original, p);
      var next := r.j.(authority := Target, phase := ActivationCommitted);
      SaveCarries(r.m, r.j, next);
      var w := Save(r.m, next);
      if w.ok {
        var last := w.j.actions[|w.j.actions| - 1];
        EffectCarries(w.m, last);
        FinishLastCarries(Apply(w.m, last).0, w.j);
      }
    }
  }

  lemma {:induction false} DecidedStays(m: Machine, j: Journal, program: seq<Instr>)
    requires Decided(m, j)
    ensures !Undecided(RunProgram(m, j, program).m)
    decreases |program|
  {
    hide Execute;
    if program != [] {
      ExecuteCarries(m, j, program[0]);
      var r := Execute(m, j, program[0]);
      if r.ok { DecidedStays(r.m, r.j, program[1..]); }
    }
  }

  lemma SourceIsSteady(m: Machine, original: World, p: Policy)
    requires SourceSafe(m, original, true)
    ensures Steady(m, original, p)
  {
    SourceSafeIsValid(m, original, true);
  }

  lemma {:induction false} ForwardSteady(m: Machine, j: Journal, program: seq<Instr>, s: Scene, original: World, p: Policy)
    requires Underway(m, j, s, original) && ProgramFits(program, s, original, j.dataAction)
    requires Covered(AtActivation(program, s).actions, original, TargetPolicy(p, j))
    ensures Steady(RunProgram(m, j, program).m, original, p)
    decreases |program|
  {
    hide Underway, SourceSafe, Steady, Safe, Execute, InstrFits, TargetPolicy, Covered, Undecided;
    if program == [] {
      UnderwayIsSafe(m, j, s, original);
      SourceIsSteady(m, original, p);
    } else {
      BeforeActivation(m, j, program[0], s, original, Goal(s.world, |s.actions| + 1, None));
      ExecuteCarries(m, j, program[0]);
      var r := Execute(m, j, program[0]);
      if program[0].DoActivate? {
        ExecuteActivates(m, j);
        ActivateCarries(m, j);
        ActivateSteady(m, j, s, original, p);
        if r.ok {
          DecidedStays(r.m, r.j, program[1..]);
          DecidedIsSteady(RunProgram(r.m, r.j, program[1..]).m, original, p);
        }
      } else {
        SourceIsSteady(r.m, original, p);
        if r.ok {
          PolicyKept(p, j, r.j);
          ForwardSteady(r.m, r.j, program[1..], After(program[0], s), original, p);
        }
      }
    }
  }

  lemma ExecuteActivates(m: Machine, j: Journal)
    ensures Execute(m, j, DoActivate) == Activate(m, j)
  {
    hide Activate;
  }

  lemma PolicyKept(p: Policy, j: Journal, j': Journal)
    requires j' == j.(actions := j'.actions, phase := j'.phase, authority := j'.authority)
    ensures TargetPolicy(p, j') == TargetPolicy(p, j)
  {
  }

  lemma DecidedIsSteady(m: Machine, original: World, p: Policy)
    requires !Undecided(m)
    ensures Steady(m, original, p)
  {
  }

  // ---- Whole histories ----

  predicate FreshJournal(j: Journal) {
    ValidJournal(j) && j.authority.Source? && Pending(j.phase) && j.actions == []
  }

  lemma BeginRuns(world: World, j: Journal, fates: seq<Fate>)
    requires FreshJournal(j)
    ensures Underway(Begin(world, j, fates), j, Scene([], world, false), world)
  {
  }

  lemma RecoverySafe(m: Machine, p: Policy, fates: seq<Fate>, original: World, goal: Goal, all: bool)
    requires Safe(m, original, goal, all)
    ensures Safe(RecoverOnce(m.(fates := fates), p).m, original, goal, all)
  {
    hide SourceSafeAt, TargetSafe, Rollback, Rollforward;
    var m' := m.(fates := fates);
    if m.visible.authority.Source? {
      assert SourceSafe(m', original, all);
      RollbackRestores(m', original, all);
      SafeSource(Rollback(m', m.visible).m, original, goal, all);
    } else {
      FatesDoNotMatter(m, fates, original, goal);
      RollforwardFinishes(m', p, original, goal);
      TargetSafeIsSafe(Rollforward(m', m.visible, p).m, original, goal, all);
    }
  }

  lemma FatesDoNotMatter(m: Machine, fates: seq<Fate>, original: World, goal: Goal)
    requires TargetSafe(m, original, goal)
    ensures TargetSafe(m.(fates := fates), original, goal)
  {
    hide SourceSafeAt, TargetInv, Reached;
  }

  lemma LossSafe(m: Machine, original: World, goal: Goal, all: bool)
    requires Safe(m, original, goal, all) && (all ==> !Undecided(m))
    ensures Safe(PowerLoss(m), original, goal, all)
  {
    hide Reached, SourceInv;
    if m.visible.authority.Source? { PowerLossSafe(m, original, all); }
  }

  /** Answering for fewer keys is easier. */
  lemma SafeWeakens(m: Machine, original: World, goal: Goal)
    requires Safe(m, original, goal, true)
    ensures Safe(m, original, goal, false)
  {
    hide SourceInv, TargetInv, Reached;
    if m.visible.authority.Source? { TrackedWeakens(m.durable.actions, m.world, original); }
  }

  lemma TrackedWeakens(actions: seq<Action>, world: World, original: World)
    requires OnlyRecordedMoved(actions, world, original, true)
    ensures OnlyRecordedMoved(actions, world, original, false)
  {
    forall key | key in original && key in world && Tracked(key, false) && world[key] != original[key]
      ensures exists i :: 0 <= i < |actions| && IsForward(actions[i]) && KeyOf(actions[i]) == key
    {
      assert Tracked(key, true);
    }
  }

  /** A steady machine may lose power: what the activation led to is recorded without it. */
  lemma SteadyLoss(m: Machine, original: World, goal: Goal, p: Policy)
    requires Safe(m, original, goal, true) && Steady(m, original, p)
    ensures Safe(PowerLoss(m), original, goal, true) && Steady(PowerLoss(m), original, p)
  {
    hide SourceInv, OnlyRecordedMoved, Covered;
    if !Undecided(m) { LossSafe(m, original, goal, true); }
  }

  lemma SteadyRecovery(m: Machine, p: Policy, fates: seq<Fate>, original: World, goal: Goal)
    requires Safe(m, original, goal, true) && Steady(m, original, p)
    ensures Steady(RecoverOnce(m.(fates := fates), p).m, original, p)
  {
    hide SourceSafeAt, TargetSafe, Rollback, Rollforward, Covered, OnlyRecordedMoved, OpenSettled;
    var m' := m.(fates := fates);
    if m.visible.authority.Source? {
      assert SourceSafe(m', original, true);
      RollbackRestores(m', original, true);
      SourceIsSteady(Rollback(m', m.visible).m, original, p);
    } else {
      assert Steady(m', original, p);
      RollforwardSteady(m', original, p);
    }
  }

  lemma {:induction false} SteadyAttempts(m: Machine, p: Policy, attempts: seq<Attempt>, original: World, goal: Goal)
    requires Safe(m, original, goal, true) && Steady(m, original, p)
    ensures var m' := AfterAttempts(m, p, attempts); Safe(m', original, goal, true) && Steady(m', original, p)
    decreases |attempts|
  {
    hide Safe, Steady, RecoverOnce, PowerLoss;
    if attempts != [] {
      var before := attempts[..|attempts| - 1];
      var last := attempts[|attempts| - 1];
      SteadyAttempts(m, p, before, original, goal);
      var m1 := AfterAttempts(m, p, before);
      RecoverySafe(m1, p, last.fates, original, goal, true);
      SteadyRecovery(m1, p, last.fates, original, goal);
      if last.powerLoss { SteadyLoss(RecoverOnce(m1.(fates := last.fates), p).m, original, goal, p); }
    }
  }

  /** Every switch that recovery would move forwards is journaled before the activation, or not off in the first place. */
  ghost predicate SwitchesCovered(world: World, j: Journal, program: seq<Instr>, p: Policy) {
    Covered(AtActivation(program, Scene([], world, false)).actions, world, TargetPolicy(p, j))
  }

  /** No power loss of these recoveries takes an activation back. */
  ghost predicate LosesNoActivation(m: Machine, p: Policy, attempts: seq<Attempt>)
    decreases |attempts|
  {
    attempts == [] ||
    (var before := attempts[..|attempts| - 1];
     var last := attempts[|attempts| - 1];
     && LosesNoActivation(m, p, before)
     && (last.powerLoss ==> !Undecided(RecoverOnce(AfterAttempts(m, p, before).(fates := last.fates), p).m)))
  }

  lemma {:induction false} AttemptsSafe(m: Machine, p: Policy, attempts: seq<Attempt>, original: World, goal: Goal, all: bool)
    requires Safe(m, original, goal, all) && (all ==> LosesNoActivation(m, p, attempts))
    ensures Safe(AfterAttempts(m, p, attempts), original, goal, all)
    decreases |attempts|
  {
    hide Safe, RecoverOnce, PowerLoss;
    if attempts != [] {
      var before := attempts[..|attempts| - 1];
      var last := attempts[|attempts| - 1];
      AttemptsSafe(m, p, before, original, goal, all);
      var m1 := AfterAttempts(m, p, before);
      RecoverySafe(m1, p, last.fates, original, goal, all);
      if last.powerLoss { LossSafe(RecoverOnce(m1.(fates := last.fates), p).m, original, goal, all); }
    }
  }

  /** A forward program that satisfies the hypotheses, started from a fresh journal. */
  ghost predicate WellPlanned(world: World, j: Journal, program: seq<Instr>) {
    FreshJournal(j) && ProgramFits(program, Scene([], world, false), world, j.dataAction)
  }

  /** No power loss of the history takes an activation back; in particular, none happens at all. */
  ghost predicate KeepsActivation(world: World, j: Journal, program: seq<Instr>, fates: seq<Fate>, powerLoss: bool,
                                  p: Policy, attempts: seq<Attempt>) {
    var m := RunProgram(Begin(world, j, fates), j, program).m;
    && (powerLoss ==> !Undecided(m))
    && LosesNoActivation(if powerLoss then PowerLoss(m) else m, p, attempts)
  }

  lemma {:induction false} WithoutPowerLoss(m: Machine, p: Policy, attempts: seq<Attempt>)
    requires forall i :: 0 <= i < |attempts| ==> !attempts[i].powerLoss
    ensures LosesNoActivation(m, p, attempts)
    decreases |attempts|
  {
    hide RecoverOnce;
    if attempts != [] { WithoutPowerLoss(m, p, attempts[..|attempts| - 1]); }
  }

  /** The history answers for every key: its switches are covered, or no power loss takes an activation back. */
  ghost predicate AnswersForAll(world: World, j: Journal, program: seq<Instr>, fates: seq<Fate>, powerLoss: bool,
                                p: Policy, attempts: seq<Attempt>) {
    SwitchesCovered(world, j, program, p) || KeepsActivation(world, j, program, fates, powerLoss, p, attempts)
  }

  lemma CoveredHistory(world: World, j: Journal, program: seq<Instr>, fates: seq<Fate>, powerLoss: bool,
                       p: Policy, attempts: seq<Attempt>) returns (goal: Goal)
    requires WellPlanned(world, j, program) && SwitchesCovered(world, j, program, p)
    ensures Safe(AfterCrashes(world, j, program, fates, powerLoss, p, attempts), world, goal, true)
    ensures GoalFits(goal, program, Scene([], world, false))
  {
    hide Safe, Steady, Underway, RunProgram, PowerLoss, Covered, AtActivation, GoalFits;
    var s := Scene([], world, false);
    var m0 := Begin(world, j, fates);
    BeginRuns(world, j, fates);
    goal := ForwardRuns(m0, j, program, s, world);
    ForwardSteady(m0, j, program, s, world, p);
    var m := RunProgram(m0, j, program).m;
    if powerLoss { SteadyLoss(m, world, goal, p); }
    SteadyAttempts(if powerLoss then PowerLoss(m) else m, p, attempts, world, goal);
  }

  /** Wherever a history is cut, the published authority names the side on which the machine is safe. */
  lemma HistorySafe(world: World, j: Journal, program: seq<Instr>, fates: seq<Fate>, powerLoss: bool,
                    p: Policy, attempts: seq<Attempt>, all: bool) returns (goal: Goal)
    requires WellPlanned(world, j, program)
    requires all ==> AnswersForAll(world, j, program, fates, powerLoss, p, attempts)
    ensures Safe(AfterCrashes(world, j, program, fates, powerLoss, p, attempts), world, goal, all)
    ensures GoalFits(goal, program, Scene([], world, false))
  {
    hide Safe, Underway, RunProgram, PowerLoss, LosesNoActivation, SwitchesCovered, GoalFits;
    if all && SwitchesCovered(world, j, program, p) {
      goal := CoveredHistory(world, j, program, fates, powerLoss, p, attempts);
    } else {
      var m0 := Begin(world, j, fates);
      BeginRuns(world, j, fates);
      goal := ForwardRuns(m0, j, program, Scene([], world, false), world);
      var m := RunProgram(m0, j, program).m;
      if !all { SafeWeakens(m, world, goal); }
      if powerLoss { LossSafe(m, world, goal, all); }
      AttemptsSafe(if powerLoss then PowerLoss(m) else m, p, attempts, world, goal, all);
    }
  }

  /** Every key but the reload counter holds the token it had. */
  ghost predicate AllBack(world: World, original: World) {
    && world.Keys == original.Keys
    && forall key :: key in original && !key.subject.Reloads? ==> world[key] == original[key]
  }

  /** A successful recovery under source authority restores what the history answers for. */
  lemma SourceRestores(world: World, j: Journal, program: seq<Instr>, fates: seq<Fate>, powerLoss: bool,
                       p: Policy, attempts: seq<Attempt>, last: seq<Fate>, all: bool)
    requires WellPlanned(world, j, program)
    requires all ==> AnswersForAll(world, j, program, fates, powerLoss, p, attempts)
    ensures var m := AfterCrashes(world, j, program, fates, powerLoss, p, attempts);
            var r := RecoverOnce(m.(fates := last), p);
            r.ok && m.visible.authority.Source? ==>
              && r.m.visible.authority.Source? && r.m.visible.phase.Complete?
              && BackAtOriginal(r.m.visible.actions, r.m.world, world, all)
  {
    hide SourceSafeAt, TargetSafe, Rollback, Rollforward, BackAtOriginal, WellPlanned, AfterCrashes, AnswersForAll, GoalFits;
    var goal := HistorySafe(world, j, program, fates, powerLoss, p, attempts, all);
    var m := AfterCrashes(world, j, program, fates, powerLoss, p, attempts).(fates := last);
    if m.visible.authority.Source? {
      assert SourceSafe(m, world, all);
      RollbackRestores(m, world, all);
      SourceSafeIsValid(Rollback(m, m.visible).m, world, all);
    }
  }

  /**
    Source side: after any cut forward run and any cut recoveries, a recovery that
    succeeds under source authority restores every payload key and every journaled key,
    and every key there is if the switches are covered or no power loss took an activation back.
   */
  lemma SourceAtomicity(world: World, j: Journal, program: seq<Instr>, fates: seq<Fate>, powerLoss: bool,
                        p: Policy, attempts: seq<Attempt>, last: seq<Fate>)
    requires WellPlanned(world, j, program)
    ensures var m := AfterCrashes(world, j, program, fates, powerLoss, p, attempts);
            var r := RecoverOnce(m.(fates := last), p);
            r.ok && m.visible.authority.Source? ==>
              && r.m.visible.authority.Source? && r.m.visible.phase.Complete?
              && BackAtOriginal(r.m.visible.actions, r.m.world, world, false)
              && (AnswersForAll(world, j, program, fates, powerLoss, p, attempts) ==> AllBack(r.m.world, world))
  {
    hide WellPlanned, AfterCrashes, AnswersForAll, RecoverOnce, Journaled;
    SourceRestores(world, j, program, fates, powerLoss, p, attempts, last, false);
    if AnswersForAll(world, j, program, fates, powerLoss, p, attempts) {
      SourceRestores(world, j, program, fates, powerLoss, p, attempts, last, true);
    }
  }

  /**
    Target side: once the activation is published, a recovery that succeeds leaves the
    payload of the activation or of some moment of the run behind it, together with every
    payload hook that the journal records, no unfinished action, and a reload finished after the activation, with the service switched as the operation asks.
   */
  lemma TargetAtomicity(world: World, j: Journal, program: seq<Instr>, fates: seq<Fate>, powerLoss: bool,
                        p: Policy, attempts: seq<Attempt>, last: seq<Fate>)
    requires WellPlanned(world, j, program)
    ensures var m := AfterCrashes(world, j, program, fates, powerLoss, p, attempts);
            var r := RecoverOnce(m.(fates := last), p);
            r.ok && m.visible.authority.Target? ==>
              && r.m.visible.authority.Target? && r.m.visible.phase.Complete? && r.m.durable == r.m.visible
              && Staged(r.m.world, r.m.visible.actions, program, Scene([], world, false))
              && AllDone(r.m.visible.actions, |r.m.visible.actions|)
              && ReloadedAfterActivation(r.m.visible.actions)
              && var swept := SweepForward(m.(fates := last), m.visible, m.visible.actions, 0);
                 EndsAsAsked(m.visible, p, swept.m.world, r.m.world) && Adds(swept.j.actions, r.m.visible.actions, swept.m.world, r.m.world)
  {
    hide SourceSafeAt, Rollback, Rollforward, WellPlanned, AfterCrashes, Reached, SwitchedOn, TargetPolicy, GoalFits, Staged, SweepForward, EndsAsAsked, Adds;
    var goal := HistorySafe(world, j, program, fates, powerLoss, p, attempts, false);
    var m := AfterCrashes(world, j, program, fates, powerLoss, p, attempts);
    if m.visible.authority.Target? {
      FatesDoNotMatter(m, last, world, goal);
      RollforwardFinishes(m.(fates := last), p, world, goal);
      RollforwardEnds(m.(fates := last), p);
      var r := RecoverOnce(m.(fates := last), p);
      if r.ok { GoalIsStage(r.m.world, r.m.visible, goal, program, Scene([], world, false)); }
    }
  }
}
