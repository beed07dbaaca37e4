/**
  Forward programs that the engine can undo, what their actions say about the world, and
  the runs over them that meet no failure or exactly one.
 */
module InstallPlans {
  import opened Options
  import opened InstallJournal
  import opened InstallEngine
  import opened InstallRollback
  import opened InstallRollforward
  import opened InstallAtomicity

  // ---- Runs that meet no failure ----

  /** The next `n` writes and effects all succeed. */
  predicate Lucky(fates: seq<Fate>, n: nat) {
    forall i :: 0 <= i < n && i < |fates| ==> fates[i].Proceed?
  }

  function Later(fates: seq<Fate>, n: nat): seq<Fate> { if n <= |fates| then fates[n..] else [] }

  lemma LuckySave(m: Machine, next: Journal)
    requires Lucky(m.fates, 1) && ValidJournal(next)
    ensures var r := Save(m, next);
            && r.ok && r.j == next && r.m.visible == next && r.m.durable == next && r.m.world == m.world
            && r.m.fates == Later(m.fates, 1)
  {
  }

  lemma LuckyApply(m: Machine, a: Action)
    requires Lucky(m.fates, 1) && !a.kind.Activation? && KeyOf(a) in m.world
    requires m.world[KeyOf(a)] == a.oldState || m.world[KeyOf(a)] == a.newState
    ensures var (m', ok) := Apply(m, a);
            && ok && m'.world == m.world[KeyOf(a) := a.newState] && m'.fates == Later(m.fates, 1)
            && m'.visible == m.visible && m'.durable == m.durable
  {
  }

  lemma LaterLucky(fates: seq<Fate>, k: nat, n: nat)
    requires Lucky(fates, k + n)
    ensures Lucky(fates, k) && Lucky(Later(fates, k), n) && Later(Later(fates, k), n) == Later(fates, k + n)
  {
  }

  lemma LuckyStep(m: Machine, j: Journal, a: Action)
    requires Lucky(m.fates, 3) && ValidJournal(j) && ValidAction(a.(seqNo := |j.actions| + 1))
    requires !a.kind.Activation? && KeyOf(a) in m.world && m.world[KeyOf(a)] == a.oldState
    ensures var r := Step(m, j, a);
            && r.ok && r.j == j.(actions := j.actions + [a.(seqNo := |j.actions| + 1, status := Done)])
            && r.m.visible == r.j && r.m.durable == r.j && ValidJournal(r.j)
            && r.m.world == m.world[KeyOf(a) := a.newState] && r.m.fates == Later(m.fates, 3)
  {
    hide Save, Apply, SubjectOf, RecordDone, Lucky;
    var n := |j.actions|;
    var a' := a.(seqNo := n + 1, status := Intent);
    var j1 := j.(actions := j.actions + [a']);
    LaterLucky(m.fates, 1, 2);
    LaterLucky(Later(m.fates, 1), 1, 1);
    LaterLucky(m.fates, 2, 1);
    LuckySave(m, j1);
    var r := Save(m, j1);
    assert j1.actions[n] == a';
    LuckyApply(r.m, a');
    var (m2, _) := Apply(r.m, a');
    RecordDoneIsSave(m2, j1, n);
    var next := j1.(actions := j1.actions[n := a'.(status := Done)]);
    assert next.actions == j.actions + [a'.(status := Done)];
    LuckySave(m2, next);
  }

  // ---- Plans that can be undone ----

  /** The scene after a program, as its actions claim it. */
  function SceneAfter(plan: seq<Instr>, original: World): Scene { FinalScene(plan, Scene([], original, false)) }

  ghost predicate CanReload(world: World) { RELOAD_KEY in world && world[RELOAD_KEY].ReloadAt? }

  /** The last action on the key has no reversal: stopping the validation is the only kind. */
  ghost predicate Ended(actions: seq<Action>, key: Key) {
    exists i :: 0 <= i < |actions| && IsForward(actions[i]) && ReverseKind(actions[i].kind).None? && KeyOf(actions[i]) == key
  }

  /** The action leads its key back to where every action on it started from. */
  ghost predicate TakesBack(a: Action, actions: seq<Action>) {
    forall k :: 0 <= k < |actions| && IsForward(actions[k]) && KeyOf(actions[k]) == KeyOf(a) ==> actions[k].oldState == a.newState
  }

  /** An action that the store accepts; one without a reversal takes its key back, and is the last on it. */
  ghost predicate Sturdy(a: Action, actions: seq<Action>) {
    && ValidAction(a.(seqNo := 1)) && !Ended(actions, KeyOf(a))
    && (ReverseKind(a.kind).None? ==> TakesBack(a, actions))
  }

  ghost predicate PlanStep(i: Instr, s: Scene, original: World, d: DataAction) {
    && !s.activated && !i.DoActivate? && InstrFits(i, s, original, d)
    && (i.DoReload? ==> CanReload(s.world))
    && ((i.Do? || i.Change?) && Performs(i, i.action) ==> Sturdy(i.action, s.actions))
  }

  ghost predicate PlanFrom(plan: seq<Instr>, s: Scene, original: World, d: DataAction)
    decreases |plan|
  {
    plan == [] || (PlanStep(plan[0], s, original, d) && PlanFrom(plan[1..], After(plan[0], s), original, d))
  }

  /** A program that fits and that nothing but a failure stops. */
  ghost predicate Plan(plan: seq<Instr>, original: World, d: DataAction) { PlanFrom(plan, Scene([], original, false), original, d) }

  lemma {:induction false} PlanFits(plan: seq<Instr>, s: Scene, original: World, d: DataAction)
    requires PlanFrom(plan, s, original, d)
    ensures ProgramFits(plan, s, original, d) && forall i :: 0 <= i < |plan| ==> !plan[i].DoActivate?
    decreases |plan|
  {
    hide InstrFits, After, Sturdy;
    if plan != [] { PlanFits(plan[1..], After(plan[0], s), original, d); }
  }

  lemma {:induction false} PlanAppend(p: seq<Instr>, i: Instr, s: Scene, original: World, d: DataAction)
    requires PlanFrom(p, s, original, d) && PlanStep(i, FinalScene(p, s), original, d)
    ensures PlanFrom(p + [i], s, original, d) && FinalScene(p + [i], s) == After(i, FinalScene(p, s))
    decreases |p|
  {
    hide PlanStep, After;
    if p == [] {
      assert p + [i] == [i] && [i][1..] == [];
    } else {
      assert (p + [i])[0] == p[0] && (p + [i])[1..] == p[1..] + [i];
      PlanAppend(p[1..], i, After(p[0], s), original, d);
    }
  }

  lemma SceneGrows(program: seq<Instr>, original: World, k: nat)
    requires k < |program|
    ensures program[..k + 1] == program[..k] + [program[k]]
    ensures SceneAfter(program[..k + 1], original) == After(program[k], SceneAfter(program[..k], original))
  {
    hide After, FinalScene;
    FinalGrows(program, Scene([], original, false), k);
  }

  // ---- What the actions of a plan say about the world ----

  /** The world as the first `n` actions leave it. */
  function WorldAt(actions: seq<Action>, n: nat, original: World): (w: World)
    requires n <= |actions|
    ensures original.Keys <= w.Keys
  {
    if n == 0 then original else WorldAt(actions, n - 1, original)[KeyOf(actions[n - 1]) := actions[n - 1].newState]
  }

  /**
    The `i`th action finds its old token and has an identity of its own. If it can be
    reversed it leads away from the original token; if not it leads back to it, as the last
    action on its key, from actions that started there.
   */
  ghost predicate TraceStep(actions: seq<Action>, i: nat, original: World, d: DataAction)
    requires i < |actions|
  {
    var a := actions[i];
    && a.seqNo == i + 1 && a.status.Done?
    && (IsForward(a) || (a.kind.Reload? && KeyOf(a) == RELOAD_KEY && a.newState.ReloadAt?))
    && (IsForward(a) ==>
          && ValidAction(a) && KeyOf(a) in original && WorldAt(actions, i, original)[KeyOf(a)] == a.oldState
          && (a.kind.DataPublish? ==> a.oldState == ABSENT && d.CreateData?)
          && (a.newState == original[KeyOf(a)] <==> ReverseKind(a.kind).None?)
          && forall h :: 0 <= h < i && IsForward(actions[h]) ==>
               && !SameIdentity(actions[h], a)
               && (KeyOf(actions[h]) == KeyOf(a) ==>
                     ReverseKind(actions[h].kind).Some? && (ReverseKind(a.kind).None? ==> actions[h].oldState == original[KeyOf(a)])))
  }

  ghost predicate Trace(actions: seq<Action>, original: World, d: DataAction) {
    forall i {:trigger TraceStep(actions, i, original, d)} :: 0 <= i < |actions| ==> TraceStep(actions, i, original, d)
  }

  ghost predicate Traced(s: Scene, original: World, d: DataAction) {
    && !s.activated && s.world.Keys == original.Keys && Trace(s.actions, original, d)
    && s.world == WorldAt(s.actions, |s.actions|, original)
  }

  lemma {:induction false} WorldGrows(actions: seq<Action>, a: Action, n: nat, original: World)
    requires n <= |actions|
    ensures WorldAt(actions + [a], n, original) == WorldAt(actions, n, original)
    decreases n
  {
    if n > 0 {
      WorldGrows(actions, a, n - 1, original);
      assert (actions + [a])[n - 1] == actions[n - 1];
    }
  }

  /** A key that none of the first `n` actions is about holds its original token. */
  lemma {:induction false} WorldUntouched(actions: seq<Action>, n: nat, original: World, d: DataAction, key: Key)
    requires n <= |actions| && Trace(actions, original, d) && key in original && !key.subject.Reloads?
    requires forall h :: 0 <= h < n && IsForward(actions[h]) ==> KeyOf(actions[h]) != key
    ensures WorldAt(actions, n, original)[key] == original[key]
    decreases n
  {
    hide IsForward;
    if n > 0 {
      WorldUntouched(actions, n - 1, original, d, key);
      assert TraceStep(actions, n - 1, original, d);
    }
  }

  lemma {:induction false} WorldCanReload(actions: seq<Action>, n: nat, original: World, d: DataAction)
    requires n <= |actions| && Trace(actions, original, d) && CanReload(original)
    ensures CanReload(WorldAt(actions, n, original))
    decreases n
  {
    if n > 0 {
      WorldCanReload(actions, n - 1, original, d);
      assert TraceStep(actions, n - 1, original, d);
    }
  }

  lemma TraceGrows(actions: seq<Action>, a: Action, original: World, d: DataAction)
    requires Trace(actions, original, d) && TraceStep(actions + [a], |actions|, original, d)
    ensures Trace(actions + [a], original, d)
  {
    hide IsForward, KeyOf, ReverseKind;
    var b := actions + [a];
    forall i | 0 <= i < |b| ensures TraceStep(b, i, original, d) {
      if i < |actions| {
        assert TraceStep(actions, i, original, d);
        WorldGrows(actions, a, i, original);
        assert forall h :: 0 <= h <= i ==> b[h] == actions[h];
      }
    }
  }

  /** A key that no forward action was about. */
  lemma TraceUntouched(s: Scene, original: World, d: DataAction)
    requires Traced(s, original, d)
    ensures Untouched(s, original)
  {
    hide IsForward, KeyOf, Trace;
    forall key | key in original && !key.subject.Reloads? && !Journaled(s.actions, key)
      ensures key in s.world && s.world[key] == original[key]
    {
      WorldUntouched(s.actions, |s.actions|, original, d, key);
    }
  }

  /** The token from which the actions on a key started is the original one. */
  lemma StartIsOriginal(a: Action, s: Scene, original: World, d: DataAction)
    requires Traced(s, original, d) && IsForward(a) && Journaled(s.actions, KeyOf(a)) && TakesBack(a, s.actions) && KeyOf(a) in original
    ensures a.newState == original[KeyOf(a)]
  {
    hide KeyOf, ReverseKind;
    var i :| 0 <= i < |s.actions| && IsForward(s.actions[i]) && KeyOf(s.actions[i]) == KeyOf(a);
    var k := FirstAction(s.actions, i);
    assert TraceStep(s.actions, k, original, d);
    ForwardKey(a);
    WorldUntouched(s.actions, k, original, d, KeyOf(a));
  }

  lemma ForwardKey(a: Action)
    requires IsForward(a)
    ensures !KeyOf(a).subject.Reloads?
  {
  }

  /** An undoable, sturdy action continues the trace. */
  lemma ActionTraces(a: Action, s: Scene, original: World, d: DataAction)
    requires Traced(s, original, d) && Undoable(a, s, original, d) && Sturdy(a, s.actions)
    ensures Traced(Performed(s, a), original, d)
  {
    hide Trace, ReverseKind, SubjectOf;
    var done := a.(seqNo := |s.actions| + 1, status := Done);
    var b := s.actions + [done];
    var n := |s.actions|;
    assert b[n] == done && KeyOf(done) == KeyOf(a);
    WorldGrows(s.actions, done, n, original);
    TraceUntouched(s, original, d);
    ForwardKey(a);
    if ReverseKind(a.kind).None? { StartIsOriginal(a, s, original, d); }
    forall h | 0 <= h < n && IsForward(b[h]) && KeyOf(b[h]) == KeyOf(a) ensures ReverseKind(b[h].kind).Some? {
      assert b[h] == s.actions[h];
      assert !Ended(s.actions, KeyOf(a));
    }
    forall h | 0 <= h < n && IsForward(b[h]) ensures !SameIdentity(b[h], done) {
      assert b[h] == s.actions[h];
    }
    assert TraceStep(b, n, original, d);
    TraceGrows(s.actions, done, original, d);
  }

  lemma ReloadTraces(s: Scene, original: World, d: DataAction)
    requires Traced(s, original, d) && CanReload(s.world)
    ensures Traced(Performed(s, ReloadAction(s.world, Reload)), original, d)
  {
    hide Trace, ReverseKind;
    var a := ReloadAction(s.world, Reload);
    var done := a.(seqNo := |s.actions| + 1, status := Done);
    assert (s.actions + [done])[|s.actions|] == done;
    WorldGrows(s.actions, done, |s.actions|, original);
    TraceGrows(s.actions, done, original, d);
  }

  lemma StepTraces(i: Instr, s: Scene, original: World, d: DataAction)
    requires Traced(s, original, d) && PlanStep(i, s, original, d)
    ensures Traced(After(i, s), original, d)
  {
    hide Traced, Undoable, Performed, Sturdy;
    match i
    case Enter(_) =>
    case Do(a) => ActionTraces(a, s, original, d);
    case Change(a) => if a.oldState != a.newState { ActionTraces(a, s, original, d); }
    case DoReload => ReloadTraces(s, original, d);
  }

  lemma {:induction false} PlanTraces(plan: seq<Instr>, s: Scene, original: World, d: DataAction)
    requires Traced(s, original, d) && PlanFrom(plan, s, original, d)
    ensures Traced(FinalScene(plan, s), original, d)
    decreases |plan|
  {
    hide Traced, PlanStep, After;
    if plan != [] {
      StepTraces(plan[0], s, original, d);
      PlanTraces(plan[1..], After(plan[0], s), original, d);
    }
  }

  lemma PlanTraced(plan: seq<Instr>, original: World, d: DataAction)
    requires Plan(plan, original, d)
    ensures Traced(SceneAfter(plan, original), original, d)
  {
    hide PlanFrom, FinalScene;
    PlanTraces(plan, Scene([], original, false), original, d);
  }

  lemma TraceDistinct(actions: seq<Action>, original: World, d: DataAction, i: nat, k: nat)
    requires Trace(actions, original, d) && i < k < |actions| && IsForward(actions[i]) && IsForward(actions[k])
    ensures !SameIdentity(actions[i], actions[k])
  {
    hide IsForward, KeyOf, ReverseKind;
    assert TraceStep(actions, k, original, d);
  }

  // ---- Runs over a plan ----

  /** The writes and effects of an instruction that succeeds. */
  function Cost(i: Instr): nat {
    match i
    case Enter(_) => 1
    case Change(a) => if a.oldState == a.newState then 0 else 3
    case DoActivate => 4
    case _ => 3
  }

  function Costs(plan: seq<Instr>): nat
    decreases |plan|
  {
    if plan == [] then 0 else Cost(plan[0]) + Costs(plan[1..])
  }

  /** The machine and its journal are where the scene says. */
  ghost predicate Ready(m: Machine, j: Journal, s: Scene) {
    m.visible == j && m.durable == j && ValidJournal(j) && j.actions == s.actions && m.world == s.world
  }

  /** The run performed its program, and used up that many fates. */
  ghost predicate Arrives(r: Run, j: Journal, s: Scene, fates: seq<Fate>, n: nat) {
    r.ok && r.j == j.(actions := r.j.actions, phase := r.j.phase) && Ready(r.m, r.j, s) && r.m.fates == Later(fates, n)
  }

  lemma ActionArrives(m: Machine, j: Journal, a: Action, s: Scene)
    requires Ready(m, j, s) && Lucky(m.fates, 3) && ValidAction(a.(seqNo := 1)) && !a.kind.Activation?
    requires KeyOf(a) in s.world && s.world[KeyOf(a)] == a.oldState
    ensures Arrives(Step(m, j, a), j, Performed(s, a), m.fates, 3)
  {
    hide Step, Lucky, Later, KeyOf;
    LuckyStep(m, j, a);
  }

  lemma StepArrives(m: Machine, j: Journal, i: Instr, s: Scene, original: World, d: DataAction)
    requires Ready(m, j, s) && PlanStep(i, s, original, d) && Lucky(m.fates, Cost(i))
    ensures Arrives(Execute(m, j, i), j, After(i, s), m.fates, Cost(i))
  {
    hide Step, Lucky, Ended, TakesBack, Performed;
    match i
    case Enter(phase) => LuckySave(m, j.(phase := phase));
    case Do(a) => ActionArrives(m, j, a, s);
    case Change(a) => if a.oldState != a.newState { ActionArrives(m, j, a, s); }
    case DoReload => ActionArrives(m, j, ReloadAction(s.world, Reload), s);
  }

  /** An undisturbed forward run performs the whole plan. */
  lemma {:induction false} PlanArrives(m: Machine, j: Journal, plan: seq<Instr>, s: Scene, original: World, d: DataAction)
    requires Ready(m, j, s) && PlanFrom(plan, s, original, d) && Lucky(m.fates, Costs(plan))
    ensures Arrives(RunProgram(m, j, plan), j, FinalScene(plan, s), m.fates, Costs(plan))
    decreases |plan|
  {
    hide Execute, PlanStep, Lucky, Ready, After, Cost;
    if plan == [] {
      assert Later(m.fates, 0) == m.fates;
    } else {
      LaterLucky(m.fates, Cost(plan[0]), Costs(plan[1..]));
      StepArrives(m, j, plan[0], s, original, d);
      var r := Execute(m, j, plan[0]);
      PlanArrives(r.m, r.j, plan[1..], After(plan[0], s), original, d);
    }
  }

  lemma PlanRuns(plan: seq<Instr>, original: World, j: Journal, fates: seq<Fate>)
    requires Plan(plan, original, j.dataAction) && FreshJournal(j) && Lucky(fates, Costs(plan))
    ensures Arrives(RunProgram(Begin(original, j, fates), j, plan), j, SceneAfter(plan, original), fates, Costs(plan))
  {
    hide PlanFrom, Lucky, RunProgram, FinalScene, Arrives;
    PlanArrives(Begin(original, j, fates), j, plan, Scene([], original, false), original, j.dataAction);
  }

  function ProceedThenRefuse(n: nat): seq<Fate> { seq(n, _ => Proceed) + [Refuse] }

  lemma RefusedStep(m: Machine, j: Journal, a: Action)
    requires m.fates == [Proceed, Refuse] && ValidJournal(j) && ValidAction(a.(seqNo := |j.actions| + 1))
    ensures var r := Step(m, j, a);
            var intent := a.(seqNo := |j.actions| + 1, status := Intent);
            && !r.ok && r.m.visible == j.(actions := j.actions + [intent]) && r.m.durable == r.m.visible
            && r.m.world == m.world && ValidJournal(r.m.visible)
  {
    hide SubjectOf, FindRecord;
  }

  lemma PerformsStep(m: Machine, j: Journal, i: Instr, a: Action)
    requires Performs(i, a)
    ensures Execute(m, j, i) == Step(m, j, a)
  {
    hide Step;
  }

  /** The intent of `a` is the last thing in the journal, and its effect has not happened. */
  ghost predicate CutBehind(m: Machine, s: Scene, a: Action, j: Journal) {
    && m.visible == j.(actions := s.actions + [a.(seqNo := |s.actions| + 1, status := Intent)], phase := m.visible.phase)
    && m.durable == m.visible && m.world == s.world && ValidJournal(m.visible)
  }

  /** The run dies after the intent of `a`, before its effect; whatever would follow does not matter. */
  lemma CutForward(plan: seq<Instr>, i: Instr, a: Action, rest: seq<Instr>, original: World, j: Journal)
    requires Plan(plan, original, j.dataAction) && FreshJournal(j) && ValidAction(a.(seqNo := 1)) && Performs(i, a)
    ensures var m := RunProgram(Begin(original, j, ProceedThenRefuse(Costs(plan) + 1)), j, plan + [i] + rest).m;
            CutBehind(m, SceneAfter(plan, original), a, j)
  {
    hide Plan, SceneAfter, Step, RunProgram, Execute, Performs;
    var n := Costs(plan);
    var fates := ProceedThenRefuse(n + 1);
    var m0 := Begin(original, j, fates);
    PlanRuns(plan, original, j, fates);
    var r := RunProgram(m0, j, plan);
    assert r.m.fates == [Proceed, Refuse];
    RunOne(r.m, r.j, i);
    PerformsStep(r.m, r.j, i, a);
    RefusedStep(r.m, r.j, a);
    RunAppend(m0, j, plan, [i]);
    RunAppend(m0, j, plan + [i], rest);
  }

  // ---- Programs without an activation ----

  /** Without an activation the source side stays safe, and answers for every key. */
  lemma {:induction false} PlanRunsSafely(m: Machine, j: Journal, plan: seq<Instr>, s: Scene, original: World)
    requires Underway(m, j, s, original) && ProgramFits(plan, s, original, j.dataAction)
    requires forall i :: 0 <= i < |plan| ==> !plan[i].DoActivate?
    ensures var r := RunProgram(m, j, plan);
            SourceSafe(r.m, original, true) && (r.ok ==> Underway(r.m, r.j, FinalScene(plan, s), original) && r.j.dataAction == j.dataAction)
    decreases |plan|
  {
    hide Underway, SourceSafeAt, TargetSafe, Execute, InstrFits;
    if plan == [] {
      UnderwayIsSafe(m, j, s, original);
    } else {
      BeforeActivation(m, j, plan[0], s, original, Goal(s.world, |s.actions| + 1, None));
      var r := Execute(m, j, plan[0]);
      if r.ok { PlanRunsSafely(r.m, r.j, plan[1..], After(plan[0], s), original); }
    }
  }
}
