/**
  How a recovery ends: what its steps do to the world and to the journal, and which state
  of the service each operation asks for.
 */
module InstallEndings {
  import opened Options
  import opened InstallJournal
  import opened InstallEngine
  import opened InstallRollback
  import opened InstallRollforward
  import opened InstallUndecided

  // ---- Single steps ----

  lemma SaveKeepsWorld(m: Machine, next: Journal)
    ensures Save(m, next).m.world == m.world && Save(m, next).j == next && (Save(m, next).ok ==> ValidJournal(next))
  {
  }

  /** A step that succeeds has happened and is recorded as done. */
  lemma StepPerforms(m: Machine, j: Journal, a: Action)
    requires !a.kind.Activation?
    ensures var r := Step(m, j, a);
            r.ok ==>
              && KeyOf(a) in m.world && r.m.world == m.world[KeyOf(a) := a.newState]
              && r.j == j.(actions := j.actions + [a.(seqNo := |j.actions| + 1, status := Done)]) && ValidJournal(r.j)
  {
    hide Save, RecordDone, SubjectOf;
    var n := |j.actions|;
    var a' := a.(seqNo := n + 1, status := Intent);
    var j1 := j.(actions := j.actions + [a']);
    SaveKeepsWorld(m, j1);
    var r := RecordIntent(m, j, a);
    if r.ok {
      assert r.j.actions[n] == a';
      var (m', ok) := Apply(r.m, a');
      if ok {
        RecordDoneIsSave(m', j1, n);
        var next := j1.(actions := j1.actions[n := a'.(status := Done)]);
        SaveKeepsWorld(m', next);
        assert next.actions == j.actions + [a'.(status := Done)];
      }
    }
  }

  /** The effect of an action is in place; a reload only has to have moved on. */
  predicate InPlace(world: World, a: Action) {
    && KeyOf(a) in world
    && if SubjectOf(a.kind).Reloads? then world[KeyOf(a)] != a.oldState else world[KeyOf(a)] == a.newState
  }

  /** Finishing an open action succeeds only with its effect in place, and moves no other key. */
  lemma FinishPerforms(m: Machine, j: Journal, t: nat)
    requires ValidJournal(j) && t < |j.actions|
    ensures var c := j.actions[t];
            var r := FinishAction(m, j, c);
            && (forall key :: key != KeyOf(c) || c.kind.Activation? || c.status.Done? ==> Unmoved(m.world, r.m.world, key))
            && (r.ok ==>
                  && r.j == j.(actions := j.actions[t := c.(status := Done)])
                  && (c.status.Intent? && !c.kind.Activation? ==> InPlace(r.m.world, c)))
  {
    hide Save, RecordDone, SubjectOf;
    var c := j.actions[t];
    FindSeqAt(j, t);
    if c.status.Done? {
      assert j.actions[t := c.(status := Done)] == j.actions;
    } else {
      assert ValidAction(c);
      var next := j.(actions := j.actions[t := c.(status := Done)]);
      RecordDoneIsSave(m, j, t);
      SaveKeepsWorld(m, next);
      var (m', ok) := Apply(m, c);
      RecordDoneIsSave(m', j, t);
      SaveKeepsWorld(m', next);
    }
  }

  predicate Unmoved(before: World, after: World, key: Key) {
    (key in before <==> key in after) && (key in before ==> after[key] == before[key])
  }

  lemma DoneKeeps(m: Machine, j: Journal, a: Action)
    ensures RecordDone(m, j, a).j == j.(actions := RecordDone(m, j, a).j.actions)
  {
    hide Save, FindRecord, FillFrom, ValidAction;
    var i := FindRecord(j.actions, a);
    if i < |j.actions| { SaveKeepsWorld(m, j.(actions := j.actions[i := FillFrom(a, j.actions[i])])); }
  }

  lemma FinishKeeps(m: Machine, j: Journal, a: Action)
    ensures FinishAction(m, j, a).j == j.(actions := FinishAction(m, j, a).j.actions)
  {
    hide RecordDone, Observe, Classify, Apply;
    var i := FindSeq(j.actions, a.seqNo);
    if i < |j.actions| {
      var done := j.actions[i].(status := Done);
      DoneKeeps(m, j, done);
      DoneKeeps(Apply(m, j.actions[i]).0, j, done);
    }
  }

  lemma {:induction false} SweepKeeps(m: Machine, j: Journal, snapshot: seq<Action>, from: nat)
    requires from <= |snapshot|
    ensures var r := SweepForward(m, j, snapshot, from); r.j == j.(actions := r.j.actions)
    decreases |snapshot| - from
  {
    hide FinishAction;
    if from < |snapshot| {
      FinishKeeps(m, j, snapshot[from]);
      var r := FinishAction(m, j, snapshot[from]);
      if r.ok { SweepKeeps(r.m, r.j, snapshot, from + 1); }
    }
  }

  // ---- The ending under target authority ----

  /** The service is unmasked; the other two switches are on if asked for, and not touched if not; nothing else moves but the reloads. */
  ghost predicate EndsAs(before: World, after: World, enabled: bool, running: bool) {
    && Switch(Masking) in after && after[Switch(Masking)] == Text("unmasked")
    && (if enabled then Switch(Enablement) in after && after[Switch(Enablement)] == Text("enabled")
        else Unmoved(before, after, Switch(Enablement)))
    && (if running then Switch(Running) in after && after[Switch(Running)] == Text("running")
        else Unmoved(before, after, Switch(Running)))
    && forall key :: key !in {Switch(Masking), Switch(Enablement), Switch(Running), RELOAD_KEY} ==> Unmoved(before, after, key)
  }

  /**
    What each operation asks for: a reinstalled service is enabled and running, an installed one
    enabled, an updated one as it was before, and a recovered one as the artifacts say, enabled
    also if it was enabled before on both accounts.
   */
  ghost predicate EndsAsAsked(j: Journal, p: Policy, before: World, after: World) {
    match j.operation
    case Reinstall => EndsAs(before, after, true, true)
    case Install => EndsAs(before, after, true, false)
    case Update => EndsAs(before, after, j.oldEnabled, j.oldRunning)
    case Recover => EndsAs(before, after, p.targetEnabled || (p.oldEnabled && j.oldEnabled), p.targetRunning)
  }

  function Kinds(actions: seq<Action>): seq<Kind> {
    if actions == [] then [] else Kinds(actions[..|actions| - 1]) + [actions[|actions| - 1].kind]
  }

  lemma OneMoreKind(actions: seq<Action>, a: Action)
    ensures Kinds(actions + [a]) == Kinds(actions) + [a.kind]
  {
    assert (actions + [a])[..|actions|] == actions;
  }

  function If(b: bool, k: Kind): seq<Kind> { if b then [k] else [] }

  predicate Turned(before: World, after: World, subject: Subject) { !Unmoved(before, after, Switch(subject)) }

  /** The actions that an ending adds: what it turned, and a reload unless there was one, in this order. */
  ghost predicate Adds(first: seq<Action>, later: seq<Action>, before: World, after: World) {
    && first <= later && AllDone(later[|first|..], |later| - |first|)
    && Kinds(later[|first|..]) == If(Turned(before, after, Masking), Unmask) + If(Turned(before, after, Enablement), Enable)
                                  + If(!ReloadedAfterActivation(first), Reload) + If(Turned(before, after, Running), Start)
  }

  /** A switch is left alone, or turned by one step that is recorded as done. */
  lemma EnsurePerforms(m: Machine, j: Journal, a: Action)
    requires !a.kind.Activation? && a.oldState != a.newState
    ensures var r := EnsureAction(m, j, a);
            r.ok ==>
              && KeyOf(a) in m.world && r.m.world == m.world[KeyOf(a) := a.newState] && r.j == j.(actions := r.j.actions)
              && r.j.actions == j.actions + (if m.world[KeyOf(a)] == a.newState then []
                                             else [a.(seqNo := |j.actions| + 1, status := Done)])
  {
    hide Step, SubjectOf;
    StepPerforms(m, j, a);
    if KeyOf(a) in m.world && m.world[KeyOf(a)] == a.newState { assert m.world == m.world[KeyOf(a) := a.newState]; }
  }

  lemma ReloadPerforms(m: Machine, j: Journal)
    ensures var r := EnsureReload(m, j);
            r.ok ==>
              && r.j == j.(actions := r.j.actions)
              && (forall key :: key != RELOAD_KEY ==> Unmoved(m.world, r.m.world, key))
              && r.j.actions == j.actions + (if ReloadedAfterActivation(j.actions) then []
                                             else [ReloadAction(m.world, Reload).(seqNo := |j.actions| + 1, status := Done)])
  {
    hide Step, ReloadedAfterActivation;
    StepPerforms(m, j, ReloadAction(m.world, Reload));
  }

  /** Turning a switch does not count as a reload behind the activation. */
  lemma NotReloadedYet(a: seq<Action>, more: seq<Action>)
    requires forall i :: 0 <= i < |more| ==> !SubjectOf(more[i].kind).Reloads?
    ensures ReloadedAfterActivation(a + more) <==> ReloadedAfterActivation(a)
  {
    var b := a + more;
    if ReloadedAfterActivation(a) { ReloadedStays(a, b); }
    if ReloadedAfterActivation(b) {
      var i, k :| 0 <= i < k < |b|
        && b[i].kind.Activation? && b[i].status.Done? && SubjectOf(b[k].kind).Reloads? && b[k].status.Done?;
      assert forall h :: |a| <= h < |b| ==> b[h] == more[h - |a|];
      assert a[i] == b[i] && a[k] == b[k];
    }
  }

  /** `later` is `first` and at most one more, finished action. */
  ghost predicate Gains(first: seq<Action>, later: seq<Action>, some: bool, kind: Kind) {
    if some then |later| == |first| + 1 && first == later[..|first|] && later[|first|].kind == kind && later[|first|].status.Done?
    else later == first
  }

  /** Gained actions, from some position on. */
  lemma GainsKinds(base: seq<Action>, first: seq<Action>, later: seq<Action>, some: bool, kind: Kind)
    requires base <= first && Gains(first, later, some, kind) && AllDone(first[|base|..], |first| - |base|)
    ensures base <= later && AllDone(later[|base|..], |later| - |base|)
    ensures Kinds(later[|base|..]) == Kinds(first[|base|..]) + If(some, kind)
  {
    hide Kinds;
    if some {
      assert later[|base|..] == first[|base|..] + [later[|first|]];
      OneMoreKind(first[|base|..], later[|first|]);
    }
  }

  // ---- The four parts of an ending ----

  function Turn(m: Machine, j: Journal, asked: bool, subject: Subject): Run {
    if asked then EnsureAction(m, j, Turning(subject)) else Run(m, j, true)
  }

  /** The switch is on afterwards if asked for; nothing else moves. */
  predicate Turns(w: World, v: World, asked: bool, subject: Subject) {
    if asked then Switch(subject) in w && v == w[Switch(subject) := On(subject)] else v == w
  }

  predicate WasOff(w: World, asked: bool, subject: Subject) {
    asked && Switch(subject) in w && w[Switch(subject)] != On(subject)
  }

  lemma TurnGains(m: Machine, j: Journal, asked: bool, subject: Subject)
    requires subject.Masking? || subject.Enablement? || subject.Running?
    ensures var r := Turn(m, j, asked, subject);
            r.ok ==>
              && Turns(m.world, r.m.world, asked, subject) && r.j == j.(actions := r.j.actions)
              && Gains(j.actions, r.j.actions, WasOff(m.world, asked, subject), Turning(subject).kind)
              && (ReloadedAfterActivation(r.j.actions) <==> ReloadedAfterActivation(j.actions))
  {
    hide EnsureAction, KeyOf, SubjectOf, ReloadedAfterActivation, Turning;
    TurningFits((true, true), subject);
    if asked {
      EnsurePerforms(m, j, Turning(subject));
      NotReloadedYet(j.actions, [Turning(subject).(seqNo := |j.actions| + 1, status := Done)]);
    }
  }

  lemma ReloadGains(m: Machine, j: Journal)
    ensures EnsureReload(m, j).ok ==> Gains(j.actions, EnsureReload(m, j).j.actions, !ReloadedAfterActivation(j.actions), Reload)
  {
    hide EnsureReload, ReloadedAfterActivation;
    ReloadPerforms(m, j);
  }

  /** The runs between the parts. */
  datatype Course = Course(unmasked: Run, enabled: Run, reloaded: Run, started: Run)

  function CourseOf(m: Machine, j: Journal, enabled: bool, running: bool): Course {
    var r := Turn(m, j, true, Masking);
    var e := if r.ok then Turn(r.m, r.j, enabled, Enablement) else r;
    var l := if e.ok then EnsureReload(e.m, e.j) else e;
    var s := if l.ok then Turn(l.m, l.j, running, Running) else l;
    Course(r, e, l, s)
  }

  lemma CourseIsEnding(m: Machine, j: Journal, p: Policy)
    ensures EnsureTarget(m, j, p) == CourseOf(m, j, TargetPolicy(p, j).0, TargetPolicy(p, j).1).started
  {
    hide EnsureAction, EnsureReload, TargetPolicy;
  }

  ghost predicate SameButReloads(w: World, v: World) { forall key :: key != RELOAD_KEY ==> Unmoved(w, v, key) }

  /** What the parts do to the world and to the journal. */
  ghost predicate Parts(m: Machine, j: Journal, c: Course, enabled: bool, running: bool) {
    && Turns(m.world, c.unmasked.m.world, true, Masking) && Turns(c.unmasked.m.world, c.enabled.m.world, enabled, Enablement)
    && SameButReloads(c.enabled.m.world, c.reloaded.m.world) && Turns(c.reloaded.m.world, c.started.m.world, running, Running)
    && Gains(j.actions, c.unmasked.j.actions, WasOff(m.world, true, Masking), Unmask)
    && Gains(c.unmasked.j.actions, c.enabled.j.actions, WasOff(c.unmasked.m.world, enabled, Enablement), Enable)
    && Gains(c.enabled.j.actions, c.reloaded.j.actions, !ReloadedAfterActivation(j.actions), Reload)
    && Gains(c.reloaded.j.actions, c.started.j.actions, WasOff(c.reloaded.m.world, running, Running), Start)
    && c.started.j == j.(actions := c.started.j.actions)
  }

  lemma CourseParts(m: Machine, j: Journal, enabled: bool, running: bool)
    ensures var c := CourseOf(m, j, enabled, running); c.started.ok ==> Parts(m, j, c, enabled, running)
  {
    hide Turn, EnsureReload, ReloadedAfterActivation, Gains, Turns, WasOff, SubjectOf;
    var c := CourseOf(m, j, enabled, running);
    TurnGains(m, j, true, Masking);
    TurnGains(c.unmasked.m, c.unmasked.j, enabled, Enablement);
    ReloadPerforms(c.enabled.m, c.enabled.j);
    ReloadGains(c.enabled.m, c.enabled.j);
    TurnGains(c.reloaded.m, c.reloaded.j, running, Running);
  }

  lemma WorldsEnd(w0: World, w1: World, w2: World, w3: World, w4: World, enabled: bool, running: bool)
    requires Turns(w0, w1, true, Masking) && Turns(w1, w2, enabled, Enablement) && SameButReloads(w2, w3) && Turns(w3, w4, running, Running)
    ensures EndsAs(w0, w4, enabled, running)
    ensures WasOff(w0, true, Masking) <==> Turned(w0, w4, Masking)
    ensures WasOff(w1, enabled, Enablement) <==> Turned(w0, w4, Enablement)
    ensures WasOff(w3, running, Running) <==> Turned(w0, w4, Running)
  {
    forall key | key !in {Switch(Masking), Switch(Enablement), Switch(Running), RELOAD_KEY} ensures Unmoved(w0, w4, key) {
      assert Unmoved(w2, w3, key);
    }
    assert Unmoved(w2, w3, Switch(Masking)) && Unmoved(w2, w3, Switch(Enablement)) && Unmoved(w2, w3, Switch(Running));
  }

  lemma NothingGained(base: seq<Action>)
    ensures AllDone(base[|base|..], 0) && Kinds(base[|base|..]) == []
  {
  }

  lemma CourseJournal(m: Machine, j: Journal, c: Course, enabled: bool, running: bool)
    requires Parts(m, j, c, enabled, running)
    ensures var later := c.started.j.actions;
            && j.actions <= later && AllDone(later[|j.actions|..], |later| - |j.actions|)
            && Kinds(later[|j.actions|..])
               == If(WasOff(m.world, true, Masking), Unmask) + If(WasOff(c.unmasked.m.world, enabled, Enablement), Enable)
                  + If(!ReloadedAfterActivation(j.actions), Reload) + If(WasOff(c.reloaded.m.world, running, Running), Start)
  {
    hide ReloadedAfterActivation, Kinds, Gains, AllDone, Turns, WasOff, SameButReloads;
    NothingGained(j.actions);
    GainsKinds(j.actions, j.actions, c.unmasked.j.actions, WasOff(m.world, true, Masking), Unmask);
    GainsKinds(j.actions, c.unmasked.j.actions, c.enabled.j.actions, WasOff(c.unmasked.m.world, enabled, Enablement), Enable);
    GainsKinds(j.actions, c.enabled.j.actions, c.reloaded.j.actions, !ReloadedAfterActivation(j.actions), Reload);
    GainsKinds(j.actions, c.reloaded.j.actions, c.started.j.actions, WasOff(c.reloaded.m.world, running, Running), Start);
  }

  lemma EnsureTargetEnds(m: Machine, j: Journal, p: Policy)
    ensures var r := EnsureTarget(m, j, p);
            r.ok ==>
              && r.j == j.(actions := r.j.actions)
              && EndsAs(m.world, r.m.world, TargetPolicy(p, j).0, TargetPolicy(p, j).1)
              && Adds(j.actions, r.j.actions, m.world, r.m.world)
  {
    hide EnsureTarget, CourseOf, TargetPolicy, ReloadedAfterActivation, Kinds, AllDone, Turns, WasOff, Turned, EndsAs, SameButReloads, Gains;
    var (enabled, running) := TargetPolicy(p, j);
    var c := CourseOf(m, j, enabled, running);
    CourseIsEnding(m, j, p);
    CourseParts(m, j, enabled, running);
    if c.started.ok {
      WorldsEnd(m.world, c.unmasked.m.world, c.enabled.m.world, c.reloaded.m.world, c.started.m.world, enabled, running);
      CourseJournal(m, j, c, enabled, running);
    }
  }

  lemma EnsureTargetAsked(m: Machine, j: Journal, p: Policy)
    ensures EnsureTarget(m, j, p).ok ==> EndsAsAsked(j, p, m.world, EnsureTarget(m, j, p).m.world)
  {
    hide EnsureTarget, EndsAs, Adds;
    EnsureTargetEnds(m, j, p);
  }

  /**
    A recovery under target authority that succeeds: behind the sweep over the recorded actions
    it sets the switches that the operation asks for, and records exactly what it did.
   */
  lemma RollforwardEnds(m: Machine, p: Policy)
    requires m.visible.authority.Target?
    ensures var r := RecoverOnce(m, p);
            var swept := SweepForward(m, m.visible, m.visible.actions, 0);
            r.ok ==>
              && swept.ok && EndsAsAsked(m.visible, p, swept.m.world, r.m.world)
              && Adds(swept.j.actions, r.m.visible.actions, swept.m.world, r.m.world)
  {
    hide SweepForward, EnsureTarget, Adds, EndsAs;
    var j := m.visible;
    SweepKeeps(m, j, j.actions, 0);
    var s := SweepForward(m, j, j.actions, 0);
    if s.ok { EnsureTargetEnds(s.m, s.j, p); }
  }

  // ---- The ending under source authority ----

  /** From that position on the journal holds finished reversals. */
  ghost predicate Reversals(actions: seq<Action>, base: nat) {
    base <= |actions| && forall i :: base <= i < |actions| ==> IsUndo(actions[i]) && actions[i].status.Done?
  }

  /** The run recorded finished reversals and nothing else, none of them if nothing was reversed. */
  ghost predicate Reverts(v: Sweep, j: Journal, base: nat) {
    v.run.ok ==>
      ValidJournal(v.run.j) && Reversals(v.run.j.actions, base) && (!v.reversed ==> |v.run.j.actions| == |j.actions|)
  }

  lemma StepReverts(m: Machine, j: Journal, a: Action, base: nat)
    requires IsUndo(a) && Reversals(j.actions, base)
    ensures Reverts(Sweep(Step(m, j, a), true), j, base)
  {
    hide Step, ValidJournal;
    UndoIsNoActivation(a);
    StepPerforms(m, j, a);
  }

  lemma UndoIsNoActivation(a: Action)
    requires IsUndo(a)
    ensures !a.kind.Activation? && IsUndo(a.(seqNo := 0))
  {
  }

  lemma ReverseReverts(m: Machine, j: Journal, f: Action, base: nat)
    requires IsForward(f) && Reversals(j.actions, base) && ValidJournal(j)
    ensures Reverts(Sweep(Reverse(m, j, f), true), j, base)
  {
    hide Step, Observe, ReverseKind, IsUndo, IsForward, Reversals, ValidJournal;
    if ReverseKind(f.kind).Some? {
      var kind := ReverseKind(f.kind).value;
      ReversalIsUndo(f, kind);
      forall o, n ensures Reverts(Sweep(Step(m, j, ReverseAction(f, kind, o, n)), true), j, base) {
        StepReverts(m, j, ReverseAction(f, kind, o, n), base);
      }
    }
  }

  lemma ReversalIsUndo(f: Action, kind: Kind)
    requires IsForward(f) && ReverseKind(f.kind) == Some(kind)
    ensures !kind.RestoreReload? && forall o, n :: IsUndo(ReverseAction(f, kind, o, n))
  {
    ReverseKindsPairUp(f.kind);
  }

  lemma FinishReverts(m: Machine, j: Journal, a: Action, base: nat)
    requires ValidJournal(j) && Reversals(j.actions, base)
    ensures Reverts(Sweep(FinishAction(m, j, a), false), j, base)
  {
    hide FinishAction, IsUndo, ValidAction;
    var t := FindSeq(j.actions, a.seqNo);
    if t == |j.actions| {
      FinishUnknown(m, j, a);
    } else {
      FinishBySeq(m, j, a, j.actions[t]);
      FinishPerforms(m, j, t);
      DoneIsLike(j.actions[t]);
    }
  }

  lemma DoneIsLike(a: Action)
    ensures IsUndo(a.(status := Done)) == IsUndo(a) && ValidAction(a.(status := Done)) == ValidAction(a)
  {
  }

  lemma FinishUnknown(m: Machine, j: Journal, a: Action)
    requires FindSeq(j.actions, a.seqNo) == |j.actions|
    ensures FinishAction(m, j, a) == Run(m, j, true)
  {
  }

  lemma VisitReverts(m: Machine, j: Journal, a: Action, base: nat)
    requires ValidJournal(j) && Reversals(j.actions, base)
    ensures Reverts(Visit(m, j, a), j, base)
  {
    hide FinishAction, Reverse, AlreadyReversed, Observe, Classify, Reversals, ValidJournal;
    FinishReverts(m, j, a, base);
    if IsForward(a) { ReverseReverts(m, j, a, base); }
  }

  lemma {:induction false} SweepReverts(m: Machine, j: Journal, snapshot: seq<Action>, n: nat, base: nat)
    requires ValidJournal(j) && Reversals(j.actions, base) && n <= |snapshot|
    ensures Reverts(SweepBack(m, j, snapshot, n), j, base)
    decreases n
  {
    hide Visit, Reversals, ValidJournal;
    if n > 0 {
      VisitReverts(m, j, snapshot[n - 1], base);
      var v := Visit(m, j, snapshot[n - 1]);
      if v.run.ok { SweepReverts(v.run.m, v.run.j, snapshot, n - 1, base); }
    }
  }

  /**
    A recovery under source authority that succeeds: what it adds to the journal are finished
    reversals, and if there are any, one finished reload behind them, which the world shows.
   */
  lemma RollbackEnds(m: Machine, p: Policy)
    requires m.visible.authority.Source? && ValidJournal(m.visible)
    ensures var r := RecoverOnce(m, p);
            var n := |m.visible.actions|;
            var last := |r.m.visible.actions| - 1;
            r.ok ==>
              && r.m.visible.phase.Complete? && r.m.visible.authority.Source? && n <= last + 1
              && (n <= last ==>
                    && r.m.visible.actions[last].kind.RestoreReload? && Reversals(r.m.visible.actions[..last], n)
                    && r.m.visible.actions[last].status.Done?
                    && RELOAD_KEY in r.m.world && r.m.world[RELOAD_KEY] == r.m.visible.actions[last].newState)
  {
    hide SweepBack, Step, ValidJournal, IsUndo;
    var j := m.visible;
    SweepReverts(m, j, j.actions, |j.actions|, |j.actions|);
    var s := SweepBack(m, j, j.actions, |j.actions|);
    if s.run.ok && s.reversed { LastReload(s.run.m, s.run.j, |j.actions|); }
  }

  lemma LastReload(m: Machine, j: Journal, n: nat)
    requires Reversals(j.actions, n)
    ensures var e := Step(m, j, ReloadAction(m.world, RestoreReload));
            var last := |e.j.actions| - 1;
            e.ok ==>
              && n <= last && e.j.actions[last].kind.RestoreReload? && e.j.actions[last].status.Done? && Reversals(e.j.actions[..last], n)
              && RELOAD_KEY in e.m.world && e.m.world[RELOAD_KEY] == e.j.actions[last].newState
  {
    hide Step, IsUndo;
    var reload := ReloadAction(m.world, RestoreReload);
    StepPerforms(m, j, reload);
    var e := Step(m, j, reload);
    if e.ok { assert e.j.actions[..|e.j.actions| - 1] == j.actions; }
  }
}
