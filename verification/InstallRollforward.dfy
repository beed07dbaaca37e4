/**
  Target-side safety: after the activation write, recovery only moves the service
  manager's switches and finishes the hook it finds open; what the transaction installed
  stays installed.
 */
module InstallRollforward {
  import opened Options
  import opened InstallJournal
  import opened InstallEngine
  import opened InstallRollback

  /** An action recovery may still have to carry out once the authority is the target. */
  predicate IsFinishing(a: Action) {
    a.kind.Activation? || (IsService(SubjectOf(a.kind)) && !IsReverse(a.kind))
  }

  ghost predicate Pristine(world: World, goal: World) {
    && world.Keys == goal.Keys
    && forall key :: key in goal && !IsService(key.subject) ==> world[key] == goal[key]
  }

  /**
    What is installed, the number of actions that led there, and the one payload hook behind
    the activation that may have been cut.
   */
  datatype Goal = Goal(payload: World, count: nat, pending: Option<Action>)

  /** The cut hook, intended or done. */
  predicate IsPending(a: Action, goal: Goal) {
    goal.pending.Some? && a == goal.pending.value.(status := a.status) && IsForward(a) && !IsService(SubjectOf(a.kind))
  }

  /** The cut hook has happened. */
  ghost predicate Happened(world: World, goal: Goal) {
    && goal.pending.Some? && KeyOf(goal.pending.value) in goal.payload
    && Pristine(world, goal.payload[KeyOf(goal.pending.value) := goal.pending.value.newState])
  }

  /** The payload is installed, without the cut hook or with it. */
  ghost predicate Reached(world: World, goal: Goal) { Pristine(world, goal.payload) || Happened(world, goal) }

  /** Behind the installed payload the journal records the service and the cut hook, and nothing else. */
  ghost predicate TargetInv(j: Journal, goal: Goal) {
    && ValidJournal(j) && j.authority.Target? && PhaseMatchesAuthority(j)
    && (forall i :: 0 <= i < |j.actions| && j.actions[i].status.Intent? ==> IsFinishing(j.actions[i]) || IsPending(j.actions[i], goal))
    && (forall i :: goal.count <= i < |j.actions| ==> IsService(SubjectOf(j.actions[i].kind)) || IsPending(j.actions[i], goal))
    && (exists i :: 0 <= i < |j.actions| && j.actions[i].kind.Activation?)
  }

  /** If the cut hook is recorded as done it has happened. */
  ghost predicate Honest(j: Journal, world: World, goal: Goal) {
    forall i :: 0 <= i < |j.actions| && IsPending(j.actions[i], goal) && j.actions[i].status.Done? ==> Happened(world, goal)
  }

  /** No reversal is recorded, so a fallback to this document starts rollback from scratch. */
  predicate NoUndos(actions: seq<Action>) {
    forall i :: 0 <= i < |actions| ==> !IsUndo(actions[i])
  }

  ghost predicate TargetSafe(m: Machine, original: World, goal: Goal) {
    && TargetInv(m.visible, goal) && Honest(m.visible, m.world, goal) && Reached(m.world, goal)
    && if m.durable.authority.Target? then TargetInv(m.durable, goal) && Honest(m.durable, m.world, goal)
       else goal.pending.None? && NoUndos(m.durable.actions) && SourceSafeAt(m.world, m.durable, m.durable, original, false)
  }

  lemma SaveTargetSafe(m: Machine, next: Journal, original: World, goal: Goal)
    requires TargetSafe(m, original, goal) && TargetInv(next, goal) && Honest(next, m.world, goal)
    ensures var r := Save(m, next);
            && TargetSafe(r.m, original, goal) && r.m.world == m.world && r.j == next
            && (r.ok ==> r.m.visible == next && r.m.durable == next)
  {
    hide SourceInv, Honest, Reached;
  }

  lemma AppendFinishing(j: Journal, a: Action, goal: Goal)
    requires TargetInv(j, goal) && a.seqNo == |j.actions| + 1 && ValidAction(a) && (IsPending(a, goal) || (IsFinishing(a) && !a.kind.Activation?))
    ensures TargetInv(j.(actions := j.actions + [a]), goal)
  {
    var i :| 0 <= i < |j.actions| && j.actions[i].kind.Activation?;
    assert (j.actions + [a])[i].kind.Activation?;
  }

  lemma DoneFinishing(j: Journal, k: nat, goal: Goal)
    requires TargetInv(j, goal) && k < |j.actions|
    ensures TargetInv(j.(actions := j.actions[k := j.actions[k].(status := Done)]), goal)
  {
    var i :| 0 <= i < |j.actions| && j.actions[i].kind.Activation?;
    assert j.actions[k := j.actions[k].(status := Done)][i].kind.Activation?;
  }

  lemma AppendHonest(j: Journal, a: Action, world: World, goal: Goal)
    requires Honest(j, world, goal) && a.status.Intent?
    ensures Honest(j.(actions := j.actions + [a]), world, goal)
  {
    hide Happened;
  }

  lemma DoneHonest(j: Journal, k: nat, world: World, goal: Goal)
    requires Honest(j, world, goal) && k < |j.actions| && (IsPending(j.actions[k], goal) ==> Happened(world, goal))
    ensures Honest(j.(actions := j.actions[k := j.actions[k].(status := Done)]), world, goal)
  {
    hide Happened;
  }

  /** A cut hook whose new token is in place has happened. */
  lemma InPlaceHappened(world: World, a: Action, goal: Goal)
    requires Reached(world, goal) && IsPending(a, goal) && KeyOf(a) in world && world[KeyOf(a)] == a.newState
    ensures Happened(world, goal)
  {
  }

  /** Moving the service keeps what has happened. */
  lemma ServiceKeepsHonest(j: Journal, world: World, key: Key, token: Token, goal: Goal)
    requires Honest(j, world, goal) && key in world && IsService(key.subject)
    ensures Honest(j, world[key := token], goal)
  {
    if goal.pending.Some? && Happened(world, goal) { assert Happened(world[key := token], goal); }
  }

  /** Without recorded reversals the source invariant does not constrain the world. */
  lemma ServiceMoveSafe(m: Machine, key: Key, token: Token, original: World, goal: Goal)
    requires TargetSafe(m, original, goal) && key in m.world && IsService(key.subject)
    ensures TargetSafe(m.(world := m.world[key := token]), original, goal)
  {
    hide Honest;
    var w := m.world[key := token];
    assert Reached(w, goal);
    ServiceKeepsHonest(m.visible, m.world, key, token, goal);
    if m.durable.authority.Target? { ServiceKeepsHonest(m.durable, m.world, key, token, goal); }
    if m.durable.authority.Source? {
      assert Restored(m.durable.actions, w, original) by {
        forall i, t | 0 <= i < |m.durable.actions| && 0 <= t < |m.durable.actions|
          ensures !Undoes(m.durable.actions, t, i, original)
        {
          if Undoes(m.durable.actions, t, i, original) {
            ReverseKindsPairUp(m.durable.actions[i].kind);
          }
        }
      }
      assert OnlyRecordedMoved(m.durable.actions, w, original, false);
    }
  }

  /** Performing the cut hook, once more or for the first time. */
  lemma HookReaches(world: World, a: Action, goal: Goal)
    requires Reached(world, goal) && IsPending(a, goal) && KeyOf(a) in world
    ensures Reached(world[KeyOf(a) := a.newState], goal) && Happened(world[KeyOf(a) := a.newState], goal)
  {
  }

  lemma EffectTargetSafe(m: Machine, a: Action, original: World, goal: Goal)
    requires TargetSafe(m, original, goal) && (IsFinishing(a) || IsPending(a, goal))
    ensures var (m', ok) := Apply(m, a);
            && TargetSafe(m', original, goal) && m'.visible == m.visible && m'.durable == m.durable
            && (ok && !a.kind.Activation? ==> KeyOf(a) in m.world && m'.world == m.world[KeyOf(a) := a.newState])
            && (ok && IsPending(a, goal) ==> Happened(m'.world, goal))
  {
    hide SourceSafeAt, TargetInv, Reached, Happened;
    if !a.kind.Activation? && KeyOf(a) in m.world {
      if IsFinishing(a) {
        ServiceMoveSafe(m, KeyOf(a), a.newState, original, goal);
      } else {
        HookReaches(m.world, a, goal);
      }
    }
  }

  // ---- Steps and finished actions ----

  lemma StepTargetSafe(m: Machine, j: Journal, a: Action, original: World, goal: Goal)
    requires TargetSafe(m, original, goal) && m.visible == j
    requires (IsFinishing(a) && !a.kind.Activation?) || IsPending(a.(seqNo := |j.actions| + 1), goal)
    ensures var r := Step(m, j, a);
            && TargetSafe(r.m, original, goal)
            && (r.ok ==>
                  && r.m.visible == r.j
                  && r.j == j.(actions := j.actions + [a.(seqNo := |j.actions| + 1, status := Done)])
                  && KeyOf(a) in m.world && r.m.world == m.world[KeyOf(a) := a.newState])
  {
    hide SourceSafeAt, Save, Apply, Reached, TargetInv, Honest, Happened;
    var n := |j.actions|;
    var a' := a.(seqNo := n + 1, status := Intent);
    if ValidAction(a') {
      var j1 := j.(actions := j.actions + [a']);
      AppendFinishing(j, a', goal);
      AppendHonest(j, a', m.world, goal);
      TargetIsValid(j1, goal);
      SaveTargetSafe(m, j1, original, goal);
      var r := Save(m, j1);
      if r.ok {
        assert j1.actions[n] == a';
        EffectTargetSafe(r.m, a', original, goal);
        var (m2, ok) := Apply(r.m, a');
        if ok {
          RecordDoneIsSave(m2, j1, n);
          DoneFinishing(j1, n, goal);
          DoneHonest(j1, n, m2.world, goal);
          SaveTargetSafe(m2, j1.(actions := j1.actions[n := a'.(status := Done)]), original, goal);
          assert j1.actions[n := a'.(status := Done)] == j.actions + [a'.(status := Done)];
        }
      }
    }
  }

  lemma FinishTargetSafe(m: Machine, j: Journal, t: nat, original: World, goal: Goal)
    requires TargetSafe(m, original, goal) && m.visible == j && t < |j.actions|
    ensures var r := FinishAction(m, j, j.actions[t]);
            && TargetSafe(r.m, original, goal)
            && (r.ok ==> r.m.visible == r.j == j.(actions := j.actions[t := j.actions[t].(status := Done)]))
  {
    hide TargetSafe, TargetInv, FinishAction, Save, Apply, Reached, RecordDone, Honest, Happened, SubjectOf, StartedAlready, ValidJournal;
    var current := j.actions[t];
    TargetParts(m, original, goal);
    if current.status.Done? {
      FinishDoneSkips(m, j, t);
      assert j.actions[t := current.(status := Done)] == j.actions;
    } else {
      var next := j.(actions := j.actions[t := current.(status := Done)]);
      FinishOpen(m, j, t);
      OpenIsFinishing(j, t, goal);
      DoneFinishing(j, t, goal);
      if StartedAlready(m, j, current) {
        RecordDoneIsSave(m, j, t);
        StartedIsHonest(m, j, t, goal);
        SaveTargetSafe(m, next, original, goal);
      } else {
        EffectTargetSafe(m, current, original, goal);
        var (m', ok) := Apply(m, current);
        if ok {
          TargetParts(m', original, goal);
          RecordDoneIsSave(m', j, t);
          DoneHonest(j, t, m'.world, goal);
          SaveTargetSafe(m', next, original, goal);
        }
      }
    }
  }

  lemma TargetParts(m: Machine, original: World, goal: Goal)
    requires TargetSafe(m, original, goal)
    ensures TargetInv(m.visible, goal) && Honest(m.visible, m.world, goal) && Reached(m.world, goal) && ValidJournal(m.visible)
  {
    hide Honest, Reached, SourceSafeAt;
  }

  lemma OpenIsFinishing(j: Journal, t: nat, goal: Goal)
    requires TargetInv(j, goal) && t < |j.actions| && j.actions[t].status.Intent?
    ensures IsFinishing(j.actions[t]) || IsPending(j.actions[t], goal)
  {
    hide IsFinishing, IsPending;
  }

  lemma FinishOpen(m: Machine, j: Journal, t: nat)
    requires ValidJournal(j) && t < |j.actions| && j.actions[t].status.Intent?
    ensures var c := j.actions[t];
            var (m', ok) := Apply(m, c);
            FinishAction(m, j, c) ==
            if StartedAlready(m, j, c) then RecordDone(m, j, c.(status := Done))
            else if Observe(m, j, c).None? || Classify(c, Observe(m, j, c).value).None? then Run(m, j, false)
            else if ok then RecordDone(m', j, c.(status := Done)) else Run(m', j, false)
  {
    hide RecordDone, Apply, SubjectOf;
    FindSeqAt(j, t);
  }

  predicate StartedAlready(m: Machine, j: Journal, a: Action) {
    Observe(m, j, a).Some? && Classify(a, Observe(m, j, a).value) == Some(Started)
  }

  lemma StartedIsHonest(m: Machine, j: Journal, t: nat, goal: Goal)
    requires Honest(j, m.world, goal) && Reached(m.world, goal) && t < |j.actions| && StartedAlready(m, j, j.actions[t])
    ensures Honest(j.(actions := j.actions[t := j.actions[t].(status := Done)]), m.world, goal)
  {
    hide Honest, Happened, Reached;
    if IsPending(j.actions[t], goal) { InPlaceHappened(m.world, j.actions[t], goal); }
    DoneHonest(j, t, m.world, goal);
  }

  predicate AllDone(actions: seq<Action>, n: nat) {
    forall i :: 0 <= i < n && i < |actions| ==> actions[i].status.Done?
  }

  /** What a cut or successful part of a rollforward leaves behind. */
  ghost predicate Forwarded(r: Run, original: World, goal: Goal, n: nat) {
    && TargetSafe(r.m, original, goal)
    && (r.ok ==> r.m.visible == r.j && AllDone(r.j.actions, n))
  }

  lemma {:induction false} SweepForwardFinishes(m: Machine, j: Journal, snapshot: seq<Action>, from: nat,
                                                original: World, goal: Goal)
    requires TargetSafe(m, original, goal) && m.visible == j
    requires from <= |snapshot| == |j.actions| && AllDone(j.actions, from)
    requires forall i :: 0 <= i < |snapshot| ==> snapshot[i].seqNo == i + 1
    ensures var r := SweepForward(m, j, snapshot, from);
            Forwarded(r, original, goal, |snapshot|) && (r.ok ==> |r.j.actions| == |snapshot| && r.j == j.(actions := r.j.actions))
    decreases |snapshot| - from
  {
    hide SourceSafeAt, FinishAction, Reached;
    if from < |snapshot| {
      FinishBySeq(m, j, snapshot[from], j.actions[from]);
      FinishTargetSafe(m, j, from, original, goal);
      var r := FinishAction(m, j, snapshot[from]);
      if r.ok {
        SweepForwardFinishes(r.m, r.j, snapshot, from + 1, original, goal);
      }
    }
  }

  lemma EnsureActionSafe(m: Machine, j: Journal, a: Action, original: World, goal: Goal)
    requires TargetSafe(m, original, goal) && m.visible == j && AllDone(j.actions, |j.actions|)
    requires IsFinishing(a) && !a.kind.Activation?
    ensures var r := EnsureAction(m, j, a);
            && Forwarded(r, original, goal, |r.j.actions|)
            && (r.ok ==> r.m.world == m.world[KeyOf(a) := a.newState] && j.actions <= r.j.actions)
  {
    hide SourceSafeAt, Step, Reached, TargetInv;
    StepTargetSafe(m, j, a, original, goal);
    if KeyOf(a) in m.world && m.world[KeyOf(a)] == a.newState {
      assert m.world == m.world[KeyOf(a) := a.newState];
    }
  }

  /** The switches that rollforward sets. */
  function Switch(subject: Subject): Key { Key(subject, DefinitionRole, "") }

  predicate SwitchedOn(world: World, enabled: bool, running: bool) {
    && Switch(Masking) in world && world[Switch(Masking)] == Text("unmasked")
    && (enabled ==> Switch(Enablement) in world && world[Switch(Enablement)] == Text("enabled"))
    && (running ==> Switch(Running) in world && world[Switch(Running)] == Text("running"))
  }

  lemma EnsureReloadSafe(m: Machine, j: Journal, original: World, goal: Goal)
    requires TargetSafe(m, original, goal) && m.visible == j && AllDone(j.actions, |j.actions|)
    ensures var r := EnsureReload(m, j);
            && Forwarded(r, original, goal, |r.j.actions|)
            && (r.ok ==>
                  && ReloadedAfterActivation(r.j.actions) && j.actions <= r.j.actions
                  && forall key :: key in m.world && !key.subject.Reloads? ==>
                       key in r.m.world && r.m.world[key] == m.world[key])
  {
    hide SourceSafeAt, Step, Reached, TargetInv;
    var a := ReloadAction(m.world, Reload);
    StepTargetSafe(m, j, a, original, goal);
    var r := Step(m, j, a);
    if r.ok {
      var i := FindActivation(j, goal);
      var k := |j.actions|;
      assert r.j.actions[i].kind.Activation? && SubjectOf(r.j.actions[k].kind).Reloads? && r.j.actions[k].status.Done?;
    }
  }

  lemma FindActivation(j: Journal, goal: Goal) returns (i: nat)
    requires TargetInv(j, goal)
    ensures i < |j.actions| && j.actions[i].kind.Activation?
  {
    i :| 0 <= i < |j.actions| && j.actions[i].kind.Activation?;
  }

  lemma TargetIsValid(j: Journal, goal: Goal)
    requires TargetInv(j, goal)
    ensures ValidJournal(j) && j.authority.Target?
  {
  }

  lemma CompleteIsTarget(j: Journal, goal: Goal)
    requires TargetInv(j, goal)
    ensures TargetInv(j.(authority := Target, phase := Complete), goal)
  {
  }

  lemma ReloadedStays(a: seq<Action>, b: seq<Action>)
    requires a <= b && ReloadedAfterActivation(a)
    ensures ReloadedAfterActivation(b)
  {
    var i, k :| 0 <= i < k < |a|
      && a[i].kind.Activation? && a[i].status.Done? && SubjectOf(a[k].kind).Reloads? && a[k].status.Done?;
    assert b[i] == a[i] && b[k] == a[k];
  }

  lemma EnsureTargetSafe(m: Machine, j: Journal, p: Policy, original: World, goal: Goal)
    requires TargetSafe(m, original, goal) && m.visible == j && AllDone(j.actions, |j.actions|)
    ensures var r := EnsureTarget(m, j, p);
            && Forwarded(r, original, goal, |r.j.actions|)
            && (r.ok ==> ReloadedAfterActivation(r.j.actions)
                         && SwitchedOn(r.m.world, TargetPolicy(p, j).0, TargetPolicy(p, j).1))
  {
    hide TargetSafe, EnsureAction, EnsureReload, TargetPolicy, AllDone, ReloadedAfterActivation;
    var (enabled, running) := TargetPolicy(p, j);
    var unmask := ServiceAction(Unmask, "masked", "unmasked");
    EnsureActionSafe(m, j, unmask, original, goal);
    var r := EnsureAction(m, j, unmask);
    if r.ok {
      var enable := ServiceAction(Enable, "disabled", "enabled");
      EnsureActionSafe(r.m, r.j, enable, original, goal);
      var e := if enabled then EnsureAction(r.m, r.j, enable) else r;
      if e.ok {
        EnsureReloadSafe(e.m, e.j, original, goal);
        var l := EnsureReload(e.m, e.j);
        if l.ok && running {
          var start := ServiceAction(Start, "stopped", "running");
          EnsureActionSafe(l.m, l.j, start, original, goal);
          var s := EnsureAction(l.m, l.j, start);
          if s.ok { ReloadedStays(l.j.actions, s.j.actions); }
        }
      }
    }
  }

  /** Rollforward keeps the installed payload at every cut and, if it succeeds, finishes the journal. */
  lemma RollforwardFinishes(m: Machine, p: Policy, original: World, goal: Goal)
    requires TargetSafe(m, original, goal)
    ensures var r := Rollforward(m, m.visible, p);
            && TargetSafe(r.m, original, goal)
            && (r.ok ==>
                  && r.m.visible.phase.Complete? && r.m.durable == r.m.visible
                  && AllDone(r.m.visible.actions, |r.m.visible.actions|)
                  && ReloadedAfterActivation(r.m.visible.actions)
                  && SwitchedOn(r.m.world, TargetPolicy(p, m.visible).0, TargetPolicy(p, m.visible).1))
  {
    hide SweepForward, EnsureTarget, Reached, TargetSafe, TargetInv, SwitchedOn, ReloadedAfterActivation, Honest, Save, ValidJournal;
    var j := m.visible;
    TargetParts(m, original, goal);
    ValidNumbers(j);
    SweepForwardFinishes(m, j, j.actions, 0, original, goal);
    var r := SweepForward(m, j, j.actions, 0);
    if r.ok {
      EnsureTargetSafe(r.m, r.j, p, original, goal);
      var e := EnsureTarget(r.m, r.j, p);
      if e.ok {
        var next := e.j.(authority := Target, phase := Complete);
        TargetParts(e.m, original, goal);
        CompleteIsHonest(e.j, e.m.world, goal);
        CompleteIsTarget(e.j, goal);
        SaveTargetSafe(e.m, next, original, goal);
      }
    }
  }

  lemma ValidNumbers(j: Journal)
    requires ValidJournal(j)
    ensures forall i :: 0 <= i < |j.actions| ==> j.actions[i].seqNo == i + 1
  {
  }

  lemma CompleteIsHonest(j: Journal, world: World, goal: Goal)
    requires Honest(j, world, goal)
    ensures Honest(j.(authority := Target, phase := Complete), world, goal)
  {
  }
}
