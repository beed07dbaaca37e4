/**
  An activation that is published but not synced: a power loss takes it back. Until it is
  synced, recovery can move nothing but the switches that `EnsureTarget` sets.
 */
module InstallUndecided {
  import opened Options
  import opened InstallJournal
  import opened InstallEngine
  import opened InstallRollback
  import opened InstallRollforward

  predicate Undecided(m: Machine) { m.visible.authority.Target? && m.durable.authority.Source? }

  // ---- The switches that recovery sets ----

  /** Whether the operation asks for the switch; a service is always unmasked. */
  predicate Wanted(asked: (bool, bool), subject: Subject) {
    subject.Masking? || (subject.Enablement? && asked.0) || (subject.Running? && asked.1)
  }

  function Off(subject: Subject): Token {
    Text(if subject.Masking? then "masked" else if subject.Enablement? then "disabled" else "stopped")
  }

  function On(subject: Subject): Token {
    Text(if subject.Masking? then "unmasked" else if subject.Enablement? then "enabled" else "running")
  }

  /** The action that turns a switch on. */
  function Turning(subject: Subject): Action {
    if subject.Masking? then ServiceAction(Unmask, "masked", "unmasked")
    else if subject.Enablement? then ServiceAction(Enable, "disabled", "enabled")
    else ServiceAction(Start, "stopped", "running")
  }

  lemma TurningFits(asked: (bool, bool), subject: Subject)
    requires Wanted(asked, subject)
    ensures var a := Turning(subject);
            && KeyOf(a) == Switch(subject) && a.oldState == Off(subject) && a.newState == On(subject)
            && ValidAction(a.(seqNo := 1)) && !SubjectOf(a.kind).Reloads? && !a.kind.Activation?
  {
  }

  /** A switch that recovery would move forwards and rollback would not find in the journal. */
  ghost predicate Exposed(actions: seq<Action>, original: World, asked: (bool, bool), subject: Subject) {
    && Wanted(asked, subject)
    && Switch(subject) in original && original[Switch(subject)] == Off(subject)
    && !Journaled(actions, Switch(subject))
  }

  ghost predicate Covered(actions: seq<Action>, original: World, asked: (bool, bool)) {
    forall subject :: !Exposed(actions, original, asked, subject)
  }

  // ---- What recovery keeps until the activation is synced ----

  /** An action whose effect rollback can do without, or will find in the journal. */
  ghost predicate Settled(a: Action, actions: seq<Action>) {
    a.kind.Activation? || SubjectOf(a.kind).Reloads? || Journaled(actions, KeyOf(a))
  }

  ghost predicate OpenSettled(open: seq<Action>, actions: seq<Action>) {
    forall i :: 0 <= i < |open| && open[i].status.Intent? ==> Settled(open[i], actions)
  }

  /** While the activation may be taken back, the document behind it records every key that moved or may move. */
  ghost predicate Steady(m: Machine, original: World, p: Policy) {
    Undecided(m) ==>
      && m.world.Keys == original.Keys
      && OnlyRecordedMoved(m.durable.actions, m.world, original, true)
      && Covered(m.durable.actions, original, TargetPolicy(p, m.visible))
      && OpenSettled(m.visible.actions, m.durable.actions)
  }

  /** What a part of a rollforward leaves behind. */
  ghost predicate Steadied(r: Run, j: Journal, original: World, p: Policy) {
    && Steady(r.m, original, p) && r.m.visible.authority.Target?
    && (r.ok ==> r.m.visible == r.j && r.j == j.(actions := r.j.actions))
  }

  lemma SaveSteady(m: Machine, next: Journal, original: World, p: Policy)
    requires Steady(m, original, p) && m.visible.authority.Target? && next.authority.Target?
    requires TargetPolicy(p, next) == TargetPolicy(p, m.visible)
    requires Undecided(m) ==> OpenSettled(next.actions, m.durable.actions)
    ensures var r := Save(m, next);
            && Steady(r.m, original, p) && r.m.visible.authority.Target? && r.m.world == m.world
            && (r.ok ==> r.m.visible == next && r.j == next && !Undecided(r.m))
  {
    hide TargetPolicy, OnlyRecordedMoved, Covered, OpenSettled;
  }

  lemma EffectSteady(m: Machine, a: Action, original: World, p: Policy)
    requires Steady(m, original, p) && (Undecided(m) ==> Settled(a, m.durable.actions))
    ensures var (m', ok) := Apply(m, a);
            Steady(m', original, p) && m'.visible == m.visible && m'.durable == m.durable
  {
    hide TargetPolicy, Covered, OpenSettled;
    var (m', ok) := Apply(m, a);
    if Undecided(m) && !a.kind.Activation? {
      forall key | key in original && key in m'.world && Tracked(key, true) && m'.world[key] != original[key]
        ensures exists i :: 0 <= i < |m.durable.actions| && IsForward(m.durable.actions[i]) && KeyOf(m.durable.actions[i]) == key
      {
        if m'.world[key] != m.world[key] { assert Journaled(m.durable.actions, key); }
      }
    }
  }

  lemma DoneSteady(m: Machine, j: Journal, a: Action, original: World, p: Policy)
    requires Steady(m, original, p) && m.visible == j && j.authority.Target? && a.status.Done?
    ensures Steadied(RecordDone(m, j, a), j, original, p)
  {
    hide Save, Settled, OnlyRecordedMoved, Covered, FindRecord;
    var i := FindRecord(j.actions, a);
    if i < |j.actions| {
      var next := j.(actions := j.actions[i := FillFrom(a, j.actions[i])]);
      assert OpenSettled(j.actions, m.durable.actions) ==> OpenSettled(next.actions, m.durable.actions);
      SaveSteady(m, next, original, p);
    }
  }

  lemma IntentSteady(m: Machine, j: Journal, a: Action, original: World, p: Policy)
    requires Steady(m, original, p) && m.visible == j && j.authority.Target?
    requires Undecided(m) ==> Settled(a, m.durable.actions)
    ensures var r := RecordIntent(m, j, a);
            Steadied(r, j, original, p) && (r.ok ==> !Undecided(r.m) && |r.j.actions| == |j.actions| + 1)
  {
    hide Save, OnlyRecordedMoved, Covered;
    var a' := a.(seqNo := |j.actions| + 1, status := Intent);
    assert Settled(a, m.durable.actions) ==> Settled(a', m.durable.actions);
    SaveSteady(m, j.(actions := j.actions + [a']), original, p);
  }

  lemma StepSteady(m: Machine, j: Journal, a: Action, original: World, p: Policy)
    requires Steady(m, original, p) && m.visible == j && j.authority.Target?
    requires Undecided(m) ==> Settled(a, m.durable.actions)
    ensures Steadied(Step(m, j, a), j, original, p)
  {
    hide RecordIntent, RecordDone, Apply, Settled, OnlyRecordedMoved, Covered, OpenSettled;
    IntentSteady(m, j, a, original, p);
    var r := RecordIntent(m, j, a);
    if r.ok {
      var last := r.j.actions[|r.j.actions| - 1];
      EffectSteady(r.m, last, original, p);
      var (m', ok) := Apply(r.m, last);
      if ok { DoneSteady(m', r.j, last.(status := Done), original, p); }
    }
  }

  lemma FinishSteady(m: Machine, j: Journal, a: Action, original: World, p: Policy)
    requires Steady(m, original, p) && m.visible == j && j.authority.Target?
    ensures Steadied(FinishAction(m, j, a), j, original, p)
  {
    hide RecordDone, Apply, Settled, OnlyRecordedMoved, Covered, Observe, Classify, FindSeq;
    var i := FindSeq(j.actions, a.seqNo);
    if i < |j.actions| && j.actions[i].status.Intent? {
      var current := j.actions[i];
      DoneSteady(m, j, current.(status := Done), original, p);
      EffectSteady(m, current, original, p);
      var (m', ok) := Apply(m, current);
      DoneSteady(m', j, current.(status := Done), original, p);
    }
  }

  lemma {:induction false} SweepSteady(m: Machine, j: Journal, snapshot: seq<Action>, from: nat, original: World, p: Policy)
    requires Steady(m, original, p) && m.visible == j && j.authority.Target? && from <= |snapshot|
    ensures Steadied(SweepForward(m, j, snapshot, from), j, original, p)
    decreases |snapshot| - from
  {
    hide FinishAction, Steady;
    if from < |snapshot| {
      FinishSteady(m, j, snapshot[from], original, p);
      var r := FinishAction(m, j, snapshot[from]);
      if r.ok { SweepSteady(r.m, r.j, snapshot, from + 1, original, p); }
    }
  }

  /** A switch that is off and asked for is journaled, because it is not exposed. */
  lemma OffIsSettled(m: Machine, subject: Subject, original: World, p: Policy)
    requires Steady(m, original, p) && Undecided(m) && Wanted(TargetPolicy(p, m.visible), subject)
    requires Switch(subject) in m.world && m.world[Switch(subject)] == Off(subject)
    ensures Journaled(m.durable.actions, Switch(subject))
  {
    hide TargetPolicy, OpenSettled;
    var asked := TargetPolicy(p, m.visible);
    assert !Exposed(m.durable.actions, original, asked, subject);
    if m.world[Switch(subject)] != original[Switch(subject)] { assert Tracked(Switch(subject), true); }
  }

  lemma EnsureSteady(m: Machine, j: Journal, a: Action, original: World, p: Policy)
    requires Steady(m, original, p) && m.visible == j && j.authority.Target? && !a.kind.Activation?
    requires KeyOf(a) == Switch(SubjectOf(a.kind)) && a.oldState == Off(SubjectOf(a.kind))
    requires Wanted(TargetPolicy(p, j), SubjectOf(a.kind))
    ensures Steadied(EnsureAction(m, j, a), j, original, p)
  {
    hide Step, Steady, TargetPolicy, Wanted, Off, SubjectOf, Undecided;
    if KeyOf(a) in m.world && m.world[KeyOf(a)] == a.oldState {
      if Undecided(m) { OffIsSettled(m, SubjectOf(a.kind), original, p); }
      StepSteady(m, j, a, original, p);
    }
  }

  lemma EnsureReloadSteady(m: Machine, j: Journal, original: World, p: Policy)
    requires Steady(m, original, p) && m.visible == j && j.authority.Target?
    ensures Steadied(EnsureReload(m, j), j, original, p)
  {
    hide Step, Steady, ReloadedAfterActivation;
    StepSteady(m, j, ReloadAction(m.world, Reload), original, p);
  }

  lemma SwitchActions()
    ensures var unmask := ServiceAction(Unmask, "masked", "unmasked"); SubjectOf(unmask.kind) == Masking && KeyOf(unmask) == Switch(Masking)
    ensures var enable := ServiceAction(Enable, "disabled", "enabled"); SubjectOf(enable.kind) == Enablement && KeyOf(enable) == Switch(Enablement)
    ensures var start := ServiceAction(Start, "stopped", "running"); SubjectOf(start.kind) == Running && KeyOf(start) == Switch(Running)
  {
  }

  lemma SamePolicy(p: Policy, j: Journal, j': Journal)
    requires j' == j.(actions := j'.actions)
    ensures TargetPolicy(p, j') == TargetPolicy(p, j)
  {
  }

  lemma EnsureTargetSteady(m: Machine, j: Journal, original: World, p: Policy)
    requires Steady(m, original, p) && m.visible == j && j.authority.Target?
    ensures Steadied(EnsureTarget(m, j, p), j, original, p)
  {
    hide EnsureAction, EnsureReload, TargetPolicy, Steady, SubjectOf, KeyOf;
    SwitchActions();
    var (enabled, running) := TargetPolicy(p, j);
    var unmask := ServiceAction(Unmask, "masked", "unmasked");
    EnsureSteady(m, j, unmask, original, p);
    var r := EnsureAction(m, j, unmask);
    if r.ok {
      SamePolicy(p, j, r.j);
      var enable := ServiceAction(Enable, "disabled", "enabled");
      if enabled { EnsureSteady(r.m, r.j, enable, original, p); }
      var e := if enabled then EnsureAction(r.m, r.j, enable) else r;
      if e.ok {
        EnsureReloadSteady(e.m, e.j, original, p);
        var l := EnsureReload(e.m, e.j);
        if l.ok && running {
          SamePolicy(p, j, l.j);
          EnsureSteady(l.m, l.j, ServiceAction(Start, "stopped", "running"), original, p);
        }
      }
    }
  }

  /** However a rollforward is cut, every key it moved can still be found by a rollback. */
  lemma RollforwardSteady(m: Machine, original: World, p: Policy)
    requires Steady(m, original, p) && m.visible.authority.Target?
    ensures Steady(Rollforward(m, m.visible, p).m, original, p)
  {
    hide SweepForward, EnsureTarget, Save, OnlyRecordedMoved, Covered;
    var j := m.visible;
    SweepSteady(m, j, j.actions, 0, original, p);
    var r := SweepForward(m, j, j.actions, 0);
    if r.ok {
      EnsureTargetSteady(r.m, r.j, original, p);
      var e := EnsureTarget(r.m, r.j, p);
      if e.ok { SaveSteady(e.m, e.j.(authority := Target, phase := Complete), original, p); }
    }
  }
}
