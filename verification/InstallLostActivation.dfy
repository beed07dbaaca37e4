/**
  When a power loss that takes a published activation back leaves a switch behind, exactly.
  A recovery may perform an effect whose intent is published but not synced. If power is
  lost then, the machine is rolled back without a record of that effect.
 */
module InstallLostActivation {
  import opened Options
  import opened InstallJournal
  import opened InstallEngine
  import opened InstallRollback
  import opened InstallRollforward
  import opened InstallUndecided
  import opened InstallAtomicity
  import opened InstallPlans
  import opened InstallExactness

  /** One of the two tokens of a switch. */
  predicate Either(t: Token, subject: Subject) { t == Off(subject) || t == On(subject) }

  /** Each switch that is asked for moves between its two tokens. */
  ghost predicate TwoValued(actions: seq<Action>, original: World, asked: (bool, bool)) {
    forall subject :: Wanted(asked, subject) ==>
      && Switch(subject) in original && Either(original[Switch(subject)], subject)
      && forall i :: 0 <= i < |actions| && IsForward(actions[i]) && KeyOf(actions[i]) == Switch(subject) ==>
           Either(actions[i].oldState, subject) && Either(actions[i].newState, subject)
  }

  // ---- Recoveries that publish and do not sync ----

  lemma HalfSave(m: Machine, next: Journal)
    requires m.fates == [HalfDone] && ValidJournal(next)
    ensures var r := Save(m, next);
            !r.ok && r.m.visible == next && r.m.durable == m.durable && r.m.world == m.world
  {
  }

  /** The machine after an unsynced activation: everything announced is done, nothing of it is synced. */
  ghost predicate Adrift(m: Machine, d: Journal, asked: (bool, bool), p: Policy) {
    && m.durable == d && m.visible.authority.Target? && ValidJournal(m.visible) && TargetPolicy(p, m.visible) == asked
    && AllDone(m.visible.actions, |m.visible.actions|)
    && (exists i :: 0 <= i < |m.visible.actions| && m.visible.actions[i].kind.Activation?)
    && CanReload(m.world)
    && forall subject :: Wanted(asked, subject) ==> Switch(subject) in m.world && Either(m.world[Switch(subject)], subject)
  }

  predicate IsOff(world: World, subject: Subject) { Switch(subject) in world && world[Switch(subject)] == Off(subject) }

  /** What `EnsureTarget` announces next. */
  ghost function Next(m: Machine, asked: (bool, bool)): Option<Action> {
    if IsOff(m.world, Masking) then Some(Turning(Masking))
    else if asked.0 && IsOff(m.world, Enablement) then Some(Turning(Enablement))
    else if !ReloadedAfterActivation(m.visible.actions) then Some(ReloadAction(m.world, Reload))
    else if asked.1 && IsOff(m.world, Running) then Some(Turning(Running))
    else None
  }

  function Announced(j: Journal, a: Action): Journal {
    j.(actions := j.actions + [a.(seqNo := |j.actions| + 1, status := Intent)])
  }

  /** The intent is published, nothing else happens. */
  ghost predicate Announces(r: Run, m: Machine, j: Journal, a: Action) {
    !r.ok && r.m.visible == Announced(j, a) && r.m.durable == m.durable && r.m.world == m.world && ValidJournal(r.m.visible)
  }

  lemma StepAnnounces(m: Machine, j: Journal, a: Action)
    requires m.fates == [HalfDone] && ValidJournal(j) && ValidAction(a.(seqNo := 1))
    ensures Announces(Step(m, j, a), m, j, a)
  {
    hide Save;
    HalfSave(m, Announced(j, a));
  }

  lemma TurnAnnounces(m: Machine, j: Journal, asked: (bool, bool), subject: Subject)
    requires m.fates == [HalfDone] && ValidJournal(j) && Wanted(asked, subject)
    requires Switch(subject) in m.world && Either(m.world[Switch(subject)], subject)
    ensures var r := EnsureAction(m, j, Turning(subject));
            if IsOff(m.world, subject) then Announces(r, m, j, Turning(subject)) else r == Run(m, j, true)
  {
    hide Step, Turning, Wanted;
    TurningFits(asked, subject);
    StepAnnounces(m, j, Turning(subject));
  }

  lemma EnsureAnnounces(m: Machine, p: Policy, d: Journal, asked: (bool, bool))
    requires Adrift(m, d, asked, p) && m.fates == [HalfDone] && Next(m, asked).Some?
    ensures Announces(EnsureTarget(m, m.visible, p), m, m.visible, Next(m, asked).value)
  {
    hide EnsureAction, Step, TargetPolicy, ReloadedAfterActivation, Either, Announces, IsOff, ValidJournal, AllDone;
    var j := m.visible;
    TurnAnnounces(m, j, asked, Masking);
    if asked.0 { TurnAnnounces(m, j, asked, Enablement); }
    StepAnnounces(m, j, ReloadAction(m.world, Reload));
    if asked.1 { TurnAnnounces(m, j, asked, Running); }
    AnnouncedFails(m, j);
  }

  lemma AnnouncedFails(m: Machine, j: Journal)
    ensures forall r, a :: Announces(r, m, j, a) ==> !r.ok
  {
  }

  lemma {:induction false} SkipsDone(m: Machine, j: Journal, from: nat, n: nat)
    requires ValidJournal(j) && from <= n <= |j.actions| && AllDone(j.actions, n)
    ensures SweepForward(m, j, j.actions, from) == SweepForward(m, j, j.actions, n)
    decreases n - from
  {
    hide FinishAction;
    if from < n {
      FinishDoneSkips(m, j, from);
      SkipsDone(m, j, from + 1, n);
    }
  }

  /** A recovery that dies while it announces the next effect. */
  lemma RecoveryAnnounces(m: Machine, p: Policy, d: Journal, asked: (bool, bool))
    requires Adrift(m, d, asked, p) && m.fates == [HalfDone] && Next(m, asked).Some?
    ensures Announces(RecoverOnce(m, p), m, m.visible, Next(m, asked).value)
  {
    hide EnsureTarget, FinishAction, TargetPolicy, Next, Announces;
    SkipsDone(m, m.visible, 0, |m.visible.actions|);
    EnsureAnnounces(m, p, d, asked);
    AnnouncedFails(m, m.visible);
  }

  function Completed(j: Journal, n: nat): Journal
    requires n < |j.actions|
  {
    j.(actions := j.actions[n := j.actions[n].(status := Done)])
  }

  /** The last action is open, and everything before it is done. */
  ghost predicate LastOpen(j: Journal, n: nat) {
    j.authority.Target? && ValidJournal(j) && |j.actions| == n + 1 && AllDone(j.actions, n) && j.actions[n].status.Intent?
  }

  /** A recovery that dies while it records the last action as done. */
  lemma RecoveryFinishes(m: Machine, p: Policy, n: nat)
    requires LastOpen(m.visible, n)
    requires var c := m.visible.actions[n];
             if c.kind.Activation? then c.newState == AuthorityToken(Target) != c.oldState && m.fates == [HalfDone]
             else KeyOf(c) in m.world && m.world[KeyOf(c)] == c.oldState && m.fates == [Proceed, HalfDone]
    ensures var c := m.visible.actions[n];
            var r := RecoverOnce(m, p).m;
            && r.visible == Completed(m.visible, n) && r.durable == m.durable && ValidJournal(r.visible)
            && r.world == if c.kind.Activation? then m.world else m.world[KeyOf(c) := c.newState]
  {
    hide EnsureTarget, RecordDone, Save, FinishAction, KeyOf, SweepForward;
    var j := m.visible;
    SkipsDone(m, j, 0, n);
    FinishesLast(m, n);
    SweepsLast(m, j, n);
  }

  lemma SweepsLast(m: Machine, j: Journal, n: nat)
    requires |j.actions| == n + 1 && !FinishAction(m, j, j.actions[n]).ok
    ensures SweepForward(m, j, j.actions, n) == FinishAction(m, j, j.actions[n])
  {
    hide FinishAction;
  }

  lemma FinishesLast(m: Machine, n: nat)
    requires LastOpen(m.visible, n)
    requires var c := m.visible.actions[n];
             if c.kind.Activation? then c.newState == AuthorityToken(Target) != c.oldState && m.fates == [HalfDone]
             else KeyOf(c) in m.world && m.world[KeyOf(c)] == c.oldState && m.fates == [Proceed, HalfDone]
    ensures var c := m.visible.actions[n];
            var r := FinishAction(m, m.visible, c);
            && !r.ok && r.m.visible == Completed(m.visible, n) && r.m.durable == m.durable && ValidJournal(r.m.visible)
            && r.m.world == if c.kind.Activation? then m.world else m.world[KeyOf(c) := c.newState]
  {
    hide RecordDone, Save, KeyOf;
    var j := m.visible;
    var c := j.actions[n];
    FindSeqAt(j, n);
    if c.kind.Activation? {
      RecordDoneIsSave(m, j, n);
      HalfSave(m, Completed(j, n));
    } else {
      var (m', ok) := Apply(m, c);
      RecordDoneIsSave(m', j, n);
      HalfSave(m', Completed(j, n));
    }
  }

  // ---- Drifting on ----

  lemma NextFits(m: Machine, d: Journal, asked: (bool, bool), p: Policy)
    requires Adrift(m, d, asked, p) && Next(m, asked).Some?
    ensures var a := Next(m, asked).value;
            && !a.kind.Activation? && ValidAction(a.(seqNo := 1)) && KeyOf(a) in m.world && m.world[KeyOf(a)] == a.oldState
            && if SubjectOf(a.kind).Reloads? then KeyOf(a) == RELOAD_KEY && a.newState.ReloadAt? && !ReloadedAfterActivation(m.visible.actions)
               else exists subject :: Wanted(asked, subject) && KeyOf(a) == Switch(subject) && IsOff(m.world, subject) && a.newState == On(subject)
  {
    hide TargetPolicy, ReloadedAfterActivation, AllDone, ValidJournal;
    var a := Next(m, asked).value;
    if IsOff(m.world, Masking) { assert Wanted(asked, Masking); TurningFits(asked, Masking); }
    else if asked.0 && IsOff(m.world, Enablement) { assert Wanted(asked, Enablement); TurningFits(asked, Enablement); }
    else if ReloadedAfterActivation(m.visible.actions) { assert Wanted(asked, Running); TurningFits(asked, Running); }
  }

  /** Where two more recoveries lead that do not sync what they announce and do. */
  ghost predicate Drifts(m: Machine, m': Machine, a: Action) {
    && m'.durable == m.durable && m'.world == m.world[KeyOf(a) := a.newState]
    && m'.visible == m.visible.(actions := m.visible.actions + [a.(seqNo := |m.visible.actions| + 1, status := Done)])
    && ValidJournal(m'.visible)
  }

  function TwoCuts(loss: bool): seq<Attempt> { [Attempt([HalfDone], false), Attempt([Proceed, HalfDone], loss)] }

  lemma {:induction false} AttemptsAppend(m: Machine, p: Policy, a: seq<Attempt>, b: seq<Attempt>)
    ensures AfterAttempts(m, p, a + b) == AfterAttempts(AfterAttempts(m, p, a), p, b)
    decreases |b|
  {
    hide AfterAttempt;
    if b == [] {
      assert a + b == a;
    } else {
      assert (a + b)[..|a + b| - 1] == a + b[..|b| - 1] && (a + b)[|a + b| - 1] == b[|b| - 1];
      AttemptsAppend(m, p, a, b[..|b| - 1]);
    }
  }

  lemma TwoAttempts(m: Machine, p: Policy, a: Attempt, b: Attempt)
    ensures AfterAttempts(m, p, [a, b]) == AfterAttempt(AfterAttempt(m, p, a), p, b)
  {
    hide AfterAttempt;
    assert [a, b] == [a] + [b];
    AttemptsAppend(m, p, [a], [b]);
    OneAttempt(m, p, a);
    OneAttempt(AfterAttempt(m, p, a), p, b);
  }

  lemma Drift(m: Machine, p: Policy, d: Journal, asked: (bool, bool), loss: bool)
    requires Adrift(m, d, asked, p) && Next(m, asked).Some?
    ensures var m' := AfterAttempts(m, p, TwoCuts(loss));
            var a := Next(m, asked).value;
            if loss then m'.visible == m'.durable == d && m'.world == m.world[KeyOf(a) := a.newState] else Drifts(m, m', a)
  {
    hide Next, RecoverOnce, TargetPolicy, AfterAttempts, KeyOf, SubjectOf;
    var j := m.visible;
    var n := |j.actions|;
    var a := Next(m, asked).value;
    NextFits(m, d, asked, p);
    TwoAttempts(m, p, TwoCuts(loss)[0], TwoCuts(loss)[1]);
    AdriftStill(m, d, asked, p, [HalfDone]);
    RecoveryAnnounces(m.(fates := [HalfDone]), p, d, asked);
    var m1 := RecoverOnce(m.(fates := [HalfDone]), p).m;
    var c := m1.visible.actions[n];
    SameKeyAs(a, c);
    RecoveryFinishes(m1.(fates := [Proceed, HalfDone]), p, n);
    assert Completed(m1.visible, n).actions == j.actions + [a.(seqNo := n + 1, status := Done)];
  }

  lemma SameKeyAs(a: Action, c: Action)
    requires c == a.(seqNo := c.seqNo, status := c.status)
    ensures KeyOf(c) == KeyOf(a)
  {
  }

  lemma AdriftStill(m: Machine, d: Journal, asked: (bool, bool), p: Policy, fates: seq<Fate>)
    requires Adrift(m, d, asked, p)
    ensures Adrift(m.(fates := fates), d, asked, p) && Next(m.(fates := fates), asked) == Next(m, asked)
  {
    hide TargetPolicy, ReloadedAfterActivation, AllDone, ValidJournal;
  }

  /** Drifting turns one switch on, or reloads, and stays adrift. */
  lemma DriftsOn(m: Machine, m': Machine, p: Policy, d: Journal, asked: (bool, bool))
    requires Adrift(m, d, asked, p) && Next(m, asked).Some? && Drifts(m, m', Next(m, asked).value)
    ensures Adrift(m', d, asked, p) && Moved(m.world, m'.world, asked) && Ahead(m', asked) < Ahead(m, asked)
  {
    hide Next, ReloadedAfterActivation, KeyOf, SubjectOf, TargetPolicy, ValidJournal, IsOff, AllDone;
    LastMove(m, m'.world, p, d, asked);
    DocumentDrifts(m, m', p, d, asked);
    SwitchesDrift(m, m', p, d, asked);
    SwitchesStay(m.world, m'.world, asked);
  }

  lemma DocumentDrifts(m: Machine, m': Machine, p: Policy, d: Journal, asked: (bool, bool))
    requires Adrift(m, d, asked, p) && Next(m, asked).Some? && Drifts(m, m', Next(m, asked).value)
    ensures TargetPolicy(p, m'.visible) == asked && AllDone(m'.visible.actions, |m'.visible.actions|)
    ensures exists i :: 0 <= i < |m'.visible.actions| && m'.visible.actions[i].kind.Activation?
    ensures ReloadedAfterActivation(m.visible.actions) || SubjectOf(Next(m, asked).value.kind).Reloads? ==>
              ReloadedAfterActivation(m'.visible.actions)
  {
    hide Next, ReloadedAfterActivation, KeyOf, SubjectOf, TargetPolicy, ValidJournal, IsOff;
    var a := Next(m, asked).value;
    var i :| 0 <= i < |m.visible.actions| && m.visible.actions[i].kind.Activation?;
    assert m'.visible.actions[i] == m.visible.actions[i];
    SamePolicy(p, m.visible, m'.visible);
    if SubjectOf(a.kind).Reloads? { ReloadCounts(m.visible.actions, i, m'.visible.actions, a); }
    if ReloadedAfterActivation(m.visible.actions) { ReloadedStays(m.visible.actions, m'.visible.actions); }
  }

  lemma SwitchesDrift(m: Machine, m': Machine, p: Policy, d: Journal, asked: (bool, bool))
    requires Adrift(m, d, asked, p) && Next(m, asked).Some? && Drifts(m, m', Next(m, asked).value)
    requires ReloadedAfterActivation(m.visible.actions) || SubjectOf(Next(m, asked).value.kind).Reloads? ==>
               ReloadedAfterActivation(m'.visible.actions)
    ensures Ahead(m', asked) < Ahead(m, asked)
  {
    hide Next, ReloadedAfterActivation, KeyOf, SubjectOf, TargetPolicy, ValidJournal, AllDone;
    NextFits(m, d, asked, p);
  }

  lemma SwitchesStay(w: World, v: World, asked: (bool, bool))
    requires Moved(w, v, asked)
    requires forall subject :: Wanted(asked, subject) ==> Switch(subject) in w && Either(w[Switch(subject)], subject)
    ensures forall subject :: Wanted(asked, subject) ==> Switch(subject) in v && Either(v[Switch(subject)], subject)
  {
  }

  lemma ReloadCounts(actions: seq<Action>, i: nat, b: seq<Action>, a: Action)
    requires i < |actions| && actions[i].kind.Activation? && AllDone(actions, |actions|) && SubjectOf(a.kind).Reloads?
    requires b == actions + [a.(seqNo := |actions| + 1, status := Done)]
    ensures ReloadedAfterActivation(b)
  {
    assert b[i] == actions[i] && b[|actions|].kind == a.kind && b[|actions|].status.Done?;
  }

  /** Switches that are asked for went from off to on, and nothing else changed but the reloads. */
  ghost predicate Moved(w: World, v: World, asked: (bool, bool)) {
    && v.Keys == w.Keys && CanReload(v)
    && forall key :: key in w && !key.subject.Reloads? && v[key] != w[key] ==>
         Wanted(asked, key.subject) && key == Switch(key.subject) && w[key] == Off(key.subject) && v[key] == On(key.subject)
  }

  /** What is left to announce. */
  ghost function Ahead(m: Machine, asked: (bool, bool)): nat {
    (if IsOff(m.world, Masking) then 1 else 0) + (if asked.0 && IsOff(m.world, Enablement) then 1 else 0)
    + (if ReloadedAfterActivation(m.visible.actions) then 0 else 1) + (if asked.1 && IsOff(m.world, Running) then 1 else 0)
  }

  lemma MovedFurther(u: World, w: World, v: World, asked: (bool, bool))
    requires Moved(u, w, asked) && Moved(w, v, asked)
    ensures Moved(u, v, asked)
  {
  }

  lemma LastMove(m: Machine, w: World, p: Policy, d: Journal, asked: (bool, bool))
    requires Adrift(m, d, asked, p) && Next(m, asked).Some? && w == m.world[KeyOf(Next(m, asked).value) := Next(m, asked).value.newState]
    ensures Moved(m.world, w, asked)
  {
    hide Next, ReloadedAfterActivation, KeyOf, SubjectOf, TargetPolicy, ValidJournal;
    NextFits(m, d, asked, p);
  }

  lemma OffIsNext(m: Machine, asked: (bool, bool), subject: Subject)
    requires Wanted(asked, subject) && IsOff(m.world, subject)
    ensures Next(m, asked).Some?
  {
    hide ReloadedAfterActivation;
  }

  /** Until the given switch is on; then power is lost. */
  lemma {:induction false} DriftUntil(m: Machine, p: Policy, d: Journal, asked: (bool, bool), subject: Subject) returns (attempts: seq<Attempt>)
    requires Adrift(m, d, asked, p) && Wanted(asked, subject) && IsOff(m.world, subject)
    ensures var m' := AfterAttempts(m, p, attempts);
            && m'.visible == d && m'.durable == d && Moved(m.world, m'.world, asked)
            && m'.world[Switch(subject)] == On(subject)
    decreases Ahead(m, asked)
  {
    hide Next, Adrift, KeyOf, AfterAttempts, Moved, SubjectOf;
    OffIsNext(m, asked, subject);
    var a := Next(m, asked).value;
    if KeyOf(a) == Switch(subject) {
      attempts := TwoCuts(true);
      Drift(m, p, d, asked, true);
      LastMove(m, AfterAttempts(m, p, attempts).world, p, d, asked);
      NextTurnsOn(m, p, d, asked, subject);
    } else {
      Drift(m, p, d, asked, false);
      var m1 := AfterAttempts(m, p, TwoCuts(false));
      DriftsOn(m, m1, p, d, asked);
      var rest := DriftUntil(m1, p, d, asked, subject);
      attempts := TwoCuts(false) + rest;
      AttemptsAppend(m, p, TwoCuts(false), rest);
      MovedFurther(m.world, m1.world, AfterAttempts(m1, p, rest).world, asked);
    }
    MovedKeys(m.world, AfterAttempts(m, p, attempts).world, asked);
  }

  lemma MovedKeys(w: World, v: World, asked: (bool, bool))
    requires Moved(w, v, asked)
    ensures v.Keys == w.Keys
  {
  }

  lemma NextTurnsOn(m: Machine, p: Policy, d: Journal, asked: (bool, bool), subject: Subject)
    requires Adrift(m, d, asked, p) && Next(m, asked).Some? && KeyOf(Next(m, asked).value) == Switch(subject) && Wanted(asked, subject)
    ensures Next(m, asked).value.newState == On(subject)
  {
    hide Next, ReloadedAfterActivation, TargetPolicy, ValidJournal;
    NextFits(m, d, asked, p);
  }

  // ---- The rollback that does not know ----

  /** A journaled key that is not ended has left its original token. */
  lemma {:induction false} LastToken(trace: seq<Action>, n: nat, original: World, d: DataAction, key: Key) returns (i: nat)
    requires Trace(trace, original, d) && n <= |trace| && key in original && !key.subject.Reloads?
    requires exists h :: 0 <= h < n && IsForward(trace[h]) && KeyOf(trace[h]) == key
    ensures i < n && IsForward(trace[i]) && KeyOf(trace[i]) == key && WorldAt(trace, n, original)[key] == trace[i].newState
    decreases n
  {
    hide ReverseKind, SubjectOf;
    assert TraceStep(trace, n - 1, original, d);
    if IsForward(trace[n - 1]) && KeyOf(trace[n - 1]) == key { i := n - 1; } else { i := LastToken(trace, n - 1, original, d, key); }
  }

  /** The journaled switches that recovery turned on again. */
  ghost function TurnedBack(s: Scene, world: World): set<Key> {
    set key | key in s.world && key in world && !key.subject.Reloads? && Journaled(s.actions, key) && world[key] != s.world[key]
  }

  /** Such a switch was on in the first place, and what turned it off started there. */
  lemma TurnedBackIsCalm(s: Scene, world: World, original: World, d: DataAction, asked: (bool, bool), key: Key)
    requires Traced(s, original, d) && Moved(s.world, world, asked) && TwoValued(s.actions, original, asked) && key in TurnedBack(s, world)
    ensures Calm(s.actions, key, original) && world[key] == original[key]
  {
    hide ReverseKind, SubjectOf, KeyOf, WorldAt;
    var subject := key.subject;
    assert Wanted(asked, subject);
    var h :| 0 <= h < |s.actions| && IsForward(s.actions[h]) && KeyOf(s.actions[h]) == key;
    var last := LastToken(s.actions, |s.actions|, original, d, key);
    assert TraceStep(s.actions, last, original, d);
    forall i | 0 <= i < |s.actions| && IsForward(s.actions[i]) && KeyOf(s.actions[i]) == key
      ensures (if ReverseKind(s.actions[i].kind).Some? then s.actions[i].oldState else s.actions[i].newState) == original[key]
    {
      assert TraceStep(s.actions, i, original, d);
    }
    if original[key] == Off(subject) { OnlyValidationEnds(s, original, d, last); }
  }

  lemma OnlyValidationEnds(s: Scene, original: World, d: DataAction, last: nat)
    requires Traced(s, original, d) && last < |s.actions| && IsForward(s.actions[last])
    ensures ReverseKind(s.actions[last].kind).None? ==> KeyOf(s.actions[last]).subject.Validation?
  {
  }

  lemma DriftedIsLevel(s: Scene, world: World, original: World, d: DataAction, asked: (bool, bool))
    requires Traced(s, original, d) && CanReload(original) && Moved(s.world, world, asked) && TwoValued(s.actions, original, asked)
    ensures var calm := EndedKeys(s.actions) + TurnedBack(s, world);
            Calms(s.actions, calm, original) && Level(world, s.actions, |s.actions|, original, calm)
  {
    hide ReverseKind, SubjectOf, KeyOf, WorldAt, Trace, TwoValued, Calm, IsForward, Journaled, EndedKeys;
    var calm := EndedKeys(s.actions) + TurnedBack(s, world);
    TraceIsLevel(s, original, d);
    forall key | key in EndedKeys(s.actions) ensures key in original ==> world[key] == original[key] {
      EndedIsValidation(s.actions, key);
    }
    forall key | key in TurnedBack(s, world) ensures Calm(s.actions, key, original) && world[key] == original[key] {
      TurnedBackIsCalm(s, world, original, d, asked, key);
    }
  }

  lemma EndedIsValidation(trace: seq<Action>, key: Key)
    requires key in EndedKeys(trace)
    ensures key.subject.Validation?
  {
  }

  function Intended(j: Journal, s: Scene): Journal {
    j.(actions := s.actions + [ActivationAction().(seqNo := |s.actions| + 1)])
  }

  lemma IntendedIsDistinct(s: Scene, original: World, d: DataAction)
    requires Traced(s, original, d)
    ensures Distinct(s.actions + [ActivationAction().(seqNo := |s.actions| + 1)])
  {
    hide Trace, SameIdentity;
    var b := s.actions + [ActivationAction().(seqNo := |s.actions| + 1)];
    TraceIsDistinct(s, original, d);
    assert forall i :: 0 <= i < |s.actions| ==> b[i] == s.actions[i];
  }

  lemma ActivationIsSkipped(m: Machine, j: Journal, a: Action)
    requires a.kind.Activation? && a.oldState == AuthorityToken(Source) && j.authority.Source?
    ensures Visit(m, j, a) == Sweep(Run(m, j, true), false)
  {
    hide FinishAction, Reverse;
  }

  lemma DriftedSweep(m: Machine, j: Journal, s: Scene, original: World, asked: (bool, bool))
    requires Traced(s, original, j.dataAction) && CanReload(original) && TwoValued(s.actions, original, asked)
    requires m.visible == j && ValidJournal(j) && j.authority.Source? && j == Intended(j, s) && m.fates == [] && Moved(s.world, m.world, asked)
    ensures var v := SweepBack(m, j, j.actions, |j.actions|);
            && v.run.ok && ValidJournal(v.run.j) && v.run.m.fates == [] && CanReload(v.run.m.world)
            && SameElsewhere(m.world, v.run.m.world, s.actions)
  {
    hide Trace, Visit, SweepBack, Distinct, Cleaned, Calms, Lucky, Work, TwoValued, EndedKeys, TurnedBack, SameElsewhere, WorldAt, Moved;
    var n := |s.actions|;
    var calm := EndedKeys(s.actions) + TurnedBack(s, m.world);
    DriftedIsLevel(s, m.world, original, j.dataAction, asked);
    IntendedIsDistinct(s, original, j.dataAction);
    NothingReversedYet(j, j.actions, n, calm);
    LuckyNow(m.fates, Work(j.actions, n, calm));
    SweepUnfolds(m, j, j.actions, n + 1);
    ActivationIsSkipped(m, j, j.actions[n]);
    CleanSweep(m, j, j.actions, s.actions, n, n, original, calm);
    CleanedIsValid(SweepBack(m, j, j.actions, n).run.j, j.actions, n, calm);
  }

  /** The uncut rollback succeeds, and leaves alone what no action of the program is about. */
  lemma RollbackPassesBy(m: Machine, s: Scene, original: World, asked: (bool, bool), p: Policy, key: Key)
    requires Traced(s, original, m.visible.dataAction) && CanReload(original) && TwoValued(s.actions, original, asked)
    requires ValidJournal(m.visible) && m.visible.authority.Source? && m.visible == Intended(m.visible, s)
    requires m.fates == [] && Moved(s.world, m.world, asked)
    requires key in m.world && !key.subject.Reloads? && !Journaled(s.actions, key)
    ensures var r := RecoverOnce(m, p); r.ok && key in r.m.world && r.m.world[key] == m.world[key]
  {
    hide Traced, SweepBack, Step, Save, TwoValued, Moved, Journaled, CanReload, ValidJournal;
    var j := m.visible;
    DriftedSweep(m, j, s, original, asked);
    var v := SweepBack(m, j, j.actions, |j.actions|);
    LuckyEnding(v.run.m, v.run.j);
    CompletesAtOnce(v.run.m, v.run.j);
  }

  lemma CompletesAtOnce(m: Machine, j: Journal)
    requires m.fates == [] && ValidJournal(j)
    ensures var r := SetPhase(m, j.(authority := Source), Complete); r.ok && r.m.world == m.world
  {
    LuckySave(m, j.(authority := Source, phase := Complete));
  }

  // ---- The history ----

  function HalfFates(n: nat): seq<Fate> { seq(n, _ => Proceed) + [Proceed, HalfDone] }

  /** The activation is published, but not synced. */
  ghost predicate HalfActive(m: Machine, j: Journal, s: Scene) {
    && m.durable == Intended(m.durable, s) && m.visible == m.durable.(authority := Target, phase := ActivationCommitted)
    && m.durable == j.(actions := m.durable.actions, phase := m.durable.phase) && m.world == s.world && ValidJournal(m.durable)
  }

  lemma ActivatesHalf(m: Machine, j: Journal, s: Scene)
    requires Ready(m, j, s) && m.fates == [Proceed, HalfDone]
    ensures !Activate(m, j).ok && HalfActive(Activate(m, j).m, j, s)
  {
    hide Save;
    var next := Intended(j, s);
    LuckySave(m, next);
    var r := RecordIntent(m, j, ActivationAction());
    assert r.m.fates == [HalfDone];
    HalfSave(r.m, next.(authority := Target, phase := ActivationCommitted));
  }

  lemma RunsHalf(plan: seq<Instr>, rest: seq<Instr>, original: World, j: Journal)
    requires Plan(plan, original, j.dataAction) && FreshJournal(j)
    ensures HalfActive(RunProgram(Begin(original, j, HalfFates(Costs(plan))), j, plan + [DoActivate] + rest).m, j, SceneAfter(plan, original))
  {
    hide Plan, SceneAfter, Activate, RunProgram, HalfActive, Ready;
    var n := Costs(plan);
    var fates := HalfFates(n);
    var m0 := Begin(original, j, fates);
    PlanRuns(plan, original, j, fates);
    var r := RunProgram(m0, j, plan);
    assert r.m.fates == [Proceed, HalfDone];
    RunOne(r.m, r.j, DoActivate);
    ExecuteActivates(r.m, r.j);
    ActivatesHalf(r.m, r.j, SceneAfter(plan, original));
    HalfActiveAs(Activate(r.m, r.j).m, r.j, j, SceneAfter(plan, original));
    RunAppend(m0, j, plan, [DoActivate]);
    RunAppend(m0, j, plan + [DoActivate], rest);
  }

  lemma HalfActiveAs(m: Machine, j: Journal, k: Journal, s: Scene)
    requires HalfActive(m, j, s) && j == k.(actions := j.actions, phase := j.phase)
    ensures HalfActive(m, k, s)
  {
  }

  /** The first recovery dies while it finishes the activation. */
  lemma SetsAdrift(m: Machine, j: Journal, s: Scene, original: World, p: Policy)
    requires HalfActive(m, j, s) && Traced(s, original, j.dataAction) && CanReload(original)
    requires TwoValued(s.actions, original, TargetPolicy(p, j))
    ensures var m' := AfterAttempt(m, p, Attempt([HalfDone], false));
            m'.world == s.world && Adrift(m', m.durable, TargetPolicy(p, j), p)
  {
    hide RecoverOnce, TwoValued, Trace, WorldAt, ValidJournal;
    var n := |s.actions|;
    var m1 := m.(fates := [HalfDone]);
    ActivatedIsOpen(m, j, s, original);
    RecoveryFinishes(m1, p, n);
    var m' := RecoverOnce(m1, p).m;
    assert m'.visible.actions[n].kind.Activation?;
    PolicyKept(p, j, m'.visible);
    WorldCanReload(s.actions, n, original, j.dataAction);
    forall subject | Wanted(TargetPolicy(p, j), subject)
      ensures Switch(subject) in s.world && Either(s.world[Switch(subject)], subject)
    {
      SceneIsTwoValued(s, original, j.dataAction, TargetPolicy(p, j), subject);
    }
  }

  lemma ActivatedIsOpen(m: Machine, j: Journal, s: Scene, original: World)
    requires HalfActive(m, j, s) && Traced(s, original, j.dataAction)
    ensures LastOpen(m.visible, |s.actions|)
  {
    hide TraceStep;
    forall i | 0 <= i < |s.actions| ensures s.actions[i].status.Done? { TraceIsDone(s.actions, original, j.dataAction, i); }
  }

  lemma TraceIsDone(trace: seq<Action>, original: World, d: DataAction, i: nat)
    requires Trace(trace, original, d) && i < |trace|
    ensures trace[i].status.Done?
  {
    hide IsForward, KeyOf, ReverseKind;
    assert TraceStep(trace, i, original, d);
  }

  lemma SceneIsTwoValued(s: Scene, original: World, d: DataAction, asked: (bool, bool), subject: Subject)
    requires Traced(s, original, d) && TwoValued(s.actions, original, asked) && Wanted(asked, subject)
    ensures Switch(subject) in s.world && Either(s.world[Switch(subject)], subject)
  {
    hide WorldAt, KeyOf, IsForward, Trace, Either;
    var key := Switch(subject);
    if Journaled(s.actions, key) {
      var i := LastToken(s.actions, |s.actions|, original, d, key);
    } else {
      TraceUntouched(s, original, d);
    }
  }

  /** An exposed switch has a history that leaves it on. */
  lemma ExposedFails(plan: seq<Instr>, rest: seq<Instr>, original: World, j: Journal, p: Policy, subject: Subject) returns (attempts: seq<Attempt>)
    requires Plan(plan, original, j.dataAction) && FreshJournal(j) && CanReload(original)
    requires TwoValued(SceneAfter(plan, original).actions, original, TargetPolicy(p, j))
    requires Exposed(SceneAfter(plan, original).actions, original, TargetPolicy(p, j), subject)
    ensures var m := AfterCrashes(original, j, plan + [DoActivate] + rest, HalfFates(Costs(plan)), false, p, attempts);
            var r := RecoverOnce(m.(fates := []), p);
            && m.visible.authority.Source? && r.ok
            && Switch(subject) in r.m.world && r.m.world[Switch(subject)] == On(subject)
    ensures !Atomic(original, j, plan + [DoActivate] + rest, HalfFates(Costs(plan)), false, p, attempts, [])
  {
    hide Plan, SceneAfter, RunProgram, RecoverOnce, Journaled, AllBack, CanReload, Traced, TwoValued, AfterAttempt, AfterAttempts, Moved, Adrift, TargetPolicy;
    var s := SceneAfter(plan, original);
    var asked := TargetPolicy(p, j);
    PlanTraced(plan, original, j.dataAction);
    RunsHalf(plan, rest, original, j);
    var m0 := RunProgram(Begin(original, j, HalfFates(Costs(plan))), j, plan + [DoActivate] + rest).m;
    SetsAdrift(m0, j, s, original, p);
    var first := Attempt([HalfDone], false);
    var m1 := AfterAttempt(m0, p, first);
    OneAttempt(m0, p, first);
    StillOff(s, original, j.dataAction, subject);
    var more := DriftUntil(m1, p, m0.durable, asked, subject);
    attempts := [first] + more;
    AttemptsAppend(m0, p, [first], more);
    var m := AfterAttempts(m0, p, attempts);
    MovedKeys(s.world, m.world, asked);
    RollbackPassesBy(m.(fates := []), s, original, asked, p, Switch(subject));
    NotBack(RecoverOnce(m.(fates := []), p).m.world, original, Switch(subject), On(subject));
  }

  lemma StillOff(s: Scene, original: World, d: DataAction, subject: Subject)
    requires Traced(s, original, d) && Switch(subject) in original && original[Switch(subject)] == Off(subject)
    requires !Journaled(s.actions, Switch(subject)) && !subject.Reloads?
    ensures IsOff(s.world, subject)
  {
    hide Traced, Journaled;
    TraceUntouched(s, original, d);
  }

  lemma {:induction false} ActivationScene(plan: seq<Instr>, rest: seq<Instr>, s: Scene)
    requires forall i :: 0 <= i < |plan| ==> !plan[i].DoActivate?
    ensures AtActivation(plan + [DoActivate] + rest, s) == FinalScene(plan, s)
    ensures BehindActivation(plan + [DoActivate] + rest) == rest
    decreases |plan|
  {
    var whole := plan + [DoActivate] + rest;
    if plan == [] {
      assert whole[0] == DoActivate && whole[1..] == rest;
    } else {
      assert whole[0] == plan[0] && whole[1..] == plan[1..] + [DoActivate] + rest;
      ActivationScene(plan[1..], rest, After(plan[0], s));
    }
  }

  /**
    Exactly when a recovery under source authority restores every key, power losses included:
    if and only if every switch that recovery would move forwards is journaled before the
    activation, or not off to begin with.
   */
  lemma ExposureIsExact(plan: seq<Instr>, rest: seq<Instr>, original: World, j: Journal, p: Policy)
    requires Plan(plan, original, j.dataAction) && CanReload(original) && WellPlanned(original, j, plan + [DoActivate] + rest)
    requires TwoValued(SceneAfter(plan, original).actions, original, TargetPolicy(p, j))
    ensures AlwaysAtomic(original, j, plan + [DoActivate] + rest, p) <==>
            Covered(SceneAfter(plan, original).actions, original, TargetPolicy(p, j))
  {
    hide PlanFrom, FinalScene, AfterCrashes, RecoverOnce, AllBack, TwoValued, CanReload, TargetPolicy, Exposed, ProgramFits, KeepsActivation, BackAtOriginal;
    var program := plan + [DoActivate] + rest;
    var actions := SceneAfter(plan, original).actions;
    if subject :| Exposed(actions, original, TargetPolicy(p, j), subject) {
      var attempts := ExposedFails(plan, rest, original, j, p, subject);
    } else {
      PlanFits(plan, Scene([], original, false), original, j.dataAction);
      ActivationScene(plan, rest, Scene([], original, false));
      forall fates, powerLoss, attempts, last ensures Atomic(original, j, program, fates, powerLoss, p, attempts, last) {
        SourceAtomicity(original, j, program, fates, powerLoss, p, attempts, last);
      }
    }
  }
}
