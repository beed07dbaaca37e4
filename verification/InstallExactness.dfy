/**
  When source-side atomicity fails, exactly. Actions claim tokens: an old one they expect
  and a new one they leave. Rollback believes them. It goes wrong if and only if some
  action claims to lead its key to the token the key had in the first place, and every
  action before it told the truth.
 */
module InstallExactness {
  import opened Options
  import opened InstallJournal
  import opened InstallEngine
  import opened InstallRollback
  import opened InstallRollforward
  import opened InstallUndecided
  import opened InstallAtomicity
  import opened InstallPlans

  // ---- Undoing a trace without disturbance ----

  /** Forward actions of distinct identity, and no reversal. */
  ghost predicate Distinct(snapshot: seq<Action>) {
    && (forall i :: 0 <= i < |snapshot| ==> !IsReverse(snapshot[i].kind))
    && (forall i, k {:trigger SameIdentity(snapshot[i], snapshot[k])} ::
          0 <= i < k < |snapshot| && IsForward(snapshot[i]) && IsForward(snapshot[k]) ==> !SameIdentity(snapshot[i], snapshot[k]))
  }

  /** Every action on the key starts from its original token, or leads back to it for good. */
  ghost predicate Calm(trace: seq<Action>, key: Key, original: World) {
    forall i :: 0 <= i < |trace| && IsForward(trace[i]) && KeyOf(trace[i]) == key && key in original ==>
      (if ReverseKind(trace[i].kind).Some? then trace[i].oldState else trace[i].newState) == original[key]
  }

  /** Rollback has nothing to do about the calm keys, and can undo every action on the others. */
  ghost predicate Calms(trace: seq<Action>, calm: set<Key>, original: World) {
    && (forall key :: key in calm ==> Calm(trace, key, original))
    && (forall i :: 0 <= i < |trace| && IsForward(trace[i]) && KeyOf(trace[i]) !in calm ==> ReverseKind(trace[i].kind).Some?)
  }

  /** Calm keys are at their original tokens, and the others the trace is about as after `n` actions. */
  ghost predicate Level(world: World, trace: seq<Action>, n: nat, original: World, calm: set<Key>)
    requires n <= |trace|
  {
    && world.Keys == original.Keys && CanReload(world)
    && forall key :: key in original && !key.subject.Reloads? ==>
         if key in calm then world[key] == original[key]
         else Journaled(trace, key) ==> world[key] == WorldAt(trace, n, original)[key]
  }

  /** Keys that no action of the trace is about stay as they are. */
  ghost predicate SameElsewhere(w: World, v: World, trace: seq<Action>) {
    forall key :: key in w && !key.subject.Reloads? && !Journaled(trace, key) ==> key in v && v[key] == w[key]
  }

  /** Reversals from `top` down to `k` are recorded and done, and no others. */
  ghost predicate Cleaned(j: Journal, snapshot: seq<Action>, top: nat, k: nat, calm: set<Key>) {
    && ValidJournal(j) && k <= top <= |snapshot| && snapshot <= j.actions
    && (forall t :: |snapshot| <= t < |j.actions| ==> IsUndo(j.actions[t]) && j.actions[t].status.Done?)
    && (forall i :: 0 <= i < |snapshot| && IsForward(snapshot[i]) && KeyOf(snapshot[i]) !in calm ==>
          (AlreadyReversed(j.actions, snapshot[i]) <==> k <= i < top))
  }

  /** A reversal of one action of the snapshot is a reversal of no other. */
  lemma ReversalIsOwn(snapshot: seq<Action>, i: nat, k: nat, r: Action)
    requires Distinct(snapshot) && i < |snapshot| && k < |snapshot|
    requires IsForward(snapshot[i]) && IsForward(snapshot[k]) && ReverseKind(snapshot[k].kind).Some?
    requires r.kind == ReverseKind(snapshot[k].kind).value && r.role == snapshot[k].role
    requires r.backup == snapshot[k].backup && r.candidate == snapshot[k].candidate
    ensures Undone(r, snapshot[i]) ==> i == k
  {
    if Undone(r, snapshot[i]) && i != k {
      ReverseKindsPairUp(snapshot[k].kind);
      ReverseKindsPairUp(snapshot[i].kind);
      assert SameIdentity(snapshot[i], snapshot[k]) && SameIdentity(snapshot[k], snapshot[i]);
    }
  }

  lemma CleanedStep(j: Journal, snapshot: seq<Action>, top: nat, k: nat, calm: set<Key>, r: Action)
    requires Cleaned(j, snapshot, top, k, calm) && 0 < k && Distinct(snapshot)
    requires IsForward(snapshot[k - 1]) && ReverseKind(snapshot[k - 1].kind).Some? && snapshot[k - 1].seqNo == k
    requires r == ReversalOf(snapshot[k - 1], snapshot[k - 1].newState).(seqNo := |j.actions| + 1, status := Done)
    requires ValidAction(r)
    ensures Cleaned(j.(actions := j.actions + [r]), snapshot, top, k - 1, calm)
  {
    hide AlreadyReversed, Undone, SubjectOf, Distinct, IsUndo, IsForward, KeyOf;
    var b := j.actions + [r];
    ReversalUndoes(snapshot[k - 1], r);
    forall i | 0 <= i < |snapshot| && IsForward(snapshot[i]) && KeyOf(snapshot[i]) !in calm
      ensures AlreadyReversed(b, snapshot[i]) <==> k - 1 <= i < top
    {
      ReversalIsOwn(snapshot, i, k - 1, r);
      ReversedWithOneMore(j.actions, r, snapshot[i]);
    }
  }

  lemma ReversedWithOneMore(actions: seq<Action>, r: Action, f: Action)
    ensures AlreadyReversed(actions + [r], f) <==> AlreadyReversed(actions, f) || Undone(r, f)
  {
    hide Undone;
    var b := actions + [r];
    assert b[|actions|] == r;
    if AlreadyReversed(actions, f) {
      var t :| 0 <= t < |actions| && Undone(actions[t], f);
      assert Undone(b[t], f);
    }
    if AlreadyReversed(b, f) {
      var t :| 0 <= t < |b| && Undone(b[t], f);
      if t < |actions| { assert Undone(actions[t], f); }
    }
  }

  lemma ReversalUndoes(f: Action, r: Action)
    requires IsForward(f) && ReverseKind(f.kind).Some? && r.seqNo > f.seqNo
    requires r == ReversalOf(f, f.newState).(seqNo := r.seqNo, status := r.status)
    ensures Undone(r, f) && IsUndo(r)
  {
    ReverseKindsPairUp(f.kind);
  }

  /** What a reversal of `f` records, if `f` may be reversed at all. */
  ghost predicate Reversible(f: Action, d: DataAction) {
    && IsForward(f) && ReverseKind(f.kind).Some? && ValidAction(f.(seqNo := 1))
    && (f.kind.DataPublish? ==> f.oldState == ABSENT && d.CreateData?)
  }

  lemma ReversalFits(f: Action, d: DataAction)
    requires Reversible(f, d)
    ensures var r := ReversalOf(f, f.newState);
            && KeyOf(r) == KeyOf(f) && !r.kind.Activation? && r.oldState == f.newState && r.newState == f.oldState
            && ValidAction(r.(seqNo := 1))
  {
    ReverseKindsPairUp(f.kind);
  }

  /** An undisturbed visit of an action whose new token is in place reverses it. */
  lemma LuckyReversal(m: Machine, j: Journal, snapshot: seq<Action>, top: nat, k: nat, calm: set<Key>)
    requires 0 < k <= |snapshot| && Cleaned(j, snapshot, top, k, calm) && Distinct(snapshot) && snapshot[k - 1].seqNo == k
    requires Reversible(snapshot[k - 1], j.dataAction) && KeyOf(snapshot[k - 1]) !in calm && Lucky(m.fates, 3)
    requires KeyOf(snapshot[k - 1]) in m.world && m.world[KeyOf(snapshot[k - 1])] == snapshot[k - 1].newState
    ensures var f := snapshot[k - 1];
            var v := Visit(m, j, f);
            && v.reversed && v.run.ok && v.run.j == j.(actions := v.run.j.actions)
            && Cleaned(v.run.j, snapshot, top, k - 1, calm) && v.run.m.visible == v.run.j && v.run.m.durable == v.run.j
            && v.run.m.world == m.world[KeyOf(f) := f.oldState] && v.run.m.fates == Later(m.fates, 3)
  {
    hide Visit, Reverse, Step, Cleaned, Distinct, AlreadyReversed, ReverseKind;
    var f := snapshot[k - 1];
    CleanedIsNotReversed(j, snapshot, top, k, calm);
    VisitForward(m, j, f);
    VisitReverses(m, j, f);
    ReverseIsStep(m, j, f);
    var r := ReversalOf(f, f.newState);
    ReversalFits(f, j.dataAction);
    LuckyStep(m, j, r);
    CleanedStep(j, snapshot, top, k, calm, r.(seqNo := |j.actions| + 1, status := Done));
  }

  lemma CleanedIsNotReversed(j: Journal, snapshot: seq<Action>, top: nat, k: nat, calm: set<Key>)
    requires Cleaned(j, snapshot, top, k, calm) && 0 < k && IsForward(snapshot[k - 1]) && KeyOf(snapshot[k - 1]) !in calm
    ensures !AlreadyReversed(j.actions, snapshot[k - 1]) && ValidJournal(j)
  {
    hide AlreadyReversed;
  }

  lemma VisitReverses(m: Machine, j: Journal, f: Action)
    requires IsForward(f) && !AlreadyReversed(j.actions, f) && ReverseKind(f.kind).Some?
    requires KeyOf(f) in m.world && m.world[KeyOf(f)] == f.newState && f.oldState != f.newState
    ensures Visit(m, j, f).reversed
  {
    hide Reverse, FinishAction, AlreadyReversed;
  }

  /** An action that rollback leaves alone. */
  ghost predicate Left(m: Machine, j: Journal, f: Action) {
    || f.kind.Reload?
    || (IsForward(f) && AlreadyReversed(j.actions, f))
    || (IsForward(f) && KeyOf(f) in m.world
        && (m.world[KeyOf(f)] == f.oldState || (m.world[KeyOf(f)] == f.newState && ReverseKind(f.kind).None?)))
  }

  lemma VisitSkips(m: Machine, j: Journal, f: Action)
    requires Left(m, j, f)
    ensures Visit(m, j, f) == Sweep(Run(m, j, true), false)
  {
    hide Reverse, FinishAction, AlreadyReversed;
  }

  /** The writes and effects that undoing one action, or the first `k`, takes. */
  function Toil(f: Action, calm: set<Key>): nat { if IsForward(f) && KeyOf(f) !in calm then 3 else 0 }

  function Work(snapshot: seq<Action>, k: nat, calm: set<Key>): nat
    requires k <= |snapshot|
  {
    if k == 0 then 0 else Work(snapshot, k - 1, calm) + Toil(snapshot[k - 1], calm)
  }

  /** A calm key or a reload: the visit changes nothing. */
  lemma CalmVisit(m: Machine, j: Journal, trace: seq<Action>, k: nat, original: World, calm: set<Key>, d: DataAction)
    requires Trace(trace, original, d) && Calms(trace, calm, original) && 0 < k <= |trace|
    requires Level(m.world, trace, k, original, calm) && Toil(trace[k - 1], calm) == 0
    ensures Left(m, j, trace[k - 1]) && Level(m.world, trace, k - 1, original, calm)
  {
    hide AlreadyReversed, ReverseKind, Journaled, SubjectOf;
    var f := trace[k - 1];
    assert TraceStep(trace, k - 1, original, d);
    if IsForward(f) {
      ForwardKey(f);
      assert Calm(trace, KeyOf(f), original);
    }
  }

  /** Undoing the action that brought the trace to `k`. */
  lemma UndoneIsLevel(world: World, trace: seq<Action>, k: nat, original: World, calm: set<Key>, d: DataAction)
    requires Trace(trace, original, d) && Calms(trace, calm, original) && 0 < k <= |trace|
    requires Level(world, trace, k, original, calm) && Toil(trace[k - 1], calm) > 0
    ensures var f := trace[k - 1];
            && Reversible(f, d) && f.seqNo == k && KeyOf(f) in world && world[KeyOf(f)] == f.newState
            && Level(world[KeyOf(f) := f.oldState], trace, k - 1, original, calm)
            && SameElsewhere(world, world[KeyOf(f) := f.oldState], trace)
  {
    hide ReverseKind, SubjectOf;
    var f := trace[k - 1];
    assert TraceStep(trace, k - 1, original, d);
    ForwardKey(f);
    assert Journaled(trace, KeyOf(f));
  }

  /** One undisturbed visit undoes the last action of the trace. */
  lemma CleanVisit(m: Machine, j: Journal, snapshot: seq<Action>, trace: seq<Action>, top: nat, k: nat, original: World, calm: set<Key>)
    requires Trace(trace, original, j.dataAction) && Calms(trace, calm, original) && trace <= snapshot && Distinct(snapshot)
    requires 0 < k <= |trace| && Cleaned(j, snapshot, top, k, calm) && m.visible == j
    requires Level(m.world, trace, k, original, calm) && Lucky(m.fates, Toil(snapshot[k - 1], calm))
    ensures var v := Visit(m, j, snapshot[k - 1]);
            && (v.reversed <==> Toil(snapshot[k - 1], calm) > 0) && v.run.ok && v.run.j == j.(actions := v.run.j.actions)
            && Cleaned(v.run.j, snapshot, top, k - 1, calm) && v.run.m.visible == v.run.j
            && (m.durable == j ==> v.run.m.durable == v.run.j)
            && Level(v.run.m.world, trace, k - 1, original, calm) && SameElsewhere(m.world, v.run.m.world, trace)
            && v.run.m.fates == Later(m.fates, Toil(snapshot[k - 1], calm))
  {
    hide Visit, Cleaned, Distinct, Lucky, Level, Calms, Trace, Left, Reversible;
    assert snapshot[k - 1] == trace[k - 1];
    if Toil(snapshot[k - 1], calm) > 0 {
      UndoneIsLevel(m.world, trace, k, original, calm, j.dataAction);
      LuckyReversal(m, j, snapshot, top, k, calm);
    } else {
      CalmVisit(m, j, trace, k, original, calm, j.dataAction);
      VisitSkips(m, j, snapshot[k - 1]);
      SkippedIsCleaned(j, snapshot, top, k, calm);
    }
  }

  lemma SkippedIsCleaned(j: Journal, snapshot: seq<Action>, top: nat, k: nat, calm: set<Key>)
    requires Cleaned(j, snapshot, top, k, calm) && 0 < k && Toil(snapshot[k - 1], calm) == 0
    ensures Cleaned(j, snapshot, top, k - 1, calm)
  {
    hide AlreadyReversed;
  }

  lemma {:induction false} CleanSweep(m: Machine, j: Journal, snapshot: seq<Action>, trace: seq<Action>, top: nat, k: nat,
                                      original: World, calm: set<Key>)
    requires Trace(trace, original, j.dataAction) && Calms(trace, calm, original) && trace <= snapshot && Distinct(snapshot)
    requires k <= |trace| && Cleaned(j, snapshot, top, k, calm) && m.visible == j
    requires Level(m.world, trace, k, original, calm) && Lucky(m.fates, Work(snapshot, k, calm))
    ensures var v := SweepBack(m, j, snapshot, k);
            && (v.reversed <==> Work(snapshot, k, calm) > 0) && v.run.ok && v.run.j == j.(actions := v.run.j.actions)
            && Cleaned(v.run.j, snapshot, top, 0, calm) && v.run.m.visible == v.run.j
            && (m.durable == j ==> v.run.m.durable == v.run.j)
            && Level(v.run.m.world, trace, 0, original, calm) && SameElsewhere(m.world, v.run.m.world, trace)
            && v.run.m.fates == Later(m.fates, Work(snapshot, k, calm))
    decreases k
  {
    hide Visit, Cleaned, Distinct, Lucky, Level, Calms, Trace, Toil, Journaled;
    if k > 0 {
      LaterLucky(m.fates, Toil(snapshot[k - 1], calm), Work(snapshot, k - 1, calm));
      CleanVisit(m, j, snapshot, trace, top, k, original, calm);
      var v := Visit(m, j, snapshot[k - 1]);
      CleanSweep(v.run.m, v.run.j, snapshot, trace, top, k - 1, original, calm);
    }
  }

  /** A swept world has every key of the trace back. */
  lemma LevelIsBack(world: World, trace: seq<Action>, original: World, calm: set<Key>, key: Key)
    requires Level(world, trace, 0, original, calm) && key in original && !key.subject.Reloads? && (key in calm || Journaled(trace, key))
    ensures world[key] == original[key]
  {
    hide Journaled;
  }

  // ---- The keys that a trace ends ----

  ghost function EndedKeys(trace: seq<Action>): set<Key> {
    set i | 0 <= i < |trace| && IsForward(trace[i]) && ReverseKind(trace[i].kind).None? :: KeyOf(trace[i])
  }

  /** An ended key stays at its original token. */
  lemma {:induction false} EndStays(trace: seq<Action>, e: nat, n: nat, original: World, d: DataAction)
    requires Trace(trace, original, d) && e < n <= |trace| && IsForward(trace[e]) && ReverseKind(trace[e].kind).None?
    ensures KeyOf(trace[e]) in original && WorldAt(trace, n, original)[KeyOf(trace[e])] == original[KeyOf(trace[e])]
    decreases n
  {
    hide ReverseKind;
    assert TraceStep(trace, e, original, d);
    ForwardKey(trace[e]);
    if e < n - 1 {
      EndStays(trace, e, n - 1, original, d);
      assert TraceStep(trace, n - 1, original, d);
    }
  }

  lemma EndIsCalm(trace: seq<Action>, e: nat, original: World, d: DataAction)
    requires Trace(trace, original, d) && e < |trace| && IsForward(trace[e]) && ReverseKind(trace[e].kind).None?
    ensures Calm(trace, KeyOf(trace[e]), original)
  {
    hide ReverseKind, KeyOf, IsForward;
    assert TraceStep(trace, e, original, d);
    forall i | 0 <= i < |trace| && IsForward(trace[i]) && KeyOf(trace[i]) == KeyOf(trace[e])
      ensures (if ReverseKind(trace[i].kind).Some? then trace[i].oldState else trace[i].newState) == original[KeyOf(trace[e])]
    {
      assert TraceStep(trace, i, original, d);
    }
  }

  /** A trace that was just performed can be undone. */
  lemma TraceIsLevel(s: Scene, original: World, d: DataAction)
    requires Traced(s, original, d) && CanReload(original)
    ensures Calms(s.actions, EndedKeys(s.actions), original)
    ensures Level(s.world, s.actions, |s.actions|, original, EndedKeys(s.actions))
  {
    hide ReverseKind, KeyOf, IsForward, Trace, Calm;
    var calm := EndedKeys(s.actions);
    WorldCanReload(s.actions, |s.actions|, original, d);
    forall key | key in calm ensures Calm(s.actions, key, original) && key in original && s.world[key] == original[key] {
      var e :| 0 <= e < |s.actions| && IsForward(s.actions[e]) && ReverseKind(s.actions[e].kind).None? && KeyOf(s.actions[e]) == key;
      EndIsCalm(s.actions, e, original, d);
      EndStays(s.actions, e, |s.actions|, original, d);
    }
  }

  // ---- A cut run and its journal ----

  /** The old token that an instruction expects is in place. */
  predicate Truthful(i: Instr, s: Scene) {
    (i.Do? || i.Change?) && Performs(i, i.action) ==> KeyOf(i.action) in s.world && s.world[KeyOf(i.action)] == i.action.oldState
  }

  /** An action behind the scene: reversible, on a key of the world that is not ended, of its own identity. */
  ghost predicate Behind(a: Action, s: Scene, original: World, d: DataAction) {
    && Reversible(a, d) && KeyOf(a) in original && !Ended(s.actions, KeyOf(a))
    && (forall k :: 0 <= k < |s.actions| && IsForward(s.actions[k]) ==> !SameIdentity(s.actions[k], a))
  }

  /** The journal of a run that died behind the intent of `a`. */
  function Snapshot(s: Scene, a: Action): seq<Action> { s.actions + [a.(seqNo := |s.actions| + 1, status := Intent)] }

  lemma SnapshotFacts(s: Scene, a: Action, original: World, d: DataAction)
    requires Traced(s, original, d) && Behind(a, s, original, d)
    ensures var n := |s.actions|;
            var snapshot := Snapshot(s, a);
            && Distinct(snapshot) && |snapshot| == n + 1 && s.actions <= snapshot
            && snapshot[n] == a.(seqNo := n + 1, status := Intent) && IsForward(snapshot[n]) && Reversible(snapshot[n], d)
            && KeyOf(snapshot[n]) == KeyOf(a) && KeyOf(a) !in EndedKeys(s.actions) && !KeyOf(a).subject.Reloads?
            && a.oldState != a.newState
  {
    hide Trace, KeyOf, ReverseKind;
    var n := |s.actions|;
    var snapshot := Snapshot(s, a);
    TraceIsDistinct(s, original, d);
    IntentIsLike(a, n);
    assert forall i :: 0 <= i < n ==> snapshot[i] == s.actions[i];
    forall i, k | 0 <= i < k < |snapshot| && IsForward(snapshot[i]) && IsForward(snapshot[k])
      ensures !SameIdentity(snapshot[i], snapshot[k])
    {
      if k < n { assert !SameIdentity(s.actions[i], s.actions[k]); }
    }
  }

  lemma IntentIsLike(a: Action, n: nat)
    requires IsForward(a)
    ensures var intent := a.(seqNo := n + 1, status := Intent);
            IsForward(intent) && KeyOf(intent) == KeyOf(a) && !IsReverse(intent.kind) && !KeyOf(a).subject.Reloads?
  {
  }

  lemma TraceIsDistinct(s: Scene, original: World, d: DataAction)
    requires Traced(s, original, d)
    ensures Distinct(s.actions)
  {
    hide Trace;
    forall i | 0 <= i < |s.actions| ensures !IsReverse(s.actions[i].kind) {
      TraceKind(s.actions, i, original, d);
    }
    forall i, k | 0 <= i < k < |s.actions| && IsForward(s.actions[i]) && IsForward(s.actions[k])
      ensures !SameIdentity(s.actions[i], s.actions[k])
    {
      TraceDistinct(s.actions, original, d, i, k);
    }
  }

  lemma TraceKind(actions: seq<Action>, i: nat, original: World, d: DataAction)
    requires Trace(actions, original, d) && i < |actions|
    ensures actions[i].seqNo == i + 1 && (IsForward(actions[i]) || actions[i].kind.Reload?)
  {
    hide IsForward, KeyOf, ReverseKind;
    assert TraceStep(actions, i, original, d);
  }

  lemma NothingReversedYet(j: Journal, snapshot: seq<Action>, top: nat, calm: set<Key>)
    requires ValidJournal(j) && j.actions == snapshot && Distinct(snapshot) && top <= |snapshot|
    ensures Cleaned(j, snapshot, top, top, calm)
  {
    forall i | 0 <= i < |snapshot| && IsForward(snapshot[i]) ensures !AlreadyReversed(j.actions, snapshot[i]) {
      NoReversal(snapshot, snapshot[i]);
    }
  }

  lemma NoReversal(snapshot: seq<Action>, f: Action)
    requires (forall i :: 0 <= i < |snapshot| ==> !IsReverse(snapshot[i].kind)) && IsForward(f)
    ensures !AlreadyReversed(snapshot, f)
  {
    forall t | 0 <= t < |snapshot| ensures !Undone(snapshot[t], f) {
      if ReverseKind(f.kind).Some? { ReverseKindsPairUp(f.kind); }
    }
  }

  /** An undisturbed rollback reloads and completes after its sweep. */
  lemma LuckyEnding(m: Machine, j: Journal)
    requires m.fates == [] && ValidJournal(j) && CanReload(m.world)
    ensures var e := Step(m, j, ReloadAction(m.world, RestoreReload));
            var r := SetPhase(e.m, e.j.(authority := Source), Complete);
            && e.ok && r.ok && Alike(r.m.world, m.world)
  {
    hide Step;
    var reload := ReloadAction(m.world, RestoreReload);
    LuckyStep(m, j, reload);
    var e := Step(m, j, reload);
    LuckySave(e.m, e.j.(authority := Source, phase := Complete));
  }

  lemma SweepUnfolds(m: Machine, j: Journal, snapshot: seq<Action>, k: nat)
    requires 0 < k <= |snapshot|
    ensures var s := Visit(m, j, snapshot[k - 1]);
            SweepBack(m, j, snapshot, k) ==
            if !s.run.ok then s
            else var rest := SweepBack(s.run.m, s.run.j, snapshot, k - 1); Sweep(rest.run, s.reversed || rest.reversed)
  {
    hide Visit;
  }

  /** The same but for the number of reloads. */
  ghost predicate Alike(w: World, v: World) {
    w.Keys == v.Keys && CanReload(w) && forall key :: key in v && !key.subject.Reloads? ==> w[key] == v[key]
  }

  // ---- A claimed token that is in place: one recovery undoes what was never done ----

  /** A recovery that starts behind the intent of `a`. */
  ghost predicate Starts(m: Machine, s: Scene, a: Action, original: World) {
    && Traced(s, original, m.visible.dataAction) && Behind(a, s, original, m.visible.dataAction) && CanReload(original)
    && m.visible.actions == Snapshot(s, a) && ValidJournal(m.visible) && m.visible.authority.Source?
    && m.world == s.world
  }

  /** The first visit of the recovery reverses `a`. */
  lemma ClaimVisit(m: Machine, s: Scene, a: Action, original: World)
    requires Starts(m, s, a, original) && m.fates == []
    requires !Journaled(s.actions, KeyOf(a)) && a.newState == original[KeyOf(a)]
    ensures |m.visible.actions| == |s.actions| + 1
    ensures var n := |s.actions|;
            var v := Visit(m, m.visible, m.visible.actions[n]);
            && v.reversed && v.run.ok && v.run.j == m.visible.(actions := v.run.j.actions) && v.run.m.visible == v.run.j
            && Cleaned(v.run.j, m.visible.actions, n + 1, n, EndedKeys(s.actions))
            && v.run.m.world == m.world[KeyOf(a) := a.oldState] && v.run.m.fates == []
  {
    hide Traced, Visit, Cleaned, Distinct, Lucky, Journaled, EndedKeys;
    var j := m.visible;
    var n := |s.actions|;
    SnapshotFacts(s, a, original, j.dataAction);
    NothingReversedYet(j, j.actions, n + 1, EndedKeys(s.actions));
    TraceUntouched(s, original, j.dataAction);
    LuckyNow(m.fates, 3);
    LuckyReversal(m, j, j.actions, n + 1, n + 1, EndedKeys(s.actions));
  }

  /** The rest of the recovery undoes the trace and does not look at the key again. */
  lemma ClaimSweep(m: Machine, j: Journal, s: Scene, a: Action, original: World)
    requires Traced(s, original, j.dataAction) && Behind(a, s, original, j.dataAction) && CanReload(original)
    requires !Journaled(s.actions, KeyOf(a)) && Cleaned(j, Snapshot(s, a), |s.actions| + 1, |s.actions|, EndedKeys(s.actions))
    requires m.visible == j && m.world == s.world[KeyOf(a) := a.oldState] && m.fates == []
    ensures |s.actions| <= |Snapshot(s, a)|
    ensures var v := SweepBack(m, j, Snapshot(s, a), |s.actions|);
            && v.run.ok && ValidJournal(v.run.j) && v.run.m.fates == [] && CanReload(v.run.m.world)
            && KeyOf(a) in v.run.m.world && v.run.m.world[KeyOf(a)] == a.oldState
  {
    hide SweepBack, Cleaned, Distinct, Lucky, Journaled, Work, Trace, EndedKeys, Behind, WorldAt;
    var n := |s.actions|;
    SnapshotFacts(s, a, original, j.dataAction);
    BehindIsPlain(a, s, original, j.dataAction);
    TraceIsLevel(s, original, j.dataAction);
    LevelElsewhere(s, original, KeyOf(a), a.oldState);
    LuckyNow(m.fates, Work(Snapshot(s, a), n, EndedKeys(s.actions)));
    CleanSweep(m, j, Snapshot(s, a), s.actions, n + 1, n, original, EndedKeys(s.actions));
    CleanedIsValid(SweepBack(m, j, Snapshot(s, a), n).run.j, Snapshot(s, a), n + 1, EndedKeys(s.actions));
  }

  lemma LevelElsewhere(s: Scene, original: World, key: Key, token: Token)
    requires Level(s.world, s.actions, |s.actions|, original, EndedKeys(s.actions))
    requires key in original && !key.subject.Reloads? && !Journaled(s.actions, key)
    ensures Level(s.world[key := token], s.actions, |s.actions|, original, EndedKeys(s.actions))
  {
    hide WorldAt;
  }

  lemma UndoesTheClaim(m: Machine, s: Scene, a: Action, original: World, p: Policy)
    requires Starts(m, s, a, original) && m.fates == []
    requires !Journaled(s.actions, KeyOf(a)) && a.newState == original[KeyOf(a)]
    ensures var r := RecoverOnce(m, p);
            r.ok && KeyOf(a) in r.m.world && r.m.world[KeyOf(a)] == a.oldState
  {
    hide Traced, Visit, Step, SweepBack, Cleaned, SetPhase, Journaled, Behind, EndedKeys, CanReload;
    var j := m.visible;
    ClaimVisit(m, s, a, original);
    BehindIsPlain(a, s, original, j.dataAction);
    var v := Visit(m, j, j.actions[|s.actions|]);
    SweepUnfolds(m, j, j.actions, |s.actions| + 1);
    ClaimSweep(v.run.m, v.run.j, s, a, original);
    var w := SweepBack(v.run.m, v.run.j, j.actions, |s.actions|);
    LuckyEnding(w.run.m, w.run.j);
  }

  lemma LuckyNow(fates: seq<Fate>, n: nat)
    requires fates == []
    ensures Lucky(fates, n) && Later(fates, n) == []
  {
  }

  lemma BehindIsPlain(a: Action, s: Scene, original: World, d: DataAction)
    requires Behind(a, s, original, d)
    ensures KeyOf(a) in original && !KeyOf(a).subject.Reloads? && a.oldState != a.newState && ValidAction(a.(seqNo := 1)) && IsForward(a)
  {
  }

  lemma CleanedIsValid(j: Journal, snapshot: seq<Action>, top: nat, calm: set<Key>)
    requires Cleaned(j, snapshot, top, 0, calm)
    ensures ValidJournal(j) && snapshot <= j.actions
  {
    hide AlreadyReversed;
  }

  // ---- A key led back: the first recovery undoes the plan and dies, the second undoes too much ----

  /** What the first recovery leaves: everything undone, but the journal not complete. */
  ghost predicate UndoneButPending(m: Machine, snapshot: seq<Action>, original: World, calm: set<Key>) {
    var last := |m.visible.actions| - 1;
    && m.visible == m.durable && m.visible.authority.Source? && ValidJournal(m.visible)
    && |snapshot| > 0 && last >= |snapshot| && m.visible.actions[last].kind.RestoreReload?
    && Cleaned(m.visible.(actions := m.visible.actions[..last]), snapshot, |snapshot| - 1, 0, calm)
    && Alike(m.world, original)
  }

  lemma CutRecovery(m: Machine, s: Scene, a: Action, original: World, p: Policy)
    requires Starts(m, s, a, original) && m.visible == m.durable && |s.actions| <= |m.visible.actions|
    requires Journaled(s.actions, KeyOf(a)) && Truthful(Do(a), s)
    requires m.fates == ProceedThenRefuse(Work(m.visible.actions, |s.actions|, EndedKeys(s.actions)) + 3)
    ensures UndoneButPending(RecoverOnce(m, p).m, m.visible.actions, original, EndedKeys(s.actions))
    ensures RecoverOnce(m, p).m.visible.dataAction == m.visible.dataAction
  {
    hide Traced, Visit, Step, SweepBack, Cleaned, Distinct, SetPhase, UndoneButPending, Work, Journaled, Alike, EndedKeys, Behind, CanReload;
    var n := |s.actions|;
    var j := m.visible;
    var snapshot := j.actions;
    var calm := EndedKeys(s.actions);
    var w := Work(snapshot, n, calm);
    SnapshotFacts(s, a, original, j.dataAction);
    NothingReversedYet(j, snapshot, n, calm);
    SkipUnperformed(m, j, snapshot);
    assert Lucky(m.fates, w) && Later(m.fates, w) == [Proceed, Proceed, Proceed, Refuse];
    SweepsClean(m, j, s, snapshot, original);
    SomethingToUndo(s, a, original, j.dataAction);
    var v := SweepBack(m, j, snapshot, n);
    DiesBeforeComplete(v.run.m, v.run.j, snapshot, original, calm);
  }

  /** From the very scene of the trace a sweep restores every key. */
  lemma SweepsClean(m: Machine, j: Journal, s: Scene, snapshot: seq<Action>, original: World)
    requires Traced(s, original, j.dataAction) && CanReload(original) && s.actions <= snapshot && Distinct(snapshot)
    requires Cleaned(j, snapshot, |s.actions|, |s.actions|, EndedKeys(s.actions)) && m.visible == j && m.durable == j && m.world == s.world
    requires Lucky(m.fates, Work(snapshot, |s.actions|, EndedKeys(s.actions)))
    ensures var v := SweepBack(m, j, snapshot, |s.actions|);
            && (v.reversed <==> Work(snapshot, |s.actions|, EndedKeys(s.actions)) > 0) && v.run.ok && v.run.j == j.(actions := v.run.j.actions)
            && Cleaned(v.run.j, snapshot, |s.actions|, 0, EndedKeys(s.actions)) && v.run.m.visible == v.run.j && v.run.m.durable == v.run.j
            && Alike(v.run.m.world, original) && v.run.m.fates == Later(m.fates, Work(snapshot, |s.actions|, EndedKeys(s.actions)))
  {
    hide SweepBack, Cleaned, Distinct, Lucky, Work, Trace, EndedKeys, WorldAt, Calms, Journaled;
    var n := |s.actions|;
    TraceIsLevel(s, original, j.dataAction);
    CleanSweep(m, j, snapshot, s.actions, n, n, original, EndedKeys(s.actions));
    TraceUntouched(s, original, j.dataAction);
    BackEverywhere(s, SweepBack(m, j, snapshot, n).run.m.world, original);
  }

  lemma BackEverywhere(s: Scene, world: World, original: World)
    requires Level(world, s.actions, 0, original, EndedKeys(s.actions)) && Untouched(s, original) && SameElsewhere(s.world, world, s.actions)
    ensures Alike(world, original)
  {
    hide EndedKeys, Journaled;
    forall key | key in original && !key.subject.Reloads? ensures world[key] == original[key] {
      if Journaled(s.actions, key) { LevelIsBack(world, s.actions, original, EndedKeys(s.actions), key); }
    }
  }

  /** A journaled key that is not ended means that some action of the trace is to be undone. */
  lemma SomethingToUndo(s: Scene, a: Action, original: World, d: DataAction)
    requires Traced(s, original, d) && Behind(a, s, original, d) && Journaled(s.actions, KeyOf(a))
    ensures |s.actions| <= |Snapshot(s, a)| && Work(Snapshot(s, a), |s.actions|, EndedKeys(s.actions)) > 0
  {
    hide Traced, Behind, EndedKeys, Work;
    SnapshotFacts(s, a, original, d);
    var i :| 0 <= i < |s.actions| && IsForward(s.actions[i]) && KeyOf(s.actions[i]) == KeyOf(a);
    assert Snapshot(s, a)[i] == s.actions[i];
    WorkAt(Snapshot(s, a), i, |s.actions|, EndedKeys(s.actions));
  }

  lemma {:induction false} WorkAt(snapshot: seq<Action>, i: nat, k: nat, calm: set<Key>)
    requires i < k <= |snapshot| && Toil(snapshot[i], calm) > 0
    ensures Work(snapshot, k, calm) > 0
    decreases k
  {
    hide Toil;
    if i < k - 1 { WorkAt(snapshot, i, k - 1, calm); }
  }

  /** The reload is recorded; the write of the complete phase is the one that does not happen. */
  lemma DiesBeforeComplete(m: Machine, j: Journal, snapshot: seq<Action>, original: World, calm: set<Key>)
    requires |snapshot| > 0 && Cleaned(j, snapshot, |snapshot| - 1, 0, calm) && m.visible == j && m.durable == j && j.authority.Source?
    requires Alike(m.world, original) && m.fates == [Proceed, Proceed, Proceed, Refuse]
    ensures var r := Step(m, j, ReloadAction(m.world, RestoreReload));
            && r.ok && !SetPhase(r.m, r.j.(authority := Source), Complete).ok
            && UndoneButPending(SetPhase(r.m, r.j.(authority := Source), Complete).m, snapshot, original, calm)
            && SetPhase(r.m, r.j.(authority := Source), Complete).m.visible.dataAction == j.dataAction
  {
    hide Step, Cleaned;
    var reload := ReloadAction(m.world, RestoreReload);
    CleanedIsValid(j, snapshot, |snapshot| - 1, calm);
    LuckyStep(m, j, reload);
    var r := Step(m, j, reload);
    assert r.m.fates == [Refuse];
    assert r.j.actions[..|r.j.actions| - 1] == j.actions;
    assert r.j.actions[|j.actions|].kind.RestoreReload?;
  }

  lemma SkipUnperformed(m: Machine, j: Journal, snapshot: seq<Action>)
    requires |snapshot| > 0
    requires var f := snapshot[|snapshot| - 1]; IsForward(f) && KeyOf(f) in m.world && m.world[KeyOf(f)] == f.oldState
    ensures SweepBack(m, j, snapshot, |snapshot|) == SweepBack(m, j, snapshot, |snapshot| - 1)
  {
    hide Visit, SweepBack;
    var n := |snapshot| - 1;
    VisitSkips(m, j, snapshot[n]);
    SweepUnfolds(m, j, snapshot, n + 1);
  }

  lemma {:induction false} TailSkips(m: Machine, j: Journal, snapshot: seq<Action>, k: nat, lo: nat)
    requires ValidJournal(j) && j.actions == snapshot && lo <= k <= |snapshot|
    requires forall t :: lo <= t < k ==> snapshot[t].kind.RestoreReload? || (IsUndo(snapshot[t]) && snapshot[t].status.Done?)
    ensures SweepBack(m, j, snapshot, k) == SweepBack(m, j, snapshot, lo)
    decreases k
  {
    hide FinishAction, AlreadyReversed, Reverse;
    if k > lo {
      TailSkips(m, j, snapshot, k - 1, lo);
      if !snapshot[k - 1].kind.RestoreReload? { FinishDoneSkips(m, j, k - 1); }
    }
  }

  lemma {:induction false} LeftSkips(m: Machine, j: Journal, snapshot: seq<Action>, k: nat)
    requires k <= |snapshot|
    requires forall i :: 0 <= i < k ==> Left(m, j, snapshot[i])
    ensures SweepBack(m, j, snapshot, k) == Sweep(Run(m, j, true), false)
    decreases k
  {
    hide Visit, Left;
    if k > 0 {
      VisitSkips(m, j, snapshot[k - 1]);
      LeftSkips(m, j, snapshot, k - 1);
    }
  }

  lemma PendingFacts(m: Machine, snapshot: seq<Action>, original: World, calm: set<Key>)
    requires UndoneButPending(m, snapshot, original, calm)
    ensures var b := m.visible.actions;
            && snapshot <= b
            && (forall t :: |snapshot| <= t < |b| ==> b[t].kind.RestoreReload? || (IsUndo(b[t]) && b[t].status.Done?))
            && (forall i :: 0 <= i < |snapshot| && IsForward(snapshot[i]) && KeyOf(snapshot[i]) !in calm ==>
                  (AlreadyReversed(b, snapshot[i]) <==> i < |snapshot| - 1))
  {
    hide AlreadyReversed, Undone, KeyOf;
    var b := m.visible.actions;
    var last := |b| - 1;
    assert b == b[..last] + [b[last]];
    forall i | 0 <= i < |snapshot| && IsForward(snapshot[i]) && KeyOf(snapshot[i]) !in calm
      ensures AlreadyReversed(b, snapshot[i]) <==> i < |snapshot| - 1
    {
      ReversedWithOneMore(b[..last], b[last], snapshot[i]);
      NotAReload(b[last], snapshot[i]);
    }
  }

  lemma NotAReload(r: Action, f: Action)
    requires r.kind.RestoreReload? && IsForward(f)
    ensures !Undone(r, f)
  {
    if ReverseKind(f.kind).Some? { ReverseKindsPairUp(f.kind); }
  }

  /** An undisturbed recovery takes the unperformed action for performed. */
  lemma WrongRecovery(m: Machine, s: Scene, a: Action, original: World, p: Policy)
    requires UndoneButPending(m, Snapshot(s, a), original, EndedKeys(s.actions)) && m.fates == []
    requires Traced(s, original, m.visible.dataAction) && Behind(a, s, original, m.visible.dataAction) && original[KeyOf(a)] == a.newState
    ensures var r := RecoverOnce(m, p);
            r.ok && KeyOf(a) in r.m.world && r.m.world[KeyOf(a)] == a.oldState
  {
    hide Visit, Step, SweepBack, Cleaned, AlreadyReversed, Reverse, SetPhase, Undone, Distinct, ReverseKind, Traced, Behind, EndedKeys, Left;
    var j := m.visible;
    var b := j.actions;
    var n := |s.actions|;
    SnapshotFacts(s, a, original, j.dataAction);
    BehindIsPlain(a, s, original, j.dataAction);
    PendingFacts(m, Snapshot(s, a), original, EndedKeys(s.actions));
    TailSkips(m, j, b, |b|, n + 1);
    var f := b[n];
    assert f == Snapshot(s, a)[n];
    ReversibleKind(f, j.dataAction);
    VisitForward(m, j, f);
    VisitReverses(m, j, f);
    ReverseIsStep(m, j, f);
    var undo := ReversalOf(f, f.newState);
    ReversalFits(f, j.dataAction);
    LuckyNow(m.fates, 3);
    LuckyStep(m, j, undo);
    var r := Step(m, j, undo);
    RestIsLeft(r.m, r.j, s, a, original, j.dataAction, b, undo.(seqNo := |b| + 1, status := Done));
    LeftSkips(r.m, r.j, b, n);
    SweepUnfolds(m, j, b, n + 1);
    LuckyEnding(r.m, r.j);
  }

  lemma ReversibleKind(f: Action, d: DataAction)
    requires Reversible(f, d)
    ensures ReverseKind(f.kind).Some? && IsForward(f) && f.oldState != f.newState
    ensures f.kind.DataPublish? ==> d.CreateData? && f.newState != ABSENT
  {
  }

  /** Every action before `a` is reversed, or about a key that ended at its original token. */
  lemma RestIsLeft(m: Machine, j: Journal, s: Scene, a: Action, original: World, d: DataAction, b: seq<Action>, undo: Action)
    requires Traced(s, original, d) && Snapshot(s, a) <= b && j.actions == b + [undo] && KeyOf(a) !in EndedKeys(s.actions)
    requires m.world.Keys == original.Keys
    requires forall key :: key in original && !key.subject.Reloads? && key != KeyOf(a) ==> m.world[key] == original[key]
    requires forall i :: 0 <= i < |s.actions| && IsForward(s.actions[i]) && KeyOf(s.actions[i]) !in EndedKeys(s.actions) ==>
               AlreadyReversed(b, s.actions[i])
    ensures forall i :: 0 <= i < |s.actions| ==> Left(m, j, b[i])
  {
    hide AlreadyReversed, ReverseKind, KeyOf, Trace;
    forall i | 0 <= i < |s.actions| ensures Left(m, j, b[i]) {
      assert b[i] == s.actions[i];
      TraceKind(s.actions, i, original, d);
      if IsForward(s.actions[i]) {
        ReversedWithOneMore(b, undo, s.actions[i]);
        var key := KeyOf(s.actions[i]);
        if key in EndedKeys(s.actions) {
          var e :| 0 <= e < |s.actions| && IsForward(s.actions[e]) && ReverseKind(s.actions[e].kind).None? && KeyOf(s.actions[e]) == key;
          EndIsCalm(s.actions, e, original, d);
          EndStays(s.actions, e, |s.actions|, original, d);
          ForwardKey(s.actions[i]);
        }
      }
    }
  }

  // ---- Failing histories ----

  /** No recovery of this history succeeds under source authority with a key left changed. */
  ghost predicate Atomic(original: World, j: Journal, program: seq<Instr>, fates: seq<Fate>, powerLoss: bool,
                         p: Policy, attempts: seq<Attempt>, last: seq<Fate>) {
    var m := AfterCrashes(original, j, program, fates, powerLoss, p, attempts);
    var r := RecoverOnce(m.(fates := last), p);
    r.ok && m.visible.authority.Source? ==> AllBack(r.m.world, original)
  }

  /** Every way to cut the program and its recoveries. */
  ghost predicate AlwaysAtomic(original: World, j: Journal, program: seq<Instr>, p: Policy) {
    forall fates, powerLoss, attempts, last :: Atomic(original, j, program, fates, powerLoss, p, attempts, last)
  }

  lemma OneAttempt(m: Machine, p: Policy, a: Attempt)
    ensures AfterAttempts(m, p, []) == m && AfterAttempts(m, p, [a]) == AfterAttempt(m, p, a)
  {
    hide AfterAttempt;
    assert [a][..0] == [];
  }

  lemma NotBack(world: World, original: World, key: Key, token: Token)
    requires key in world && world[key] == token && key in original && original[key] != token && !key.subject.Reloads?
    ensures !AllBack(world, original)
  {
  }

  /** Recovery succeeds under source authority and leaves the old token that `a` claimed. */
  ghost predicate Misfires(original: World, j: Journal, program: seq<Instr>, fates: seq<Fate>, p: Policy, attempts: seq<Attempt>, a: Action) {
    var m := AfterCrashes(original, j, program, fates, false, p, attempts);
    var r := RecoverOnce(m.(fates := []), p);
    r.ok && m.visible.authority.Source? && KeyOf(a) in r.m.world && r.m.world[KeyOf(a)] == a.oldState
  }

  lemma CutStarts(m: Machine, s: Scene, a: Action, j: Journal, original: World)
    requires CutBehind(m, s, a, j) && Traced(s, original, j.dataAction) && Behind(a, s, original, j.dataAction)
    requires CanReload(original) && j.authority.Source?
    ensures Starts(m, s, a, original) && |s.actions| <= |m.visible.actions| && m.durable == m.visible
    ensures m.visible.dataAction == j.dataAction && m.visible.actions == Snapshot(s, a)
  {
    hide Traced, Behind;
  }

  /** Die behind the intent of `a`; the next recovery undoes what was never done. */
  lemma ClaimFails(plan: seq<Instr>, i: Instr, a: Action, rest: seq<Instr>, original: World, j: Journal, p: Policy)
    requires Plan(plan, original, j.dataAction) && FreshJournal(j) && CanReload(original) && Performs(i, a)
    requires Behind(a, SceneAfter(plan, original), original, j.dataAction)
    requires !Journaled(SceneAfter(plan, original).actions, KeyOf(a)) && a.newState == original[KeyOf(a)]
    ensures Misfires(original, j, plan + [i] + rest, ProceedThenRefuse(Costs(plan) + 1), p, [], a)
    ensures !Atomic(original, j, plan + [i] + rest, ProceedThenRefuse(Costs(plan) + 1), false, p, [], [])
  {
    hide Plan, SceneAfter, RunProgram, RecoverOnce, Journaled, AllBack, CanReload, Behind, Traced, Performs, CutBehind;
    var s := SceneAfter(plan, original);
    PlanTraced(plan, original, j.dataAction);
    BehindIsPlain(a, s, original, j.dataAction);
    CutForward(plan, i, a, rest, original, j);
    var m := RunProgram(Begin(original, j, ProceedThenRefuse(Costs(plan) + 1)), j, plan + [i] + rest).m;
    CutStarts(m, s, a, j, original);
    OneAttempt(m, p, Attempt([], false));
    UndoesTheClaim(m.(fates := []), s, a, original, p);
    NotBack(RecoverOnce(m.(fates := []), p).m.world, original, KeyOf(a), a.oldState);
  }

  /** Die behind the intent of `a`, and again before the first recovery is complete. */
  lemma ReturnFails(plan: seq<Instr>, i: Instr, a: Action, rest: seq<Instr>, original: World, j: Journal, p: Policy) returns (fates: seq<Fate>)
    requires Plan(plan, original, j.dataAction) && FreshJournal(j) && CanReload(original) && Performs(i, a)
    requires Behind(a, SceneAfter(plan, original), original, j.dataAction)
    requires Journaled(SceneAfter(plan, original).actions, KeyOf(a)) && Truthful(Do(a), SceneAfter(plan, original))
    requires a.newState == original[KeyOf(a)]
    ensures !Atomic(original, j, plan + [i] + rest, ProceedThenRefuse(Costs(plan) + 1), false, p, [Attempt(fates, false)], [])
  {
    hide Plan, SceneAfter, RunProgram, RecoverOnce, UndoneButPending, Journaled, AllBack, Truthful, CanReload, Behind, Traced, Performs, Work, CutBehind, EndedKeys;
    var s := SceneAfter(plan, original);
    PlanTraced(plan, original, j.dataAction);
    BehindIsPlain(a, s, original, j.dataAction);
    CutForward(plan, i, a, rest, original, j);
    var m1 := RunProgram(Begin(original, j, ProceedThenRefuse(Costs(plan) + 1)), j, plan + [i] + rest).m;
    CutStarts(m1, s, a, j, original);
    fates := ProceedThenRefuse(Work(m1.visible.actions, |s.actions|, EndedKeys(s.actions)) + 3);
    OneAttempt(m1, p, Attempt(fates, false));
    CutRecovery(m1.(fates := fates), s, a, original, p);
    var m2 := RecoverOnce(m1.(fates := fates), p).m;
    PendingIsSource(m2, Snapshot(s, a), original, EndedKeys(s.actions));
    WrongRecovery(m2.(fates := []), s, a, original, p);
    NotBack(RecoverOnce(m2.(fates := []), p).m.world, original, KeyOf(a), a.oldState);
  }

  lemma PendingIsSource(m: Machine, snapshot: seq<Action>, original: World, calm: set<Key>)
    requires UndoneButPending(m, snapshot, original, calm)
    ensures m.visible.authority.Source? && UndoneButPending(m.(fates := []), snapshot, original, calm)
  {
    hide Cleaned;
  }

  // ---- A token that is not there: nothing moves any more ----

  /** Neither token of `a` is in place. */
  ghost predicate Foreign(a: Action, s: Scene) {
    IsForward(a) && KeyOf(a) in s.world && s.world[KeyOf(a)] != a.oldState && s.world[KeyOf(a)] != a.newState
  }

  /** The run is stuck behind the intent of `a`, which neither succeeds nor can be classified. */
  ghost predicate Stuck(m: Machine, s: Scene, a: Action, original: World) {
    && m.visible.actions == Snapshot(s, a) && m.visible.authority.Source? && NoUndos(m.visible.actions)
    && m.world == s.world
    && (m.durable == m.visible || SourceSafe(m.(visible := m.durable), original, true))
  }

  ghost predicate Unmoved(m: Machine, s: Scene, a: Action, original: World) {
    SourceSafe(m, original, true) || Stuck(m, s, a, original)
  }

  lemma ForeignEffect(m: Machine, a: Action, intent: Action)
    requires KeyOf(a) in m.world && m.world[KeyOf(a)] != a.oldState && m.world[KeyOf(a)] != a.newState && IsForward(a)
    requires intent == a.(seqNo := intent.seqNo, status := Intent)
    ensures var (m', ok) := Apply(m, intent);
            !ok && m'.world == m.world && m'.visible == m.visible && m'.durable == m.durable
  {
  }

  lemma ForeignStep(m: Machine, j: Journal, s: Scene, a: Action, original: World)
    requires Underway(m, j, s, original) && Foreign(a, s)
    ensures !Step(m, j, a).ok && Unmoved(Step(m, j, a).m, s, a, original)
  {
    hide SourceInv, SubjectOf, ReverseKind, FinishLast, Apply, KeyOf, OnlyRecordedMoved, Untouched;
    var n := |s.actions|;
    var intent := a.(seqNo := n + 1, status := Intent);
    var next := j.(actions := j.actions + [intent]);
    assert next.actions[n] == intent;
    ForeignEffect(Save(m, next).m, a, intent);
  }

  lemma StuckRecovery(m: Machine, s: Scene, a: Action, original: World, p: Policy)
    requires Stuck(m, s, a, original) && Foreign(a, s)
    ensures RecoverOnce(m, p).m == m && !RecoverOnce(m, p).ok
  {
    hide Visit, SweepBack, SourceSafe, AlreadyReversed, ReverseKind;
    var j := m.visible;
    var n := |s.actions|;
    IntentIsLike(a, n);
    assert j.actions[n] == a.(seqNo := n + 1, status := Intent);
    UnundoneIsUnreversed(j.actions, j.actions[n]);
    VisitForward(m, j, j.actions[n]);
    SweepUnfolds(m, j, j.actions, n + 1);
  }

  lemma UnundoneIsUnreversed(actions: seq<Action>, f: Action)
    requires NoUndos(actions) && IsForward(f)
    ensures !AlreadyReversed(actions, f)
  {
    forall t | 0 <= t < |actions| ensures !Undone(actions[t], f) {
      if ReverseKind(f.kind).Some? { ReverseKindsPairUp(f.kind); }
    }
  }

  /** What a recovery under source authority promises if it succeeds. */
  ghost predicate RollsBack(m: Machine, r: Run, original: World) {
    && m.visible.authority.Source?
    && (r.ok ==> r.m.visible.authority.Source? && r.m.visible.phase.Complete? && AllBack(r.m.world, original))
  }

  lemma UnmovedRecovery(m: Machine, attempt: Attempt, s: Scene, a: Action, original: World, p: Policy)
    requires Unmoved(m, s, a, original) && Foreign(a, s)
    ensures Unmoved(AfterAttempt(m, p, attempt), s, a, original)
    ensures RollsBack(m, RecoverOnce(m.(fates := attempt.fates), p), original)
  {
    hide Rollback, Rollforward, Foreign, SourceSafeAt, Journaled;
    var m1 := m.(fates := attempt.fates);
    if SourceSafe(m, original, true) {
      SourceRecovery(m, attempt, original, p);
    } else {
      StuckRecovery(m1, s, a, original, p);
      if attempt.powerLoss && m1.durable != m1.visible { assert SourceSafe(PowerLoss(m1), original, true); }
    }
  }

  lemma {:induction false} UnmovedAttempts(m: Machine, p: Policy, attempts: seq<Attempt>, s: Scene, a: Action, original: World)
    requires Unmoved(m, s, a, original) && Foreign(a, s)
    ensures Unmoved(AfterAttempts(m, p, attempts), s, a, original)
    decreases |attempts|
  {
    hide RecoverOnce, Unmoved, Foreign, PowerLoss, AllBack;
    if attempts != [] {
      var before := attempts[..|attempts| - 1];
      UnmovedAttempts(m, p, before, s, a, original);
      UnmovedRecovery(AfterAttempts(m, p, before), attempts[|attempts| - 1], s, a, original, p);
    }
  }

  lemma RunStopsThere(m: Machine, j: Journal, plan: seq<Instr>, i: Instr, a: Action, rest: seq<Instr>)
    requires Performs(i, a)
    ensures var r := RunProgram(m, j, plan);
            && (!r.ok ==> RunProgram(m, j, plan + [i] + rest) == r)
            && (r.ok && !Step(r.m, r.j, a).ok ==> RunProgram(m, j, plan + [i] + rest) == Step(r.m, r.j, a))
  {
    hide RunProgram, Step, Execute, Performs;
    RunAppend(m, j, plan, [i]);
    RunAppend(m, j, plan + [i], rest);
    var r := RunProgram(m, j, plan);
    RunOne(r.m, r.j, i);
    PerformsStep(r.m, r.j, i, a);
  }

  /** A program that fits and does not activate. */
  ghost predicate Prepares(program: seq<Instr>, original: World, d: DataAction) {
    && ProgramFits(program, Scene([], original, false), original, d)
    && forall i :: 0 <= i < |program| ==> !program[i].DoActivate?
  }

  lemma ForeignRuns(plan: seq<Instr>, i: Instr, a: Action, rest: seq<Instr>, original: World, j: Journal, fates: seq<Fate>)
    requires Prepares(plan, original, j.dataAction) && FreshJournal(j) && Performs(i, a) && Foreign(a, SceneAfter(plan, original))
    ensures Unmoved(RunProgram(Begin(original, j, fates), j, plan + [i] + rest).m, SceneAfter(plan, original), a, original)
  {
    hide RunProgram, Step, Underway, SourceSafe, Stuck, Foreign, ProgramFits, FinalScene, Performs;
    var m := Begin(original, j, fates);
    BeginRuns(original, j, fates);
    PlanRunsSafely(m, j, plan, Scene([], original, false), original);
    var r := RunProgram(m, j, plan);
    if r.ok { ForeignStep(r.m, r.j, SceneAfter(plan, original), a, original); }
    RunStopsThere(m, j, plan, i, a, rest);
  }

  /** An action about a third token: neither the run nor a recovery gets past it, and nothing is left changed. */
  lemma ForeignIsAtomic(plan: seq<Instr>, i: Instr, a: Action, rest: seq<Instr>, original: World, j: Journal, fates: seq<Fate>, powerLoss: bool,
                        p: Policy, attempts: seq<Attempt>, last: seq<Fate>)
    requires Prepares(plan, original, j.dataAction) && FreshJournal(j) && Performs(i, a) && Foreign(a, SceneAfter(plan, original))
    ensures Atomic(original, j, plan + [i] + rest, fates, powerLoss, p, attempts, last)
    ensures var m := AfterCrashes(original, j, plan + [i] + rest, fates, powerLoss, p, attempts);
            RollsBack(m, RecoverOnce(m.(fates := last), p), original)
  {
    hide Prepares, RunProgram, RecoverOnce, Unmoved, Foreign, AllBack, AfterAttempts, AfterAttempt, PowerLoss, SceneAfter;
    ForeignRuns(plan, i, a, rest, original, j, fates);
    var s := SceneAfter(plan, original);
    var m := RunProgram(Begin(original, j, fates), j, plan + [i] + rest).m;
    var m' := if powerLoss then PowerLoss(m) else m;
    if powerLoss { UnmovedLoss(m, s, a, original); }
    UnmovedAttempts(m', p, attempts, s, a, original);
    UnmovedRecovery(AfterAttempts(m', p, attempts), Attempt(last, false), s, a, original, p);
  }

  lemma UnmovedLoss(m: Machine, s: Scene, a: Action, original: World)
    requires Unmoved(m, s, a, original)
    ensures Unmoved(PowerLoss(m), s, a, original)
  {
    hide SourceInv, OnlyRecordedMoved;
    if SourceSafe(m, original, true) { PowerLossSafe(m, original, true); }
  }

  /** A well-planned program without an activation restores every key, power losses or not. */
  lemma UnactivatedIsAtomic(program: seq<Instr>, original: World, j: Journal, fates: seq<Fate>, powerLoss: bool,
                            p: Policy, attempts: seq<Attempt>, last: seq<Fate>)
    requires Prepares(program, original, j.dataAction) && FreshJournal(j)
    ensures Atomic(original, j, program, fates, powerLoss, p, attempts, last)
  {
    hide RunProgram, RecoverOnce, SourceSafe, AllBack, Underway, ProgramFits, FinalScene, PowerLoss;
    var m0 := Begin(original, j, fates);
    BeginRuns(original, j, fates);
    PlanRunsSafely(m0, j, program, Scene([], original, false), original);
    var m := RunProgram(m0, j, program).m;
    if powerLoss { PowerLossSafe(m, original, true); }
    var m' := if powerLoss then PowerLoss(m) else m;
    SourceAttempts(m', p, attempts, original);
    SourceRecovery(AfterAttempts(m', p, attempts), Attempt(last, false), original, p);
  }

  lemma PlanPrepares(plan: seq<Instr>, original: World, d: DataAction)
    requires Plan(plan, original, d)
    ensures Prepares(plan, original, d)
  {
    hide PlanFrom, ProgramFits;
    PlanFits(plan, Scene([], original, false), original, d);
  }

  lemma SourceRecovery(m: Machine, attempt: Attempt, original: World, p: Policy)
    requires SourceSafe(m, original, true)
    ensures SourceSafe(AfterAttempt(m, p, attempt), original, true)
    ensures RollsBack(m, RecoverOnce(m.(fates := attempt.fates), p), original)
  {
    hide Rollback, Rollforward, SourceInv, OnlyRecordedMoved, Journaled;
    var m1 := m.(fates := attempt.fates);
    SourceSafeIsValid(m1, original, true);
    RollbackRestores(m1, original, true);
    SourceSafeIsValid(Rollback(m1, m1.visible).m, original, true);
    if attempt.powerLoss { PowerLossSafe(Rollback(m1, m1.visible).m, original, true); }
  }

  lemma {:induction false} SourceAttempts(m: Machine, p: Policy, attempts: seq<Attempt>, original: World)
    requires SourceSafe(m, original, true)
    ensures SourceSafe(AfterAttempts(m, p, attempts), original, true)
    decreases |attempts|
  {
    hide SourceSafe, AfterAttempt, RollsBack;
    if attempts != [] {
      var before := attempts[..|attempts| - 1];
      SourceAttempts(m, p, before, original);
      SourceRecovery(AfterAttempts(m, p, before), attempts[|attempts| - 1], original, p);
    }
  }

  // ---- Exactness ----

  /**
    What a program may claim: actions of distinct identities on keys of the world, data only
    created, and about a key that was journaled before, the token that the action before left
    there. About other keys it may claim anything. An action without a reversal (stopping the
    validation) takes its key back and is the last on it. Phases, skipped steps and reloads
    claim nothing.
   */
  ghost predicate ClaimedAction(a: Action, s: Scene, original: World, d: DataAction) {
    && IsForward(a) && ValidAction(a.(seqNo := 1)) && KeyOf(a) in original && !Ended(s.actions, KeyOf(a))
    && (forall k :: 0 <= k < |s.actions| && IsForward(s.actions[k]) ==> !SameIdentity(s.actions[k], a))
    && (a.kind.DataPublish? ==> a.oldState == ABSENT && d.CreateData? && !Journaled(s.actions, KeyOf(a)))
    && (Journaled(s.actions, KeyOf(a)) ==> Truthful(Do(a), s))
    && (ReverseKind(a.kind).None? ==> Journaled(s.actions, KeyOf(a)) && TakesBack(a, s.actions))
  }

  ghost predicate ClaimStep(i: Instr, s: Scene, original: World, d: DataAction) {
    match i
    case Enter(phase) => Pending(phase)
    case Do(a) => ClaimedAction(a, s, original, d)
    case Change(a) => a.oldState == a.newState || ClaimedAction(a, s, original, d)
    case DoReload => true
    case DoActivate => false
  }

  ghost predicate Claims(program: seq<Instr>, original: World, d: DataAction) {
    forall k {:trigger program[k]} :: 0 <= k < |program| ==> ClaimStep(program[k], SceneAfter(program[..k], original), original, d)
  }

  /** The instruction performs an action that can be undone and leads its key to the original token. */
  ghost predicate Leads(i: Instr, original: World) {
    && (i.Do? || i.Change?) && Performs(i, i.action) && ReverseKind(i.action.kind).Some?
    && KeyOf(i.action) in original && i.action.newState == original[KeyOf(i.action)]
  }

  /** The `k`th instruction leads its key to the original token, and every one before it told the truth. */
  ghost predicate Spoils(program: seq<Instr>, original: World, k: nat) {
    && k < |program| && Leads(program[k], original)
    && forall h :: 0 <= h < k ==> Truthful(program[h], SceneAfter(program[..h], original))
  }

  /** As long as claims are true and none spoils, the program is a plan. */
  lemma {:induction false} PlanWhile(program: seq<Instr>, original: World, d: DataAction, k: nat)
    requires Claims(program, original, d) && CanReload(original) && k <= |program|
    requires forall h :: 0 <= h < k ==> Truthful(program[h], SceneAfter(program[..h], original)) && !Spoils(program, original, h)
    ensures Plan(program[..k], original, d)
    decreases k
  {
    hide FinalScene, Truthful, Spoils, ClaimStep, PlanStep, Traced;
    if k == 0 {
      assert program[..0] == [];
    } else {
      PlanWhile(program, original, d, k - 1);
      var prefix := program[..k - 1];
      SceneGrows(program, original, k - 1);
      PlanTraced(prefix, original, d);
      NotSpoiling(program, original, k - 1);
      TrueClaimFits(program[k - 1], SceneAfter(prefix, original), original, d);
      PlanAppend(prefix, program[k - 1], Scene([], original, false), original, d);
    }
  }

  lemma NotSpoiling(program: seq<Instr>, original: World, k: nat)
    requires k < |program| && !Spoils(program, original, k)
    requires forall h :: 0 <= h < k ==> Truthful(program[h], SceneAfter(program[..h], original))
    ensures !Leads(program[k], original)
  {
    hide SceneAfter, Truthful, Leads;
  }

  lemma TrueClaimFits(i: Instr, s: Scene, original: World, d: DataAction)
    requires Traced(s, original, d) && ClaimStep(i, s, original, d) && Truthful(i, s) && CanReload(original) && !Leads(i, original)
    ensures PlanStep(i, s, original, d)
  {
    hide Trace, Journaled, SubjectOf, Ended, TakesBack, WorldAt;
    WorldCanReload(s.actions, |s.actions|, original, d);
    if (i.Do? || i.Change?) && Performs(i, i.action) { assert Undoable(i.action, s, original, d); }
  }

  lemma {:induction false} FirstSpoil(program: seq<Instr>, original: World, k: nat) returns (first: nat)
    requires Spoils(program, original, k)
    ensures Spoils(program, original, first) && forall h :: 0 <= h < first ==> !Spoils(program, original, h)
    decreases k
  {
    hide Truthful, Leads;
    if h :| 0 <= h < k && Spoils(program, original, h) { first := FirstSpoil(program, original, h); } else { first := k; }
  }

  lemma SplitAt(program: seq<Instr>, k: nat)
    requires k < |program|
    ensures program == program[..k] + [program[k]] + program[k + 1..]
  {
  }

  lemma ClaimIsBehind(i: Instr, s: Scene, original: World, d: DataAction)
    requires ClaimStep(i, s, original, d) && (i.Do? || i.Change?) && Performs(i, i.action)
    ensures IsForward(i.action) && KeyOf(i.action) in original
    ensures ReverseKind(i.action.kind).Some? ==> Behind(i.action, s, original, d)
    ensures Journaled(s.actions, KeyOf(i.action)) ==> Truthful(Do(i.action), s)
    ensures ReverseKind(i.action.kind).None? ==> Journaled(s.actions, KeyOf(i.action))
  {
    hide Truthful, Journaled, KeyOf, ReverseKind, SubjectOf;
  }

  /** A spoiling action has a history that fails. */
  lemma SpoilFails(program: seq<Instr>, original: World, j: Journal, p: Policy, k: nat)
    requires Claims(program, original, j.dataAction) && FreshJournal(j) && CanReload(original) && Spoils(program, original, k)
    ensures !AlwaysAtomic(original, j, program, p)
  {
    hide Atomic, Plan, SceneAfter, Behind, Truthful, Journaled, ClaimStep;
    var first := FirstSpoil(program, original, k);
    PlanWhile(program, original, j.dataAction, first);
    SplitAt(program, first);
    var plan, i, rest := program[..first], program[first], program[first + 1..];
    ClaimIsBehind(i, SceneAfter(plan, original), original, j.dataAction);
    if Journaled(SceneAfter(plan, original).actions, KeyOf(i.action)) {
      var fates := ReturnFails(plan, i, i.action, rest, original, j, p);
    } else {
      ClaimFails(plan, i, i.action, rest, original, j, p);
    }
  }

  lemma {:induction false} FirstLie(program: seq<Instr>, original: World, k: nat) returns (first: nat)
    requires k < |program| && !Truthful(program[k], SceneAfter(program[..k], original))
    ensures first < |program| && !Truthful(program[first], SceneAfter(program[..first], original))
    ensures forall h :: 0 <= h < first ==> Truthful(program[h], SceneAfter(program[..h], original))
    decreases k
  {
    hide Truthful, SceneAfter;
    if h :| 0 <= h < k && !Truthful(program[h], SceneAfter(program[..h], original)) {
      first := FirstLie(program, original, h);
    } else {
      first := k;
    }
  }

  /** A claim that is not true, on a key nobody touched, and does not spoil, is about a third token. */
  lemma LieIsForeign(program: seq<Instr>, original: World, d: DataAction, k: nat)
    requires Claims(program, original, d) && k < |program| && Plan(program[..k], original, d) && !Spoils(program, original, k)
    requires !Truthful(program[k], SceneAfter(program[..k], original))
    requires forall h :: 0 <= h < k ==> Truthful(program[h], SceneAfter(program[..h], original))
    ensures var i := program[k]; (i.Do? || i.Change?) && Performs(i, i.action) && Foreign(i.action, SceneAfter(program[..k], original))
  {
    hide SceneAfter, Plan, Trace, Journaled, KeyOf, SubjectOf;
    var s := SceneAfter(program[..k], original);
    assert ClaimStep(program[k], s, original, d);
    PlanTraced(program[..k], original, d);
    TraceUntouched(s, original, d);
    NotSpoiling(program, original, k);
    ClaimIsBehind(program[k], s, original, d);
    ForwardKey(program[k].action);
  }

  lemma HarmlessIsAtomic(program: seq<Instr>, original: World, j: Journal, p: Policy, fates: seq<Fate>, powerLoss: bool,
                         attempts: seq<Attempt>, last: seq<Fate>)
    requires Claims(program, original, j.dataAction) && FreshJournal(j) && CanReload(original)
    requires forall k :: !Spoils(program, original, k)
    ensures Atomic(original, j, program, fates, powerLoss, p, attempts, last)
  {
    hide Claims, Atomic, Plan, SceneAfter, Behind, Truthful, Journaled, Spoils, Foreign, Prepares;
    if k :| 0 <= k < |program| && !Truthful(program[k], SceneAfter(program[..k], original)) {
      var first := FirstLie(program, original, k);
      PlanWhile(program, original, j.dataAction, first);
      LieIsForeign(program, original, j.dataAction, first);
      PlanPrepares(program[..first], original, j.dataAction);
      SplitAt(program, first);
      ForeignIsAtomic(program[..first], program[first], program[first].action, program[first + 1..], original, j, fates, powerLoss, p, attempts, last);
    } else {
      PlanWhile(program, original, j.dataAction, |program|);
      assert program[..|program|] == program;
      PlanPrepares(program, original, j.dataAction);
      UnactivatedIsAtomic(program, original, j, fates, powerLoss, p, attempts, last);
    }
  }

  /**
    Exactly when source-side atomicity holds: every history of the program restores every
    key if and only if no action, behind true claims only, leads its key to its original token.
   */
  lemma ProgramIsExact(program: seq<Instr>, original: World, j: Journal, p: Policy)
    requires Claims(program, original, j.dataAction) && FreshJournal(j) && CanReload(original)
    ensures AlwaysAtomic(original, j, program, p) <==> forall k :: !Spoils(program, original, k)
  {
    hide Claims, Atomic, Spoils;
    if k :| Spoils(program, original, k) {
      SpoilFails(program, original, j, p, k);
    } else {
      forall fates, powerLoss, attempts, last ensures Atomic(original, j, program, fates, powerLoss, p, attempts, last) {
        HarmlessIsAtomic(program, original, j, p, fates, powerLoss, attempts, last);
      }
    }
  }

  /**
    Programs with accurate tokens: atomic if and only if no action that can be undone returns
    a key that was journaled before it to the token the key had at first.
   */
  lemma ConditionIsExact(program: seq<Instr>, original: World, j: Journal, p: Policy)
    requires Claims(program, original, j.dataAction) && FreshJournal(j) && CanReload(original)
    requires forall k :: 0 <= k < |program| ==> Truthful(program[k], SceneAfter(program[..k], original))
    ensures AlwaysAtomic(original, j, program, p) <==>
            forall k :: 0 <= k < |program| && Leads(program[k], original) ==>
              !Journaled(SceneAfter(program[..k], original).actions, KeyOf(program[k].action))
  {
    hide Atomic, AlwaysAtomic, SceneAfter, Journaled, Truthful, Leads, Claims;
    ProgramIsExact(program, original, j, p);
    if k :| Spoils(program, original, k) {
      var first := FirstSpoil(program, original, k);
      PlanWhile(program, original, j.dataAction, first);
      FirstTouchIsNoReturn(program, original, j.dataAction, first);
    } else {
      forall k | 0 <= k < |program| ensures !Leads(program[k], original) { NotSpoiling(program, original, k); }
    }
  }

  /** The first true claim about a key starts from its original token, so it cannot lead there. */
  lemma FirstTouchIsNoReturn(program: seq<Instr>, original: World, d: DataAction, k: nat)
    requires Claims(program, original, d) && Spoils(program, original, k) && Plan(program[..k], original, d)
    requires Truthful(program[k], SceneAfter(program[..k], original))
    ensures Leads(program[k], original) && Journaled(SceneAfter(program[..k], original).actions, KeyOf(program[k].action))
  {
    hide SceneAfter, Plan, Trace, Journaled, KeyOf, SubjectOf;
    var s := SceneAfter(program[..k], original);
    assert ClaimStep(program[k], s, original, d);
    PlanTraced(program[..k], original, d);
    TraceUntouched(s, original, d);
    ForwardKey(program[k].action);
  }

  /**
    One more action behind a plan, on a key the plan does not touch, whatever it claims:
    atomic if and only if its new token is not the one already in place.
   */
  lemma AccuracyIsExact(plan: seq<Instr>, a: Action, original: World, j: Journal, p: Policy)
    requires Plan(plan, original, j.dataAction) && FreshJournal(j) && CanReload(original)
    requires Behind(a, SceneAfter(plan, original), original, j.dataAction) && !Journaled(SceneAfter(plan, original).actions, KeyOf(a))
    ensures AlwaysAtomic(original, j, plan + [Do(a)], p) <==> a.newState != original[KeyOf(a)]
  {
    hide Atomic, Plan, SceneAfter, Journaled, Behind, CanReload, Traced, Prepares, Untouched;
    var s := SceneAfter(plan, original);
    BehindIsPlain(a, s, original, j.dataAction);
    assert plan + [Do(a)] + [] == plan + [Do(a)];
    if a.newState == original[KeyOf(a)] {
      ClaimFails(plan, Do(a), a, [], original, j, p);
    } else {
      PlanTraced(plan, original, j.dataAction);
      TraceUntouched(s, original, j.dataAction);
      UntouchedKey(s, KeyOf(a), original);
      PlanPrepares(plan, original, j.dataAction);
      forall fates, powerLoss, attempts, last ensures Atomic(original, j, plan + [Do(a)], fates, powerLoss, p, attempts, last) {
        if a.oldState == original[KeyOf(a)] {
          TruthExtends(plan, a, original, j.dataAction);
          UnactivatedIsAtomic(plan + [Do(a)], original, j, fates, powerLoss, p, attempts, last);
        } else {
          ForeignIsAtomic(plan, Do(a), a, [], original, j, fates, powerLoss, p, attempts, last);
        }
      }
    }
  }

  lemma UntouchedKey(s: Scene, key: Key, original: World)
    requires Untouched(s, original) && key in original && !key.subject.Reloads? && !Journaled(s.actions, key)
    ensures key in s.world && s.world[key] == original[key]
  {
  }

  lemma TruthExtends(plan: seq<Instr>, a: Action, original: World, d: DataAction)
    requires Plan(plan, original, d) && Behind(a, SceneAfter(plan, original), original, d)
    requires !Journaled(SceneAfter(plan, original).actions, KeyOf(a)) && a.oldState == original[KeyOf(a)]
    ensures Prepares(plan + [Do(a)], original, d)
  {
    hide FinalScene, PlanFrom, Traced, Journaled, SubjectOf, ProgramFits;
    var s := SceneAfter(plan, original);
    PlanTraced(plan, original, d);
    TraceUntouched(s, original, d);
    BehindIsPlain(a, s, original, d);
    UntouchedKey(s, KeyOf(a), original);
    TracedIsInactive(s, original, d);
    assert Undoable(a, s, original, d);
    PlanAppend(plan, Do(a), Scene([], original, false), original, d);
    PlanPrepares(plan + [Do(a)], original, d);
  }

  lemma TracedIsInactive(s: Scene, original: World, d: DataAction)
    requires Traced(s, original, d)
    ensures !s.activated
  {
  }

  // ---- Plans are instances ----

  lemma {:induction false} PlanAt(plan: seq<Instr>, s: Scene, original: World, d: DataAction, k: nat)
    requires PlanFrom(plan, s, original, d) && k < |plan|
    ensures PlanStep(plan[k], FinalScene(plan[..k], s), original, d)
    decreases |plan|
  {
    hide PlanStep, After;
    if k == 0 {
      assert plan[..0] == [];
    } else {
      PlanAt(plan[1..], After(plan[0], s), original, d, k - 1);
      assert plan[..k][0] == plan[0] && plan[..k][1..] == plan[1..][..k - 1];
    }
  }

  lemma StepClaims(i: Instr, s: Scene, original: World, d: DataAction)
    requires PlanStep(i, s, original, d)
    ensures ClaimStep(i, s, original, d)
  {
    hide Journaled, SubjectOf, Ended, TakesBack, ReverseKind;
  }

  /** A plan claims nothing but what it finds. */
  lemma PlanClaims(plan: seq<Instr>, original: World, d: DataAction)
    requires Plan(plan, original, d)
    ensures Claims(plan, original, d)
  {
    hide PlanFrom, PlanStep, ClaimStep, FinalScene;
    forall k | 0 <= k < |plan| ensures ClaimStep(plan[k], SceneAfter(plan[..k], original), original, d) {
      PlanAt(plan, Scene([], original, false), original, d, k);
      StepClaims(plan[k], SceneAfter(plan[..k], original), original, d);
    }
  }

  /** Scenes that differ in one key at most, and only until an action is about it. */
  ghost predicate Similar(s: Scene, e: Scene, key: Key) {
    && e.actions == s.actions && e.world.Keys == s.world.Keys
    && (forall other :: other in s.world && other != key ==> e.world[other] == s.world[other])
    && (key in s.world && Journaled(s.actions, key) ==> e.world[key] == s.world[key])
  }

  lemma PerformedSimilar(s: Scene, e: Scene, a: Action, key: Key)
    requires Similar(s, e, key)
    ensures Similar(Performed(s, a), Performed(e, a), key)
  {
    hide IsForward;
    if KeyOf(a) != key { StillUnjournaledBy(s.actions, a.(seqNo := |s.actions| + 1, status := Done), key); }
  }

  lemma StillUnjournaledBy(actions: seq<Action>, b: Action, key: Key)
    requires KeyOf(b) != key
    ensures Journaled(actions + [b], key) ==> Journaled(actions, key)
  {
    hide IsForward, KeyOf;
    if Journaled(actions + [b], key) {
      var i :| 0 <= i < |actions + [b]| && IsForward((actions + [b])[i]) && KeyOf((actions + [b])[i]) == key;
      assert (actions + [b])[i] == actions[i];
    }
  }

  lemma {:induction false} ProgramSimilar(p: seq<Instr>, s: Scene, e: Scene, key: Key)
    requires Similar(s, e, key) && !key.subject.Reloads? && forall i :: 0 <= i < |p| ==> !p[i].DoActivate?
    ensures Similar(FinalScene(p, s), FinalScene(p, e), key)
    decreases |p|
  {
    hide Performed, Journaled;
    if p != [] {
      match p[0] {
        case Enter(_) =>
        case Do(a) => PerformedSimilar(s, e, a, key);
        case Change(a) => PerformedSimilar(s, e, a, key);
        case DoReload =>
          assert ReloadAction(e.world, Reload) == ReloadAction(s.world, Reload);
          PerformedSimilar(s, e, ReloadAction(s.world, Reload), key);
      }
      ProgramSimilar(p[1..], After(p[0], s), After(p[0], e), key);
    }
  }

  lemma ClaimSimilar(i: Instr, s: Scene, e: Scene, original: World, other: World, d: DataAction, key: Key)
    requires ClaimStep(i, s, original, d) && Similar(s, e, key) && other.Keys == original.Keys
    ensures ClaimStep(i, e, other, d)
  {
    hide Journaled, Ended, TakesBack, ReverseKind, KeyOf, SubjectOf, IsForward;
  }

  /** What a program claims about one key may be wrong, if the claim comes first. */
  lemma ClaimsElsewhere(program: seq<Instr>, original: World, d: DataAction, key: Key, token: Token)
    requires Claims(program, original, d) && key in original && !key.subject.Reloads?
    ensures Claims(program, original[key := token], d)
  {
    hide ClaimStep, FinalScene, Similar;
    var other := original[key := token];
    assert Similar(Scene([], original, false), Scene([], other, false), key) by { NothingSimilar(original, key, token); }
    forall k | 0 <= k < |program| ensures ClaimStep(program[k], SceneAfter(program[..k], other), other, d) {
      ClaimsDoNotActivate(program, original, d);
      ProgramSimilar(program[..k], Scene([], original, false), Scene([], other, false), key);
      ClaimSimilar(program[k], SceneAfter(program[..k], original), SceneAfter(program[..k], other), original, other, d, key);
    }
  }

  lemma NothingSimilar(original: World, key: Key, token: Token)
    requires key in original
    ensures Similar(Scene([], original, false), Scene([], original[key := token], false), key)
  {
  }

  lemma ClaimsDoNotActivate(program: seq<Instr>, original: World, d: DataAction)
    requires Claims(program, original, d)
    ensures forall i :: 0 <= i < |program| ==> !program[i].DoActivate?
  {
    hide ClaimedAction, FinalScene;
  }
}
