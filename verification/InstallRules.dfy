/**
  The small rules that everything else leans on, each stated on its own: which kinds belong
  together, which documents the store takes, what finishing a record means, and that
  retained data is left alone.
 */
module InstallRules {
  import opened Options
  import opened InstallJournal
  import opened InstallEngine
  import opened InstallRollback
  import opened InstallRollforward
  import opened InstallUndecided
  import opened InstallEndings

  // ---- Kinds, subjects and keys ----

  /** Every forward kind can be undone but two, and a kind is a reversal exactly if it undoes one, or restores data. */
  lemma ReversalsAreComplete(k: Kind)
    ensures ReverseKind(k).None? <==> IsReverse(k) || k.ValidationStop? || k.Activation?
    ensures IsReverse(k) <==> k.RestoreData? || ReverseKind(ForwardKind(k)) == Some(k)
  {
  }

  /** Two forward kinds are about the same thing only if they are the two directions of one switch. */
  lemma SubjectsAreApart(a: Kind, b: Kind)
    requires !IsReverse(a) && !IsReverse(b)
    ensures SubjectOf(a) == SubjectOf(b) <==>
            || a == b
            || (a in {Mask, Unmask} && b in {Mask, Unmask}) || (a in {Disable, Enable} && b in {Disable, Enable})
            || (a in {Stop, Start} && b in {Stop, Start}) || (a in {ValidationStart, ValidationStop} && b in {ValidationStart, ValidationStop})
  {
  }

  /** Data and drop-in files are told apart by their references, everything else by its role. */
  lemma KeysAreApart(a: Action, b: Action)
    requires a.kind == b.kind
    ensures KeyOf(a) == KeyOf(b) <==>
            && a.role == b.role
            && (a.kind in {DataPublish, DataIsolate, RestoreData, Dropin, RestoreDropin} ==> a.candidate == b.candidate)
  {
  }

  lemma PhasesSplit(phase: Phase)
    ensures Pending(phase) <==> phase != ActivationCommitted && phase != Complete
  {
  }

  /** The daemon's gate: an activated or completed journal of the target, for this very layout. */
  lemma GateIsExact(j: Journal, layout: string)
    ensures PassesStartupGate(j, layout) <==>
            (j.phase == ActivationCommitted || j.phase == Complete) && j.authority == Target && j.layout == layout
  {
  }

  /** The old token means that nothing happened; otherwise a reload has happened, and other actions only with the new token. */
  lemma ProgressIsExact(a: Action, actual: Token)
    ensures Classify(a, actual) == Some(NotStarted) <==> actual == a.oldState
    ensures Classify(a, actual) == Some(Started) <==>
            actual != a.oldState && (actual == a.newState || a.kind in {Reload, RestoreReload})
  {
  }

  // ---- What can fail ----

  /** A half done write is read by everybody and may be lost; a half done effect has happened; a refused one has not. */
  lemma FailuresAreReal(m: Machine, next: Journal, a: Action)
    requires m.fates != [] && !m.fates[0].Proceed? && ValidJournal(next)
    requires !a.kind.Activation? && KeyOf(a) in m.world && m.world[KeyOf(a)] == a.oldState
    ensures !Save(m, next).ok && Save(m, next).m.durable == m.durable && Save(m, next).m.fates == m.fates[1..]
    ensures Save(m, next).m.visible == if m.fates[0].HalfDone? then next else m.visible
    ensures !Apply(m, a).1 && Apply(m, a).0.fates == m.fates[1..]
    ensures Apply(m, a).0.world == if m.fates[0].HalfDone? then m.world[KeyOf(a) := a.newState] else m.world
  {
  }

  /** An effect on a key that holds a third token, or that does not exist, does not happen. */
  lemma UnknownStaysUnknown(m: Machine, a: Action)
    requires !a.kind.Activation? && (KeyOf(a) in m.world ==> m.world[KeyOf(a)] != a.oldState && m.world[KeyOf(a)] != a.newState)
    ensures !Apply(m, a).1 && Apply(m, a).0.world == m.world && Apply(m, a).0.log == m.log
  {
  }

  // ---- Reloads count ----

  /** Every reload that succeeds, forwards or back, moves the number of reloads on by one. */
  lemma ReloadsCountOn(m: Machine, j: Journal, kind: Kind, f: Action)
    requires SubjectOf(kind).Reloads? && f.kind.Reload? && f.role == DefinitionRole
    ensures var r := Step(m, j, ReloadAction(m.world, kind)); r.ok ==> CurrentReload(r.m.world) == CurrentReload(m.world) + 1
    ensures var r := Reverse(m, j, f); r.ok ==> CurrentReload(r.m.world) == CurrentReload(m.world) + 1
  {
    hide Step;
    StepPerforms(m, j, ReloadAction(m.world, kind));
    var n := CurrentReload(m.world);
    StepPerforms(m, j, ReverseAction(f, RestoreReload, ReloadAt(n), ReloadAt(n + 1)));
  }

  // ---- What the store takes ----

  /** A document is published exactly if its positions are numbered from one and every action names two different states. */
  lemma PublishedIsSound(m: Machine, next: Journal)
    requires m.fates == []
    ensures Save(m, next).ok <==>
            forall i :: 0 <= i < |next.actions| ==>
              && next.actions[i].seqNo == i + 1
              && next.actions[i].oldState != Text("") && next.actions[i].newState != Text("")
              && next.actions[i].oldState != next.actions[i].newState
    ensures !Save(m, next).ok ==> Save(m, next).m == m
  {
  }

  /** An intent is recorded exactly if it names two different states, as the last action, open, under the next number. */
  lemma IntentIsRecorded(m: Machine, j: Journal, a: Action)
    requires m.fates == [] && ValidJournal(j)
    ensures var r := RecordIntent(m, j, a);
            && (r.ok <==> a.oldState != Text("") && a.newState != Text("") && a.oldState != a.newState)
            && (r.ok ==> r.j == j.(actions := j.actions + [a.(seqNo := |j.actions| + 1, status := Intent)]) && r.m.visible == r.j && r.m.durable == r.j)
            && (!r.ok ==> r.m == m)
  {
  }

  /** The given field, or the recorded one where none is given. */
  function Given(token: Token, recorded: Token): Token { if token == Text("") then recorded else token }

  function GivenRef(ref: string, recorded: string): string { if ref == "" then recorded else ref }

  /** A done record finishes an open record of the same number, kind and role, and keeps what it does not repeat. */
  lemma DoneFinishesRecord(m: Machine, j: Journal, a: Action)
    requires ValidJournal(j) && a.status.Done?
    ensures var r := RecordDone(m, j, a);
            r.ok ==>
              exists k :: 0 <= k < |j.actions| && j.actions[k].seqNo == a.seqNo && j.actions[k].kind == a.kind && j.actions[k].role == a.role
                && j.actions[k].status.Intent?
                && r.j == j.(actions := j.actions[k := Action(a.seqNo, a.kind, a.role,
                                                              Given(a.oldState, j.actions[k].oldState), Given(a.newState, j.actions[k].newState),
                                                              GivenRef(a.backup, j.actions[k].backup), GivenRef(a.candidate, j.actions[k].candidate),
                                                              Done)])
  {
    hide Save;
    var i := FindRecord(j.actions, a);
    if i < |j.actions| { SaveKeepsWorld(m, j.(actions := j.actions[i := FillFrom(a, j.actions[i])])); }
  }

  /** With nothing failing, an open record is finished, whatever of it is repeated. */
  lemma OpenRecordIsFinished(m: Machine, j: Journal, k: nat, a: Action)
    requires m.fates == [] && ValidJournal(j) && k < |j.actions| && j.actions[k].status.Intent?
    requires a == Action(k + 1, j.actions[k].kind, j.actions[k].role, Text(""), Text(""), "", "", Done)
    ensures RecordDone(m, j, a).ok && RecordDone(m, j, a).j == j.(actions := j.actions[k := j.actions[k].(status := Done)])
  {
    var i := FindRecord(j.actions, a);
    assert SameRecord(j.actions[k], a) && i <= k;
    assert j.actions[i].seqNo == i + 1;
  }

  // ---- Which reversals count ----

  /** An action counts as reversed exactly if a later one has its reverse kind, its role and its references. */
  lemma ReversedIsExact(actions: seq<Action>, f: Action)
    ensures AlreadyReversed(actions, f) <==>
            exists t :: 0 <= t < |actions| && actions[t].seqNo > f.seqNo && ReverseKind(f.kind) == Some(actions[t].kind)
              && actions[t].role == f.role && actions[t].backup == f.backup && actions[t].candidate == f.candidate
  {
    forall t | 0 <= t < |actions|
      ensures Undone(actions[t], f) <==>
              && actions[t].seqNo > f.seqNo && ReverseKind(f.kind) == Some(actions[t].kind)
              && actions[t].role == f.role && actions[t].backup == f.backup && actions[t].candidate == f.candidate
    {
    }
  }

  // ---- Retained data ----

  /** No reversal of data is open. */
  predicate DataSettled(actions: seq<Action>) {
    forall i :: 0 <= i < |actions| && SubjectOf(actions[i].kind).Data? && IsReverse(actions[i].kind) ==> actions[i].status.Done?
  }

  lemma StepMovesItsKey(m: Machine, j: Journal, a: Action, key: Key)
    requires key != KeyOf(a)
    ensures Unmoved(m.world, Step(m, j, a).m.world, key)
  {
    hide RecordIntent, RecordDone, SubjectOf, ValidAction;
    RecordsKeepWorld(m, j, a);
    var r := RecordIntent(m, j, a);
    if r.ok {
      var last := r.j.actions[|r.j.actions| - 1];
      EffectMovesItsKey(r.m, last, key);
      RecordsKeepWorld(Apply(r.m, last).0, r.j, last.(status := Done));
    }
  }

  lemma RecordsKeepWorld(m: Machine, j: Journal, a: Action)
    ensures RecordIntent(m, j, a).m.world == m.world && RecordDone(m, j, a).m.world == m.world
    ensures RecordIntent(m, j, a).ok ==>
              RecordIntent(m, j, a).j.actions != [] && KeyOf(RecordIntent(m, j, a).j.actions[|RecordIntent(m, j, a).j.actions| - 1]) == KeyOf(a)
  {
    hide Save, FindRecord, FillFrom, ValidAction;
    var a' := a.(seqNo := |j.actions| + 1, status := Intent);
    SaveKeepsWorld(m, j.(actions := j.actions + [a']));
    var i := FindRecord(j.actions, a);
    if i < |j.actions| { SaveKeepsWorld(m, j.(actions := j.actions[i := FillFrom(a, j.actions[i])])); }
  }

  lemma EffectMovesItsKey(m: Machine, a: Action, key: Key)
    requires key != KeyOf(a)
    ensures Unmoved(m.world, Apply(m, a).0.world, key)
  {
    hide KeyOf;
  }

  /** The run leaves the key alone, and its journal is still one of retained data. */
  ghost predicate LeavesData(r: Run, m: Machine, snapshot: seq<Action>, key: Key) {
    && Unmoved(m.world, r.m.world, key)
    && (r.ok ==> r.j.dataAction.RetainData? && ValidJournal(r.j) && DataSettled(r.j.actions) && Extends(snapshot, r.j.actions))
  }

  lemma StepLeavesData(m: Machine, j: Journal, a: Action, snapshot: seq<Action>, key: Key)
    requires j.dataAction.RetainData? && DataSettled(j.actions) && Extends(snapshot, j.actions)
    requires key.subject.Data? && !SubjectOf(a.kind).Data? && !a.kind.Activation?
    ensures LeavesData(Step(m, j, a), m, snapshot, key)
  {
    hide Step, ValidJournal;
    StepMovesItsKey(m, j, a, key);
    StepPerforms(m, j, a);
  }

  lemma ReverseLeavesData(m: Machine, j: Journal, f: Action, snapshot: seq<Action>, key: Key)
    requires j.dataAction.RetainData? && ValidJournal(j) && DataSettled(j.actions) && Extends(snapshot, j.actions)
    requires key.subject.Data? && IsForward(f)
    ensures LeavesData(Reverse(m, j, f), m, snapshot, key)
  {
    hide Step, Observe, Extends, DataSettled, ValidJournal;
    if ReverseKind(f.kind).Some? {
      var kind := ReverseKind(f.kind).value;
      ReverseKindsPairUp(f.kind);
      if !f.kind.DataPublish? {
        forall o, n ensures LeavesData(Step(m, j, ReverseAction(f, kind, o, n)), m, snapshot, key) {
          StepLeavesData(m, j, ReverseAction(f, kind, o, n), snapshot, key);
        }
      }
    }
  }

  lemma FinishLeavesData(m: Machine, j: Journal, t: nat, snapshot: seq<Action>, key: Key)
    requires j.dataAction.RetainData? && ValidJournal(j) && DataSettled(j.actions) && Extends(snapshot, j.actions)
    requires key.subject.Data? && t < |j.actions| && IsReverse(j.actions[t].kind)
    ensures LeavesData(FinishAction(m, j, j.actions[t]), m, snapshot, key)
  {
    hide FinishAction;
    FinishPerforms(m, j, t);
    var next := j.actions[t := j.actions[t].(status := Done)];
    if j.actions[t].status.Intent? { DoneExtends(j.actions, t); } else { assert next == j.actions; }
    assert Extends(j.actions, next);
    ExtendsTransitive(snapshot, j.actions, next);
  }

  lemma VisitLeavesData(m: Machine, j: Journal, snapshot: seq<Action>, n: nat, key: Key)
    requires j.dataAction.RetainData? && ValidJournal(j) && DataSettled(j.actions) && Extends(snapshot, j.actions)
    requires key.subject.Data? && 0 < n <= |snapshot| && snapshot[n - 1].seqNo == n
    ensures LeavesData(Visit(m, j, snapshot[n - 1]).run, m, snapshot, key)
  {
    hide FinishAction, Reverse, AlreadyReversed, Observe, Classify, DataSettled, ValidJournal;
    var a := snapshot[n - 1];
    assert AdvancesTo(a, j.actions[n - 1]);
    FinishBySeq(m, j, a, j.actions[n - 1]);
    if IsReverse(a.kind) { FinishLeavesData(m, j, n - 1, snapshot, key); }
    if IsForward(a) { ReverseLeavesData(m, j, a, snapshot, key); }
  }

  lemma {:induction false} SweepLeavesData(m: Machine, j: Journal, snapshot: seq<Action>, n: nat, key: Key)
    requires j.dataAction.RetainData? && ValidJournal(j) && DataSettled(j.actions) && Extends(snapshot, j.actions)
    requires key.subject.Data? && n <= |snapshot| && forall i :: 0 <= i < |snapshot| ==> snapshot[i].seqNo == i + 1
    ensures LeavesData(SweepBack(m, j, snapshot, n).run, m, snapshot, key)
    decreases n
  {
    hide Visit, DataSettled, ValidJournal, Extends;
    if n > 0 {
      VisitLeavesData(m, j, snapshot, n, key);
      var v := Visit(m, j, snapshot[n - 1]);
      if v.run.ok { SweepLeavesData(v.run.m, v.run.j, snapshot, n - 1, key); }
    }
  }

  /** Data that a transaction retains is not touched by a rollback, wherever it is cut and whatever its journal records. */
  lemma RetainedDataStays(m: Machine, p: Policy, key: Key)
    requires m.visible.authority.Source? && m.visible.dataAction.RetainData? && ValidJournal(m.visible) && DataSettled(m.visible.actions)
    requires key.subject.Data?
    ensures Unmoved(m.world, RecoverOnce(m, p).m.world, key)
  {
    hide SweepBack, Step, Save, DataSettled, Extends;
    var j := m.visible;
    SameExtends(j.actions);
    SweepLeavesData(m, j, j.actions, |j.actions|, key);
    var s := SweepBack(m, j, j.actions, |j.actions|);
    var reload := ReloadAction(s.run.m.world, RestoreReload);
    StepMovesItsKey(s.run.m, s.run.j, reload, key);
    var r := if s.reversed then Step(s.run.m, s.run.j, reload) else s.run;
    SaveKeepsWorld(r.m, r.j.(authority := Source, phase := Complete));
  }

  lemma SameExtends(actions: seq<Action>)
    ensures Extends(actions, actions)
  {
  }
}
