/**
  Source-side crash atomicity: whatever the cuts, a recovery that succeeds under
  source authority leaves every key at the token it had before the transaction.
 */
module InstallRollback {
  import opened Options
  import opened InstallJournal
  import opened InstallEngine

  /** A forward action on the world: not a reversal, a reload or the activation. */
  predicate IsForward(a: Action) {
    !IsReverse(a.kind) && !SubjectOf(a.kind).Reloads? && !a.kind.Activation?
  }

  predicate IsUndo(a: Action) { IsReverse(a.kind) && !SubjectOf(a.kind).Reloads? }

  /** No earlier forward action is about the key of the `i`th one. */
  ghost predicate FirstOnKey(actions: seq<Action>, i: nat)
    requires i < |actions|
  {
    forall k :: 0 <= k < i && IsForward(actions[k]) ==> KeyOf(actions[k]) != KeyOf(actions[i])
  }

  predicate SameIdentity(a: Action, b: Action) {
    a.kind == b.kind && a.role == b.role && a.backup == b.backup && a.candidate == b.candidate
  }

  /**
    What rollback relies on for the `i`th action. The first action on a key knows
    the key's original token and can be undone; a later action that can be undone
    does not lead back to that token.
   */
  ghost predicate Recoverable(actions: seq<Action>, i: nat, original: World)
    requires i < |actions|
  {
    var a := actions[i];
    && KeyOf(a) in original
    && (FirstOnKey(actions, i) ==> ReverseKind(a.kind).Some? && a.oldState == original[KeyOf(a)])
    && (!FirstOnKey(actions, i) && ReverseKind(a.kind).Some? ==> a.newState != original[KeyOf(a)])
    && (a.kind.DataPublish? ==> a.oldState == ABSENT && FirstOnKey(actions, i))
  }

  /** The `t`th action is the recorded reversal of the `i`th. */
  ghost predicate Undoes(actions: seq<Action>, t: nat, i: nat, original: World)
    requires i < |actions| && t < |actions|
  {
    && i < t && IsForward(actions[i]) && Undone(actions[t], actions[i])
    && actions[t].newState == actions[i].oldState
    && KeyOf(actions[i]) in original
    && actions[t].oldState != original[KeyOf(actions[i])]
  }

  ghost predicate Forwards(actions: seq<Action>, original: World) {
    && (forall i {:trigger Recoverable(actions, i, original)} ::
          0 <= i < |actions| && IsForward(actions[i]) ==> Recoverable(actions, i, original))
    && (forall i, k {:trigger SameIdentity(actions[i], actions[k])} :: 0 <= i < k < |actions| && IsForward(actions[i]) && IsForward(actions[k])
                       ==> !SameIdentity(actions[i], actions[k]))
  }

  ghost predicate Undos(actions: seq<Action>, original: World) {
    forall t {:trigger IsUndo(actions[t])} :: 0 <= t < |actions| && IsUndo(actions[t])
                ==> exists i :: 0 <= i < t && Undoes(actions, t, i, original)
  }

  /** Once the reversal of a key's first action is done, the key is back at its original token. */
  ghost predicate Restored(actions: seq<Action>, world: World, original: World) {
    forall i, t {:trigger Undoes(actions, t, i, original)} ::
                   0 <= i < |actions| && 0 <= t < |actions| && Undoes(actions, t, i, original)
                   && FirstOnKey(actions, i) && actions[t].status.Done?
                   ==> KeyOf(actions[i]) in world && world[KeyOf(actions[i])] == original[KeyOf(actions[i])]
  }

  ghost predicate SourceInv(j: Journal, world: World, original: World) {
    && ValidJournal(j) && j.authority.Source? && PhaseMatchesAuthority(j)
    && Forwards(j.actions, original)
    && (j.dataAction.RetainData? ==> forall i :: 0 <= i < |j.actions| ==> !j.actions[i].kind.DataPublish?)
    && Undos(j.actions, original)
    && Restored(j.actions, world, original)
  }

  // ---- What does not depend on statuses or on later actions ----

  lemma ShapeStable(a: seq<Action>, b: seq<Action>, original: World)
    requires Extends(a, b)
    ensures forall i :: 0 <= i < |a| ==> SameIdentity(a[i], b[i]) && KeyOf(a[i]) == KeyOf(b[i])
    ensures forall i :: 0 <= i < |a| ==> (FirstOnKey(a, i) <==> FirstOnKey(b, i))
    ensures forall i :: 0 <= i < |a| ==> (Recoverable(a, i, original) <==> Recoverable(b, i, original))
    ensures forall t, i :: 0 <= t < |a| && 0 <= i < |a| ==> (Undoes(a, t, i, original) <==> Undoes(b, t, i, original))
  {
    assert forall i :: 0 <= i < |a| ==> AdvancesTo(a[i], b[i]);
    forall i | 0 <= i < |a| ensures FirstOnKey(a, i) <==> FirstOnKey(b, i) {
      assert forall k :: 0 <= k < i ==> AdvancesTo(a[k], b[k]);
    }
  }

  /** A document that lags behind a sound one is itself sound. */
  lemma EarlierIsSound(j: Journal, later: Journal, world: World, original: World)
    requires SourceInv(later, world, original)
    requires ValidJournal(j) && j.authority.Source? && PhaseMatchesAuthority(j) && j.dataAction == later.dataAction
    requires Extends(j.actions, later.actions)
    ensures SourceInv(j, world, original)
  {
    var a, b := j.actions, later.actions;
    ShapeStable(a, b, original);
    assert forall i :: 0 <= i < |a| ==> AdvancesTo(a[i], b[i]);
    forall i, k | 0 <= i < k < |a| && IsForward(a[i]) && IsForward(a[k]) ensures !SameIdentity(a[i], a[k]) {
      assert !SameIdentity(b[i], b[k]);
    }
    forall t | 0 <= t < |a| && IsUndo(a[t]) ensures exists i :: 0 <= i < t && Undoes(a, t, i, original) {
      assert IsUndo(b[t]);
      var i :| 0 <= i < t && Undoes(b, t, i, original);
      assert Undoes(a, t, i, original);
    }
  }

  lemma UndoKey(later: Action, forward: Action)
    requires Undone(later, forward)
    ensures KeyOf(later) == KeyOf(forward)
  {
    ReverseKindsPairUp(forward.kind);
  }

  // ---- Appending and finishing ----

  lemma AppendSound(j: Journal, a: Action, world: World, original: World)
    requires SourceInv(j, world, original)
    requires a.seqNo == |j.actions| + 1 && ValidAction(a) && a.status.Intent?
    requires !IsForward(a) && !a.kind.DataPublish?
    requires IsUndo(a) ==> exists i :: 0 <= i < |j.actions| && Undoes(j.actions + [a], |j.actions|, i, original)
    ensures SourceInv(j.(actions := j.actions + [a]), world, original)
    ensures Extends(j.actions, j.actions + [a])
  {
    var b := j.actions + [a];
    ShapeStable(j.actions, b, original);
    forall t | 0 <= t < |b| && IsUndo(b[t]) ensures exists i :: 0 <= i < t && Undoes(b, t, i, original) {
      if t < |j.actions| {
        var i :| 0 <= i < t && Undoes(j.actions, t, i, original);
        assert Undoes(b, t, i, original);
      }
    }
  }

  lemma DoneSound(j: Journal, k: nat, world: World, original: World)
    requires SourceInv(j, world, original)
    requires k < |j.actions| && j.actions[k].status.Intent? && !IsForward(j.actions[k])
    requires IsUndo(j.actions[k]) ==>
               KeyOf(j.actions[k]) in world && world[KeyOf(j.actions[k])] == j.actions[k].newState
    ensures SourceInv(j.(actions := j.actions[k := j.actions[k].(status := Done)]), world, original)
    ensures Extends(j.actions, j.actions[k := j.actions[k].(status := Done)])
  {
    var a := j.actions;
    var b := a[k := a[k].(status := Done)];
    ShapeStable(a, b, original);
    forall t | 0 <= t < |b| && IsUndo(b[t]) ensures exists i :: 0 <= i < t && Undoes(b, t, i, original) {
      assert IsUndo(a[t]);
      var i :| 0 <= i < t && Undoes(a, t, i, original);
      assert Undoes(b, t, i, original);
    }
    forall i, t | 0 <= i < |b| && 0 <= t < |b| && Undoes(b, t, i, original) && FirstOnKey(b, i) && b[t].status.Done?
      ensures KeyOf(b[i]) in world && world[KeyOf(b[i])] == original[KeyOf(b[i])]
    {
      assert Undoes(a, t, i, original) && FirstOnKey(a, i);
      if t == k {
        UndoKey(a[t], a[i]);
        ReverseKindsPairUp(a[i].kind);
        assert Recoverable(a, i, original);
      }
    }
  }

  /** Moving a key keeps the invariant as long as no finished reversal speaks about that key. */
  lemma MoveSound(j: Journal, world: World, key: Key, token: Token, original: World)
    requires SourceInv(j, world, original)
    requires key in original && key in world && world[key] != original[key]
    ensures SourceInv(j, world[key := token], original)
  {
  }

  // ---- The machine under source authority ----

  /** The manager's own switches, as opposed to what the transaction installs. */
  predicate IsService(subject: Subject) {
    subject.Masking? || subject.Enablement? || subject.Running? || subject.Reloads? || subject.DisabledMark?
  }

  /** The keys a history answers for: every key but the reloads, or, after a lost activation, the payload. */
  predicate Tracked(key: Key, all: bool) { if all then !key.subject.Reloads? else !IsService(key.subject) }

  /** A tracked key that no recorded forward action is about still holds its original token. */
  ghost predicate OnlyRecordedMoved(actions: seq<Action>, world: World, original: World, all: bool) {
    forall key :: key in original && key in world && Tracked(key, all) && world[key] != original[key]
      ==> exists i :: 0 <= i < |actions| && IsForward(actions[i]) && KeyOf(actions[i]) == key
  }

  ghost predicate SourceSafeAt(world: World, visible: Journal, durable: Journal, original: World, all: bool) {
    && world.Keys == original.Keys
    && OnlyRecordedMoved(durable.actions, world, original, all)
    && SourceInv(visible, world, original)
    && ValidJournal(durable) && durable.authority.Source? && PhaseMatchesAuthority(durable)
    && durable.dataAction == visible.dataAction
    && Extends(durable.actions, visible.actions)
  }

  ghost predicate SourceSafe(m: Machine, original: World, all: bool) {
    SourceSafeAt(m.world, m.visible, m.durable, original, all)
  }

  lemma RecordedLater(a: seq<Action>, b: seq<Action>, world: World, original: World, all: bool)
    requires Extends(a, b) && OnlyRecordedMoved(a, world, original, all)
    ensures OnlyRecordedMoved(b, world, original, all)
  {
    forall key | key in original && key in world && Tracked(key, all) && world[key] != original[key]
      ensures exists i :: 0 <= i < |b| && IsForward(b[i]) && KeyOf(b[i]) == key
    {
      var i :| 0 <= i < |a| && IsForward(a[i]) && KeyOf(a[i]) == key;
      assert AdvancesTo(a[i], b[i]);
      assert IsForward(b[i]);
    }
  }

  lemma SaveSafe(m: Machine, next: Journal, original: World, all: bool)
    requires SourceSafe(m, original, all)
    requires SourceInv(next, m.world, original) && next.dataAction == m.visible.dataAction
    requires Extends(m.visible.actions, next.actions)
    ensures var r := Save(m, next);
            SourceSafe(r.m, original, all) && r.m.world == m.world && r.j == next && (r.ok ==> r.m.visible == next)
  {
    hide SourceInv, OnlyRecordedMoved;
    ExtendsTransitive(m.durable.actions, m.visible.actions, next.actions);
    RecordedLater(m.durable.actions, next.actions, m.world, original, all);
    SourceIsValid(next, m.world, original);
    assert Extends(next.actions, next.actions);
  }

  /** Finishing the `k`th recorded intent is one save of that action marked done. */
  lemma RecordDoneIsSave(m: Machine, j: Journal, k: nat)
    requires ValidJournal(j) && k < |j.actions| && j.actions[k].status.Intent?
    ensures RecordDone(m, j, j.actions[k].(status := Done))
            == Save(m, j.(actions := j.actions[k := j.actions[k].(status := Done)]))
  {
    var done := j.actions[k].(status := Done);
    var i := FindRecord(j.actions, done);
    assert SameRecord(j.actions[k], done);
    assert i <= k;
    assert j.actions[i].seqNo == i + 1;
    assert FillFrom(done, j.actions[k]) == done;
  }

  lemma MarkDoneSafe(m: Machine, j: Journal, k: nat, original: World, all: bool)
    requires SourceSafe(m, original, all) && m.visible == j
    requires k < |j.actions| && j.actions[k].status.Intent? && !IsForward(j.actions[k])
    requires IsUndo(j.actions[k]) ==>
               KeyOf(j.actions[k]) in m.world && m.world[KeyOf(j.actions[k])] == j.actions[k].newState
    ensures var r := RecordDone(m, j, j.actions[k].(status := Done));
            && SourceSafe(r.m, original, all) && r.m.world == m.world
            && (r.ok ==> r.m.visible == r.j == j.(actions := j.actions[k := j.actions[k].(status := Done)]))
  {
    RecordDoneIsSave(m, j, k);
    DoneSound(j, k, m.world, original);
    SaveSafe(m, j.(actions := j.actions[k := j.actions[k].(status := Done)]), original, all);
  }

  /** A reversal that recovery may record: its key has left the original token and leads back. */
  ghost predicate Licensed(j: Journal, a: Action, world: World, original: World) {
    && IsUndo(a) && KeyOf(a) in original && KeyOf(a) in world
    && world[KeyOf(a)] == a.oldState && a.oldState != original[KeyOf(a)]
    && exists i :: 0 <= i < |j.actions| && IsForward(j.actions[i])
         && Undone(a.(seqNo := |j.actions| + 1), j.actions[i])
         && a.newState == j.actions[i].oldState
  }

  lemma IntentSafe(m: Machine, j: Journal, a: Action, original: World, all: bool)
    requires SourceSafe(m, original, all) && m.visible == j
    requires SubjectOf(a.kind).Reloads? || Licensed(j, a, m.world, original)
    ensures var r := RecordIntent(m, j, a);
            var a' := a.(seqNo := |j.actions| + 1, status := Intent);
            && SourceSafe(r.m, original, all)
            && (r.ok ==> r.m.world == m.world && r.m.visible == r.j == j.(actions := j.actions + [a']))
  {
    var n := |j.actions|;
    var a' := a.(seqNo := n + 1, status := Intent);
    if ValidAction(a') {
      var j1 := j.(actions := j.actions + [a']);
      if IsUndo(a) {
        var i :| 0 <= i < n && IsForward(j.actions[i]) && Undone(a.(seqNo := n + 1), j.actions[i])
          && a.newState == j.actions[i].oldState;
        UndoKey(a.(seqNo := n + 1), j.actions[i]);
        assert Undoes(j1.actions, n, i, original);
      }
      AppendSound(j, a', m.world, original);
      SaveSafe(m, j1, original, all);
    }
  }

  lemma EffectSafe(m: Machine, a: Action, original: World, all: bool)
    requires SourceSafe(m, original, all) && !a.kind.Activation?
    requires SubjectOf(a.kind).Reloads? ||
               (KeyOf(a) in original && m.world[KeyOf(a)] == a.oldState && a.oldState != original[KeyOf(a)])
    ensures var (m', ok) := Apply(m, a);
            && SourceSafe(m', original, all) && m'.visible == m.visible
            && (ok ==> KeyOf(a) in m.world && m'.world == m.world[KeyOf(a) := a.newState])
  {
    hide SourceInv;
    if KeyOf(a) in m.world {
      if SubjectOf(a.kind).Reloads? {
        ReloadMoveSound(m.visible, m.world, KeyOf(a), a.newState, original);
      } else {
        MoveSound(m.visible, m.world, KeyOf(a), a.newState, original);
      }
    }
  }

  lemma RecoveryStepSafe(m: Machine, j: Journal, a: Action, original: World, all: bool)
    requires SourceSafe(m, original, all) && m.visible == j
    requires SubjectOf(a.kind).Reloads? || Licensed(j, a, m.world, original)
    ensures var r := Step(m, j, a);
            && SourceSafe(r.m, original, all)
            && (r.ok ==>
                  && r.m.visible == r.j
                  && r.j == j.(actions := j.actions + [a.(seqNo := |j.actions| + 1, status := Done)])
                  && KeyOf(a) in m.world && r.m.world == m.world[KeyOf(a) := a.newState])
  {
    hide SourceInv, RecordIntent, RecordDone, Apply;
    var n := |j.actions|;
    var a' := a.(seqNo := n + 1, status := Intent);
    var r := RecordIntent(m, j, a);
    IntentSafe(m, j, a, original, all);
    if r.ok {
      assert r.j.actions[n] == a';
      EffectSafe(r.m, a', original, all);
      var (m2, ok) := Apply(r.m, a');
      if ok {
        MarkDoneSafe(m2, r.j, n, original, all);
        assert r.j.actions[n := a'.(status := Done)] == j.actions + [a'.(status := Done)];
      }
    }
  }

  lemma ReloadMoveSound(j: Journal, world: World, key: Key, token: Token, original: World)
    requires SourceInv(j, world, original) && key.subject.Reloads?
    ensures SourceInv(j, world[key := token], original)
  {
  }

  // ---- The rollback loop ----

  /** What the loop has achieved once only the first `n` actions are left to visit. */
  ghost predicate Swept(j: Journal, world: World, original: World, n: nat) {
    && (forall t {:trigger IsUndo(j.actions[t])} ::
          n <= t < |j.actions| && IsUndo(j.actions[t]) ==> j.actions[t].status.Done?)
    && (forall k {:trigger FirstOnKey(j.actions, k)} :: n <= k < |j.actions| && IsForward(j.actions[k]) && FirstOnKey(j.actions, k)
                    ==> KeyOf(j.actions[k]) in world && KeyOf(j.actions[k]) in original
                        && world[KeyOf(j.actions[k])] == original[KeyOf(j.actions[k])])
  }

  /** A successful visit of the action at `n - 1` brings the loop one action further. */
  ghost predicate Advances(r: Run, snapshot: seq<Action>, original: World, n: nat, all: bool) {
    && SourceSafe(r.m, original, all)
    && (r.ok ==> r.m.visible == r.j && Extends(snapshot, r.j.actions) && Swept(r.j, r.m.world, original, n))
  }

  lemma FindSeqAt(j: Journal, k: nat)
    requires ValidJournal(j) && k < |j.actions|
    ensures FindSeq(j.actions, k + 1) == k
  {
    var i := FindSeq(j.actions, k + 1);
    assert j.actions[k].seqNo == k + 1;
    assert i <= k;
  }

  /** Finishing the reversal at `n - 1` only moves a key whose first action comes earlier. */
  lemma SweptAfterFinish(j: Journal, world: World, world': World, original: World, n: nat, i: nat, token: Token)
    requires Swept(j, world, original, n) && 0 < n <= |j.actions|
    requires i < n - 1 && IsForward(j.actions[i]) && KeyOf(j.actions[i]) == KeyOf(j.actions[n - 1])
    requires IsUndo(j.actions[n - 1]) && j.actions[n - 1].status.Intent?
    requires KeyOf(j.actions[i]) in world && world' == world[KeyOf(j.actions[i]) := token]
    ensures Swept(j.(actions := j.actions[n - 1 := j.actions[n - 1].(status := Done)]), world', original, n - 1)
  {
    var b := j.actions[n - 1 := j.actions[n - 1].(status := Done)];
    forall k | n - 1 <= k < |b| && IsForward(b[k]) && FirstOnKey(b, k)
      ensures KeyOf(b[k]) in world' && KeyOf(b[k]) in original && world'[KeyOf(b[k])] == original[KeyOf(b[k])]
    {
      assert IsForward(b[i]) && KeyOf(b[i]) != KeyOf(b[k]);
      assert FirstOnKey(j.actions, k) by {
        forall h | 0 <= h < k && IsForward(j.actions[h]) ensures KeyOf(j.actions[h]) != KeyOf(j.actions[k]) {
          assert IsForward(b[h]) && KeyOf(b[h]) == KeyOf(j.actions[h]);
        }
      }
    }
  }

  lemma SourceIsValid(j: Journal, world: World, original: World)
    requires SourceInv(j, world, original)
    ensures ValidJournal(j) && j.authority.Source? && PhaseMatchesAuthority(j)
  {
  }

  lemma UndoTarget(j: Journal, world: World, original: World, t: nat) returns (i: nat)
    requires SourceInv(j, world, original) && t < |j.actions| && IsUndo(j.actions[t])
    ensures i < t && IsForward(j.actions[i]) && Undone(j.actions[t], j.actions[i])
    ensures KeyOf(j.actions[i]) == KeyOf(j.actions[t]) && KeyOf(j.actions[t]) in original
    ensures j.actions[t].oldState != original[KeyOf(j.actions[t])]
  {
    i :| 0 <= i < t && Undoes(j.actions, t, i, original);
    UndoKey(j.actions[t], j.actions[i]);
  }

  lemma FinishBySeq(m: Machine, j: Journal, a: Action, b: Action)
    requires a.seqNo == b.seqNo
    ensures FinishAction(m, j, a) == FinishAction(m, j, b)
  {
  }

  lemma FinishDoneSkips(m: Machine, j: Journal, t: nat)
    requires ValidJournal(j) && t < |j.actions| && j.actions[t].status.Done?
    ensures FinishAction(m, j, j.actions[t]) == Run(m, j, true)
  {
    FindSeqAt(j, t);
  }

  /** Finishing an unfinished action of the world, case by case. */
  lemma FinishIntent(m: Machine, j: Journal, t: nat)
    requires ValidJournal(j) && t < |j.actions| && j.actions[t].status.Intent?
    requires !SubjectOf(j.actions[t].kind).Reloads? && !j.actions[t].kind.Activation?
    ensures var c := j.actions[t];
            FinishAction(m, j, c) ==
            if KeyOf(c) !in m.world then Run(m, j, false)
            else if m.world[KeyOf(c)] == c.oldState then
              var (m', ok) := Apply(m, c);
              if ok then RecordDone(m', j, c.(status := Done)) else Run(m', j, false)
            else if m.world[KeyOf(c)] == c.newState then RecordDone(m, j, c.(status := Done))
            else Run(m, j, false)
  {
    hide RecordDone, Apply;
    FindSeqAt(j, t);
  }

  /** The effect of an unfinished reversal, as far as it still has to happen. */
  lemma CompleteUndoSafe(m: Machine, j: Journal, t: nat, original: World, all: bool)
    requires SourceSafe(m, original, all) && m.visible == j && t < |j.actions|
    requires IsUndo(j.actions[t]) && j.actions[t].status.Intent?
    ensures var r := FinishAction(m, j, j.actions[t]);
            && SourceSafe(r.m, original, all)
            && (r.ok ==>
                  && r.m.visible == r.j == j.(actions := j.actions[t := j.actions[t].(status := Done)])
                  && KeyOf(j.actions[t]) in m.world
                  && r.m.world == m.world[KeyOf(j.actions[t]) := j.actions[t].newState])
  {
    hide SourceInv, FinishAction, RecordDone, Apply, SubjectOf;
    SourceIsValid(j, m.world, original);
    var current := j.actions[t];
    FinishIntent(m, j, t);
    var i := UndoTarget(j, m.world, original, t);
    if KeyOf(current) in m.world {
      if m.world[KeyOf(current)] == current.oldState {
        EffectSafe(m, current, original, all);
        var (m', ok) := Apply(m, current);
        if ok { MarkDoneSafe(m', j, t, original, all); }
      } else if m.world[KeyOf(current)] == current.newState {
        MarkDoneSafe(m, j, t, original, all);
      }
    }
  }

  lemma FinishUndoAdvances(m: Machine, j: Journal, snapshot: seq<Action>, n: nat, original: World, all: bool)
    requires SourceSafe(m, original, all) && m.visible == j && Extends(snapshot, j.actions)
    requires 0 < n <= |snapshot| && IsUndo(snapshot[n - 1]) && snapshot[n - 1].seqNo == n
    requires Swept(j, m.world, original, n)
    ensures Advances(FinishAction(m, j, snapshot[n - 1]), snapshot, original, n - 1, all)
  {
    hide SourceInv, FinishAction;
    var t := n - 1;
    assert AdvancesTo(snapshot[t], j.actions[t]);
    SourceIsValid(j, m.world, original);
    var r := FinishAction(m, j, snapshot[t]);
    FinishBySeq(m, j, snapshot[t], j.actions[t]);
    if j.actions[t].status.Done? {
      FinishDoneSkips(m, j, t);
    } else {
      CompleteUndoSafe(m, j, t, original, all);
      if r.ok {
        var i := UndoTarget(j, m.world, original, t);
        SweptAfterFinish(j, m.world, r.m.world, original, n, i, j.actions[t].newState);
        DoneExtends(j.actions, t);
        ExtendsTransitive(snapshot, j.actions, r.j.actions);
      }
    }
  }

  lemma DoneExtends(a: seq<Action>, k: nat)
    requires k < |a| && a[k].status.Intent?
    ensures Extends(a, a[k := a[k].(status := Done)])
  {
  }

  /** A reversal names the one forward action it undoes. */
  lemma UndoneMeansUndoes(actions: seq<Action>, original: World, t: nat, k: nat)
    requires Forwards(actions, original) && Undos(actions, original)
    requires t < |actions| && k < |actions| && IsForward(actions[k]) && Undone(actions[t], actions[k])
    ensures Undoes(actions, t, k, original)
  {
    ReverseKindsPairUp(actions[k].kind);
    assert IsUndo(actions[t]);
    var i :| 0 <= i < t && Undoes(actions, t, i, original);
    ReverseKindsPairUp(actions[i].kind);
    assert SameIdentity(actions[i], actions[k]) && SameIdentity(actions[k], actions[i]);
  }

  /** A recorded reversal of a forward action that has been swept means its key is restored. */
  lemma ReversedMeansRestored(j: Journal, world: World, original: World, k: nat, t: nat)
    requires SourceInv(j, world, original)
    requires k < |j.actions| && IsForward(j.actions[k]) && FirstOnKey(j.actions, k)
    requires t < |j.actions| && Undone(j.actions[t], j.actions[k])
    requires forall h :: k < h < |j.actions| && IsUndo(j.actions[h]) ==> j.actions[h].status.Done?
    ensures KeyOf(j.actions[k]) in original && KeyOf(j.actions[k]) in world
    ensures world[KeyOf(j.actions[k])] == original[KeyOf(j.actions[k])]
  {
    UndoneMeansUndoes(j.actions, original, t, k);
    ReverseKindsPairUp(j.actions[k].kind);
  }

  /** Reversing the action at `n - 1` restores its key if it was the first on it. */
  lemma SweptAfterReverse(j: Journal, world: World, original: World, n: nat, a: Action)
    requires Swept(j, world, original, n) && 0 < n <= |j.actions|
    requires IsForward(j.actions[n - 1]) && Recoverable(j.actions, n - 1, original)
    requires IsUndo(a) && a.status.Done?
    requires world.Keys == original.Keys
    ensures Swept(j.(actions := j.actions + [a]), world[KeyOf(j.actions[n - 1]) := j.actions[n - 1].oldState],
                  original, n - 1)
  {
    var b := j.actions + [a];
    var world' := world[KeyOf(j.actions[n - 1]) := j.actions[n - 1].oldState];
    forall k | n - 1 <= k < |b| && IsForward(b[k]) && FirstOnKey(b, k)
      ensures KeyOf(b[k]) in world' && KeyOf(b[k]) in original && world'[KeyOf(b[k])] == original[KeyOf(b[k])]
    {
      assert FirstOnKey(j.actions, k) by {
        forall h | 0 <= h < k && IsForward(j.actions[h]) ensures KeyOf(j.actions[h]) != KeyOf(j.actions[k]) {
          assert IsForward(b[h]);
        }
      }
      if k > n - 1 { assert IsForward(b[n - 1]); }
    }
  }

  /** The reversal that `Reverse` records for a started forward action. */
  function ReversalOf(f: Action, actual: Token): Action
    requires ReverseKind(f.kind).Some?
  {
    var kind := ReverseKind(f.kind).value;
    if kind.DataIsolate? then ReverseAction(f, kind, actual, ABSENT)
    else ReverseAction(f, kind, f.newState, f.oldState)
  }

  lemma ReversalLicensed(j: Journal, world: World, original: World, k: nat, f: Action)
    requires SourceInv(j, world, original) && k < |j.actions| && AdvancesTo(f, j.actions[k])
    requires IsForward(f) && ReverseKind(f.kind).Some?
    requires KeyOf(f) in world && world[KeyOf(f)] == f.newState && world.Keys == original.Keys
    ensures Licensed(j, ReversalOf(f, f.newState), world, original)
    ensures ReversalOf(f, f.newState).newState == f.oldState && KeyOf(ReversalOf(f, f.newState)) == KeyOf(f)
    ensures f.kind.DataPublish? ==> j.dataAction.CreateData? && f.newState != ABSENT
  {
    ReverseKindsPairUp(f.kind);
    assert Recoverable(j.actions, k, original);
    assert ValidAction(j.actions[k]);
    assert Undone(ReversalOf(f, f.newState).(seqNo := |j.actions| + 1), j.actions[k]);
  }

  lemma ReverseIsStep(m: Machine, j: Journal, f: Action)
    requires IsForward(f) && ReverseKind(f.kind).Some?
    requires KeyOf(f) in m.world && m.world[KeyOf(f)] == f.newState
    requires f.kind.DataPublish? ==> j.dataAction.CreateData? && f.newState != ABSENT
    ensures Reverse(m, j, f) == Step(m, j, ReversalOf(f, f.newState))
  {
    hide Step;
  }

  lemma ForwardIsRecoverable(j: Journal, world: World, original: World, k: nat)
    requires SourceInv(j, world, original) && k < |j.actions| && IsForward(j.actions[k])
    ensures Recoverable(j.actions, k, original)
  {
  }

  lemma ReverseAdvances(m: Machine, j: Journal, snapshot: seq<Action>, n: nat, original: World, all: bool)
    requires SourceSafe(m, original, all) && m.visible == j && Extends(snapshot, j.actions)
    requires 0 < n <= |snapshot| && IsForward(snapshot[n - 1])
    requires Swept(j, m.world, original, n)
    requires ReverseKind(snapshot[n - 1].kind).Some?
    requires KeyOf(snapshot[n - 1]) in m.world && m.world[KeyOf(snapshot[n - 1])] == snapshot[n - 1].newState
    ensures Advances(Reverse(m, j, snapshot[n - 1]), snapshot, original, n - 1, all)
  {
    hide SourceInv, Step, Reverse;
    var f := snapshot[n - 1];
    assert AdvancesTo(f, j.actions[n - 1]);
    ReversalLicensed(j, m.world, original, n - 1, f);
    var a := ReversalOf(f, f.newState);
    RecoveryStepSafe(m, j, a, original, all);
    var r := Step(m, j, a);
    ReverseIsStep(m, j, f);
    if r.ok {
      var done := a.(seqNo := |j.actions| + 1, status := Done);
      ForwardIsRecoverable(j, m.world, original, n - 1);
      SweptAfterReverse(j, m.world, original, n, done);
      assert Extends(j.actions, j.actions + [done]);
      ExtendsTransitive(snapshot, j.actions, j.actions + [done]);
    }
  }

  /** A visit that changes nothing still settles the action at `n - 1`. */
  lemma SkipAdvances(m: Machine, j: Journal, snapshot: seq<Action>, n: nat, original: World, all: bool)
    requires SourceSafe(m, original, all) && m.visible == j && Extends(snapshot, j.actions)
    requires 0 < n <= |snapshot| && Swept(j, m.world, original, n)
    requires IsUndo(j.actions[n - 1]) ==> j.actions[n - 1].status.Done?
    requires IsForward(j.actions[n - 1]) && FirstOnKey(j.actions, n - 1) ==>
               KeyOf(j.actions[n - 1]) in original && m.world[KeyOf(j.actions[n - 1])] == original[KeyOf(j.actions[n - 1])]
    ensures Advances(Run(m, j, true), snapshot, original, n - 1, all)
  {
  }

  lemma SweptUndosDone(j: Journal, world: World, original: World, n: nat)
    requires Swept(j, world, original, n)
    ensures forall h :: n <= h < |j.actions| && IsUndo(j.actions[h]) ==> j.actions[h].status.Done?
  {
  }

  /** A visit of a forward action, case by case. */
  lemma VisitForward(m: Machine, j: Journal, a: Action)
    requires IsForward(a) && KeyOf(a) in m.world
    ensures Visit(m, j, a).run ==
            if AlreadyReversed(j.actions, a) || m.world[KeyOf(a)] == a.oldState then Run(m, j, true)
            else if m.world[KeyOf(a)] != a.newState then Run(m, j, false)
            else if ReverseKind(a.kind).None? then Run(m, j, true)
            else Reverse(m, j, a)
  {
    hide Reverse, FinishAction, ReverseKind;
  }

  /** An action with a recorded reversal, once later reversals are finished, is undone. */
  lemma ReversedIsRestored(m: Machine, j: Journal, a: Action, n: nat, original: World, all: bool)
    requires SourceSafe(m, original, all) && m.visible == j && 0 < n <= |j.actions| && AdvancesTo(a, j.actions[n - 1])
    requires IsForward(a) && AlreadyReversed(j.actions, a) && Swept(j, m.world, original, n)
    ensures FirstOnKey(j.actions, n - 1) ==>
              KeyOf(a) in m.world && KeyOf(a) in original && m.world[KeyOf(a)] == original[KeyOf(a)]
  {
    hide SourceInv, Swept, ReverseKind;
    var t :| 0 <= t < |j.actions| && Undone(j.actions[t], a);
    assert Undone(j.actions[t], j.actions[n - 1]);
    if FirstOnKey(j.actions, n - 1) {
      SweptUndosDone(j, m.world, original, n);
      ReversedMeansRestored(j, m.world, original, n - 1, t);
    }
  }

  lemma VisitForwardAdvances(m: Machine, j: Journal, snapshot: seq<Action>, n: nat, original: World, all: bool)
    requires SourceSafe(m, original, all) && m.visible == j && Extends(snapshot, j.actions)
    requires 0 < n <= |snapshot| && IsForward(snapshot[n - 1])
    requires Swept(j, m.world, original, n)
    ensures Advances(Visit(m, j, snapshot[n - 1]).run, snapshot, original, n - 1, all)
  {
    hide SourceInv, Visit, Reverse, Swept, ReverseKind;
    var a := snapshot[n - 1];
    assert AdvancesTo(a, j.actions[n - 1]);
    ForwardIsRecoverable(j, m.world, original, n - 1);
    VisitForward(m, j, a);
    if AlreadyReversed(j.actions, a) {
      ReversedIsRestored(m, j, a, n, original, all);
      SkipAdvances(m, j, snapshot, n, original, all);
    } else if m.world[KeyOf(a)] == a.oldState {
      SkipAdvances(m, j, snapshot, n, original, all);
    } else if m.world[KeyOf(a)] == a.newState {
      if ReverseKind(a.kind).Some? {
        ReverseAdvances(m, j, snapshot, n, original, all);
      } else {
        SkipAdvances(m, j, snapshot, n, original, all);
      }
    }
  }

  lemma VisitAdvances(m: Machine, j: Journal, snapshot: seq<Action>, n: nat, original: World, all: bool)
    requires SourceSafe(m, original, all) && m.visible == j && Extends(snapshot, j.actions)
    requires 0 < n <= |snapshot| && snapshot[n - 1].seqNo == n
    requires Swept(j, m.world, original, n)
    ensures Advances(Visit(m, j, snapshot[n - 1]).run, snapshot, original, n - 1, all)
  {
    hide FinishAction, Reverse, SourceSafe;
    var a := snapshot[n - 1];
    assert AdvancesTo(a, j.actions[n - 1]);
    if IsUndo(a) {
      FinishUndoAdvances(m, j, snapshot, n, original, all);
    } else if IsForward(a) {
      VisitForwardAdvances(m, j, snapshot, n, original, all);
    } else {
      SkipAdvances(m, j, snapshot, n, original, all);
    }
  }

  lemma {:induction false} SweepBackRestores(m: Machine, j: Journal, snapshot: seq<Action>, n: nat, original: World, all: bool)
    requires SourceSafe(m, original, all) && m.visible == j && Extends(snapshot, j.actions) && n <= |snapshot|
    requires forall i :: 0 <= i < |snapshot| ==> snapshot[i].seqNo == i + 1
    requires Swept(j, m.world, original, n)
    ensures Advances(SweepBack(m, j, snapshot, n).run, snapshot, original, 0, all)
    decreases n
  {
    hide SourceInv, Visit;
    if n > 0 {
      VisitAdvances(m, j, snapshot, n, original, all);
      var s := Visit(m, j, snapshot[n - 1]);
      if s.run.ok {
        SweepBackRestores(s.run.m, s.run.j, snapshot, n - 1, original, all);
      }
    }
  }

  // ---- A whole rollback ----

  lemma {:induction false} FirstAction(actions: seq<Action>, i: nat) returns (k: nat)
    requires i < |actions| && IsForward(actions[i])
    ensures k < |actions| && IsForward(actions[k]) && KeyOf(actions[k]) == KeyOf(actions[i]) && FirstOnKey(actions, k)
    decreases i
  {
    if FirstOnKey(actions, i) {
      k := i;
    } else {
      var h :| 0 <= h < i && IsForward(actions[h]) && KeyOf(actions[h]) == KeyOf(actions[i]);
      k := FirstAction(actions, h);
    }
  }

  ghost predicate Journaled(actions: seq<Action>, key: Key) {
    exists i :: 0 <= i < |actions| && IsForward(actions[i]) && KeyOf(actions[i]) == key
  }

  /** Every tracked key and every journaled key is back where the transaction found it. */
  ghost predicate BackAtOriginal(actions: seq<Action>, world: World, original: World, all: bool) {
    && world.Keys == original.Keys
    && forall key :: key in original && (Journaled(actions, key) || Tracked(key, all))
         ==> world[key] == original[key]
  }

  lemma SweptIsBack(m: Machine, j: Journal, original: World, all: bool)
    requires SourceSafe(m, original, all) && m.visible == j && Swept(j, m.world, original, 0)
    ensures BackAtOriginal(j.actions, m.world, original, all)
  {
    hide SourceInv;
    RecordedLater(m.durable.actions, j.actions, m.world, original, all);
    forall key | key in original && (Journaled(j.actions, key) || Tracked(key, all))
      ensures m.world[key] == original[key]
    {
      if m.world[key] != original[key] {
        var i :| 0 <= i < |j.actions| && IsForward(j.actions[i]) && KeyOf(j.actions[i]) == key;
        var k := FirstAction(j.actions, i);
      }
    }
  }

  /** Rollback keeps the machine safe at every cut; if it succeeds the world is restored. */
  lemma RollbackRestores(m: Machine, original: World, all: bool)
    requires SourceSafe(m, original, all)
    ensures var r := Rollback(m, m.visible);
            && SourceSafe(r.m, original, all)
            && (r.ok ==> BackAtOriginal(r.m.visible.actions, r.m.world, original, all) && r.m.visible.phase.Complete?)
  {
    hide SourceInv, SweepBack, Step, SetPhase, Swept, BackAtOriginal, OnlyRecordedMoved;
    var j := m.visible;
    SourceIsValid(j, m.world, original);
    SweptAtEnd(j, m.world, original);
    SweepBackRestores(m, j, j.actions, |j.actions|, original, all);
    var s := SweepBack(m, j, j.actions, |j.actions|);
    if s.run.ok {
      SweptIsBack(s.run.m, s.run.j, original, all);
      var reload := ReloadAction(s.run.m.world, RestoreReload);
      RecoveryStepSafe(s.run.m, s.run.j, reload, original, all);
      var r := if s.reversed then Step(s.run.m, s.run.j, reload) else s.run;
      if r.ok {
        if s.reversed {
          StaysBack(s.run.j.actions, s.run.m.world, original, reload.(seqNo := |s.run.j.actions| + 1, status := Done), all);
        }
        CompleteSafe(r.m, original, all);
      }
    }
  }

  lemma StaysBack(actions: seq<Action>, world: World, original: World, reload: Action, all: bool)
    requires BackAtOriginal(actions, world, original, all) && SubjectOf(reload.kind).Reloads? && KeyOf(reload) in world
    ensures BackAtOriginal(actions + [reload], world[KeyOf(reload) := reload.newState], original, all)
  {
    var b := actions + [reload];
    forall key | key in original && Journaled(b, key) ensures !key.subject.Reloads? && Journaled(actions, key) {
      var i :| 0 <= i < |b| && IsForward(b[i]) && KeyOf(b[i]) == key;
    }
  }

  lemma SweptAtEnd(j: Journal, world: World, original: World)
    ensures Swept(j, world, original, |j.actions|)
  {
  }

  lemma CompleteSafe(m: Machine, original: World, all: bool)
    requires SourceSafe(m, original, all)
    ensures var r := SetPhase(m, m.visible.(authority := Source), Complete);
            && SourceSafe(r.m, original, all) && r.m.world == m.world
            && (r.ok ==> r.m.visible == m.visible.(phase := Complete))
  {
    var next := m.visible.(phase := Complete);
    assert SourceInv(next, m.world, original);
    SaveSafe(m, next, original, all);
  }

  /** A power loss falls back to a document that is just as safe. */
  lemma PowerLossSafe(m: Machine, original: World, all: bool)
    requires SourceSafe(m, original, all)
    ensures SourceSafe(PowerLoss(m), original, all)
  {
    EarlierIsSound(m.durable, m.visible, m.world, original);
  }
}
