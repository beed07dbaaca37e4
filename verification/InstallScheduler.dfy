/**
  The scheduler as the program runs it: one object whose methods update the journal,
  the store and the world step by step. Each method is proved to follow the engine's
  function of the same name, about which the theorems speak.
 */
module InstallScheduler {
  import opened Options
  import opened InstallJournal
  import Engine = InstallEngine
  import Programs = InstallPrograms
  import Undoing = InstallRollback
  import Finishing = InstallRollforward
  import Endings = InstallEndings
  import Atomicity = InstallAtomicity
  import Vetting = InstallVetting

  class InstallTransaction {
    var world: Engine.World
    var visible: Journal
    var durable: Journal
    var fates: seq<Engine.Fate>
    var log: seq<Engine.Event>
    var journal: Journal

    ghost function State(): Engine.Machine
      reads this
    {
      Engine.Machine(world, visible, durable, fates, log)
    }

    /** The object is where the run `r` left the machine; the journal in memory counts only on success. */
    ghost predicate Follows(r: Engine.Run, ok: bool)
      reads this
    {
      State() == r.m && ok == r.ok && (ok ==> journal == r.j)
    }

    constructor (world: Engine.World, first: Journal, fates: seq<Engine.Fate>)
      ensures State() == Engine.Begin(world, first, fates) && journal == first
    {
      this.world := world;
      visible, durable, journal := first, first, first;
      this.fates := fates;
      log := [Engine.Published(first, true)];
    }

    method NextFate() returns (fate: Engine.Fate)
      modifies this`fates
      ensures fate == old(Engine.FateOf(State())) && State() == old(Engine.Consume(State()))
    {
      fate := Engine.Proceed;
      if fates != [] {
        fate := fates[0];
        fates := fates[1..];
      }
    }

    /** The store publishes a valid document; only a synced publication reports success. */
    method Save(next: Journal) returns (published: bool, ok: bool)
      modifies this`visible, this`durable, this`fates, this`log
      ensures Engine.Run(State(), next, ok) == old(Engine.Save(State(), next))
      ensures ok ==> published
      ensures published ==> visible == next
    {
      published, ok := false, false;
      var valid := Validate(next);
      if valid {
        var fate := NextFate();
        if !fate.Refuse? {
          visible := next;
          published := true;
          if fate.Proceed? {
            durable := next;
            ok := true;
          }
          log := log + [Engine.Published(next, ok)];
        }
      }
    }

    method Validate(j: Journal) returns (ok: bool)
      ensures ok == ValidJournal(j)
    {
      var i := 0;
      while i < |j.actions|
        invariant 0 <= i <= |j.actions|
        invariant forall k :: 0 <= k < i ==> j.actions[k].seqNo == k + 1 && ValidAction(j.actions[k])
      {
        if j.actions[i].seqNo != i + 1 || !ValidAction(j.actions[i]) {
          return false;
        }
        i := i + 1;
      }
      ok := true;
    }

    method RecordIntent(a: Action) returns (ok: bool)
      modifies this
      ensures Follows(old(Engine.RecordIntent(State(), journal, a)), ok)
      ensures ok ==> |journal.actions| == old(|journal.actions|) + 1
    {
      hide Engine.Save;
      var a' := a.(seqNo := |journal.actions| + 1, status := Intent);
      if !ValidAction(a') {
        return false;
      }
      var next := journal.(actions := journal.actions + [a']);
      var published;
      published, ok := Save(next);
      if published { journal := next; }
    }

    /** Completes the first recorded action with the sequence number, kind and role of `a`. */
    method RecordDone(a: Action) returns (ok: bool)
      modifies this
      ensures Follows(old(Engine.RecordDone(State(), journal, a)), ok)
    {
      hide Engine.Save;
      var i := 0;
      while i < |journal.actions| && !Engine.SameRecord(journal.actions[i], a)
        invariant 0 <= i <= |journal.actions|
        invariant forall k :: 0 <= k < i ==> !Engine.SameRecord(journal.actions[k], a)
      {
        i := i + 1;
      }
      assert i == Engine.FindRecord(journal.actions, a);
      if i == |journal.actions| || journal.actions[i].status.Done? {
        return false;
      }
      var done := Engine.FillFrom(a, journal.actions[i]);
      if !ValidAction(done) {
        return false;
      }
      var next := journal.(actions := journal.actions[i := done]);
      var published;
      published, ok := Save(next);
      if published { journal := next; }
    }

    /** The effects move the key of `a` from its old to its new token. */
    method ApplyEffect(a: Action) returns (ok: bool)
      modifies this`world, this`fates, this`log
      ensures (State(), ok) == old(Engine.Apply(State(), a))
    {
      hide KeyOf;
      var fate := NextFate();
      if fate.Refuse? {
        return false;
      }
      if !a.kind.Activation? {
        var key := KeyOf(a);
        if key !in world || (world[key] != a.oldState && world[key] != a.newState) {
          return false;
        }
        world := world[key := a.newState];
      }
      log := log + [Engine.Effect(a)];
      ok := fate.Proceed?;
    }

    method CurrentReload() returns (n: nat)
      ensures n == Engine.CurrentReload(world)
    {
      n := 0;
      if RELOAD_KEY in world && world[RELOAD_KEY].ReloadAt? {
        n := world[RELOAD_KEY].count;
      }
    }

    method FinishLast() returns (ok: bool)
      modifies this
      ensures Follows(old(Engine.FinishLast(State(), journal)), ok)
    {
      hide Engine.RecordDone;
      if journal.actions == [] {
        return false;
      }
      ok := RecordDone(journal.actions[|journal.actions| - 1].(status := Done));
    }

    /** Intent, effect, done: each durable before the next. */
    method Step(a: Action) returns (ok: bool)
      modifies this
      ensures Follows(old(Engine.Step(State(), journal, a)), ok)
    {
      hide Engine.Save, Engine.Apply, Engine.FinishLast;
      ok := RecordIntent(a);
      if !ok { return; }
      ok := ApplyEffect(journal.actions[|journal.actions| - 1]);
      if !ok { return; }
      ok := FinishLast();
    }

    method FileStep(a: Action) returns (ok: bool)
      modifies this
      ensures Follows(old(Engine.Execute(State(), journal, Engine.Change(a))), ok)
    {
      hide Engine.Step;
      if a.oldState == a.newState {
        return true;
      }
      ok := Step(a);
    }

    method ReloadStep() returns (ok: bool)
      modifies this
      ensures Follows(old(Engine.ReloadStep(State(), journal)), ok)
    {
      hide Engine.Step;
      var n := CurrentReload();
      ok := Step(Action(0, Reload, DefinitionRole, ReloadAt(n), ReloadAt(n + 1), "", "", Intent));
    }

    method Activate() returns (ok: bool)
      modifies this
      ensures Follows(old(Engine.Activate(State(), journal)), ok)
    {
      hide Engine.Save, Engine.Apply, Engine.FinishLast;
      ok := RecordIntent(Engine.ActivationAction());
      if !ok { return; }
      journal := journal.(authority := Target, phase := ActivationCommitted);
      var _, saved := Save(journal);
      if !saved { return false; }
      ok := ApplyEffect(journal.actions[|journal.actions| - 1]);
      if !ok { return; }
      ok := FinishLast();
    }

    method SetPhase(phase: Phase) returns (ok: bool)
      modifies this
      ensures Follows(old(Engine.SetPhase(State(), journal, phase)), ok)
    {
      hide Engine.Save;
      journal := journal.(phase := phase);
      var _, saved := Save(journal);
      ok := saved;
    }

    // ---- Recovery ----

    method Observe(a: Action) returns (actual: Option<Token>)
      ensures actual == Engine.Observe(State(), journal, a)
    {
      hide KeyOf;
      if a.kind.Activation? {
        return Some(Engine.AuthorityToken(journal.authority));
      }
      var key := KeyOf(a);
      if key in world {
        return Some(world[key]);
      }
      return None;
    }

    method ActionBySeq(n: nat) returns (i: nat)
      ensures i == Engine.FindSeq(journal.actions, n)
    {
      i := 0;
      while i < |journal.actions| && journal.actions[i].seqNo != n
        invariant 0 <= i <= |journal.actions|
        invariant forall k :: 0 <= k < i ==> journal.actions[k].seqNo != n
      {
        i := i + 1;
      }
    }

    /** Whether a later action is the reversal of `forward`. */
    method AlreadyReversed(forward: Action) returns (found: bool)
      ensures found == Engine.AlreadyReversed(journal.actions, forward)
    {
      hide ReverseKind;
      if ReverseKind(forward.kind).None? {
        return false;
      }
      for i := 0 to |journal.actions|
        invariant forall k :: 0 <= k < i ==> !Engine.Undone(journal.actions[k], forward)
      {
        if Engine.Undone(journal.actions[i], forward) {
          return true;
        }
      }
      found := false;
    }

    method HasDoneKind(kind: Kind) returns (done: bool)
      ensures done <==> exists i :: 0 <= i < |journal.actions| && journal.actions[i].kind == kind
                          && journal.actions[i].status.Done?
                          && forall k :: i < k < |journal.actions| ==> journal.actions[k].kind != kind
    {
      var i := |journal.actions|;
      while i > 0
        invariant 0 <= i <= |journal.actions|
        invariant forall k :: i <= k < |journal.actions| ==> journal.actions[k].kind != kind
      {
        i := i - 1;
        if journal.actions[i].kind == kind {
          return journal.actions[i].status.Done?;
        }
      }
      done := false;
    }

    method FinishAction(a: Action) returns (ok: bool)
      modifies this
      ensures Follows(old(Engine.FinishAction(State(), journal, a)), ok)
    {
      hide Engine.RecordDone, Engine.Apply, Engine.Observe, Classify;
      var i := ActionBySeq(a.seqNo);
      if i == |journal.actions| || journal.actions[i].status.Done? {
        return true;
      }
      var current := journal.actions[i];
      var actual := Observe(current);
      if actual.None? {
        return false;
      }
      var progress := Classify(current, actual.value);
      if progress.None? {
        return false;
      }
      if progress.value.NotStarted? {
        ok := ApplyEffect(current);
        if !ok { return; }
      }
      ok := RecordDone(current.(status := Done));
    }

    method Reverse(forward: Action) returns (ok: bool)
      modifies this
      ensures Follows(old(Engine.Reverse(State(), journal, forward)), ok)
    {
      hide Engine.Step, Engine.Observe, ReverseKind;
      var kind := ReverseKind(forward.kind);
      if kind.None? || (forward.kind.DataPublish? && journal.dataAction.RetainData?) {
        return true;
      }
      var oldState, newState := forward.newState, forward.oldState;
      if kind.value.RestoreReload? {
        var n := CurrentReload();
        oldState, newState := ReloadAt(n), ReloadAt(n + 1);
      } else if kind.value.DataIsolate? {
        var actual := Observe(forward);
        if actual.None? {
          return false;
        }
        if actual.value == ABSENT {
          return true;
        }
        oldState, newState := actual.value, ABSENT;
      }
      ok := Step(Engine.ReverseAction(forward, kind.value, oldState, newState));
    }

    /** One iteration of the rollback loop. */
    method Visit(a: Action) returns (ok: bool, reversed: bool)
      modifies this
      ensures Follows(old(Engine.Visit(State(), journal, a)).run, ok)
      ensures ok ==> reversed == old(Engine.Visit(State(), journal, a)).reversed
    {
      hide Engine.FinishAction, Engine.Reverse, Engine.Observe, Engine.AlreadyReversed, IsReverse, ReverseKind, Classify;
      reversed := false;
      if a.kind.Reload? || a.kind.RestoreReload? {
        return true, false;
      }
      if IsReverse(a.kind) {
        ok := FinishAction(a);
        return;
      }
      var already := AlreadyReversed(a);
      if already {
        return true, false;
      }
      var actual := Observe(a);
      if actual.None? {
        return false, false;
      }
      var progress := Classify(a, actual.value);
      if progress.None? {
        return false, false;
      }
      if progress.value.NotStarted? || ReverseKind(a.kind).None? {
        return true, false;
      }
      ok := Reverse(a);
      reversed := true;
    }

    /** Undoes the recorded actions, last first, over a snapshot of the list. */
    method Rollback() returns (ok: bool)
      modifies this
      ensures Follows(old(Engine.Rollback(State(), journal)), ok)
    {
      hide Engine.Visit, Engine.Step, Engine.Save;
      var actions := journal.actions;
      ghost var whole := Engine.SweepBack(State(), journal, actions, |actions|);
      var reversed := false;
      var i := |actions|;
      while i > 0
        invariant 0 <= i <= |actions|
        invariant Engine.SweepBack(State(), journal, actions, i).run == whole.run
        invariant whole.run.ok ==> whole.reversed == (reversed || Engine.SweepBack(State(), journal, actions, i).reversed)
      {
        i := i - 1;
        var done, undone := Visit(actions[i]);
        if !done { return false; }
        reversed := reversed || undone;
      }
      if reversed {
        var n := CurrentReload();
        ok := Step(Action(0, RestoreReload, DefinitionRole, ReloadAt(n), ReloadAt(n + 1), "", "", Intent));
        if !ok { return; }
      }
      journal := journal.(authority := Source);
      ok := SetPhase(Complete);
    }

    method EnsureAction(a: Action) returns (ok: bool)
      modifies this
      ensures Follows(old(Engine.EnsureAction(State(), journal, a)), ok)
    {
      hide Engine.Step, Engine.Observe;
      var done := HasDoneKind(a.kind);
      if done {
        var seen := Observe(a);
        if seen.None? {
          return false;
        }
        if seen.value == a.newState {
          return true;
        }
      }
      var actual := Observe(a);
      if actual.None? {
        return false;
      }
      if actual.value == a.newState {
        return true;
      }
      if actual.value != a.oldState {
        return false;
      }
      ok := Step(a);
    }

    /** A reload is due unless one finished behind the finished activation. */
    method EnsureReload() returns (ok: bool)
      modifies this
      ensures Follows(old(Engine.EnsureReload(State(), journal)), ok)
    {
      hide Engine.Step;
      var afterActivation := false;
      for i := 0 to |journal.actions|
        invariant afterActivation <==> exists k :: 0 <= k < i && journal.actions[k].kind.Activation? && journal.actions[k].status.Done?
        invariant !Engine.ReloadedAfterActivation(journal.actions[..i])
        invariant journal == old(journal) && State() == old(State())
      {
        var action := journal.actions[i];
        if action.kind.Activation? && action.status.Done? {
          afterActivation := true;
        } else if afterActivation && SubjectOf(action.kind).Reloads? && action.status.Done? {
          return true;
        }
        assert journal.actions[..i + 1] == journal.actions[..i] + [action];
      }
      assert journal.actions[..|journal.actions|] == journal.actions;
      ok := ReloadStep();
    }

    method EnsureTarget(p: Engine.Policy) returns (ok: bool)
      modifies this
      ensures Follows(old(Engine.EnsureTarget(State(), journal, p)), ok)
      ensures ok ==> Endings.EndsAsAsked(old(journal), p, old(world), world)
    {
      hide Engine.EnsureAction, Engine.EnsureReload, Engine.TargetPolicy, Endings.EndsAsAsked;
      Endings.EnsureTargetAsked(State(), journal, p);
      var (enabled, running) := Engine.TargetPolicy(p, journal);
      ok := EnsureAction(Engine.ServiceAction(Unmask, "masked", "unmasked"));
      if !ok { return; }
      if enabled {
        ok := EnsureAction(Engine.ServiceAction(Enable, "disabled", "enabled"));
        if !ok { return; }
      }
      ok := EnsureReload();
      if !ok { return; }
      if running {
        ok := EnsureAction(Engine.ServiceAction(Start, "stopped", "running"));
      }
    }

    method Rollforward(p: Engine.Policy) returns (ok: bool)
      modifies this
      ensures Follows(old(Engine.Rollforward(State(), journal, p)), ok)
    {
      hide Engine.FinishAction, Engine.EnsureTarget, Engine.Save;
      var actions := journal.actions;
      ghost var whole := Engine.SweepForward(State(), journal, actions, 0);
      for i := 0 to |actions|
        invariant Engine.SweepForward(State(), journal, actions, i) == whole
      {
        ok := FinishAction(actions[i]);
        if !ok { return; }
      }
      ok := EnsureTarget(p);
      if !ok { return; }
      journal := journal.(authority := Target);
      ok := SetPhase(Complete);
    }

    /**
      Recovery starts from the published document. Wherever it is cut the machine stays safe;
      if it succeeds, the old state is back or the new one is finished.
     */
    method RecoverLocked(p: Engine.Policy, ghost original: Engine.World, ghost goal: Finishing.Goal, ghost all: bool)
      returns (ok: bool)
      requires Atomicity.Safe(State(), original, goal, all)
      modifies this
      ensures Follows(old(Engine.RecoverOnce(State(), p)), ok)
      ensures Atomicity.Safe(State(), original, goal, all)
      ensures ok && old(visible).authority.Source? ==>
                Undoing.BackAtOriginal(visible.actions, world, original, all) && visible.phase.Complete?
      ensures ok && old(visible).authority.Target? ==>
                && Finishing.Reached(world, goal) && visible.phase.Complete? && durable == visible
                && Finishing.AllDone(visible.actions, |visible.actions|) && Engine.ReloadedAfterActivation(visible.actions)
                && Endings.EndsAsAsked(old(visible), p, old(Engine.SweepForward(State(), visible, visible.actions, 0)).m.world, world)
    {
      hide Engine.Rollback, Engine.Rollforward, Undoing.SourceSafeAt, Undoing.BackAtOriginal, Finishing.SwitchedOn,
           Finishing.Reached, Engine.TargetPolicy, Engine.ReloadedAfterActivation, Finishing.TargetInv, Engine.SweepForward,
           Endings.EndsAsAsked, Endings.Adds;
      Atomicity.RecoverySafe(State(), p, fates, original, goal, all);
      assert State().(fates := fates) == State();
      if visible.authority.Source? {
        Undoing.RollbackRestores(State(), original, all);
      } else {
        Finishing.RollforwardFinishes(State(), p, original, goal);
        Endings.RollforwardEnds(State(), p);
      }
      journal := visible;
      if journal.authority.Target? {
        ok := Rollforward(p);
      } else {
        ok := Rollback();
      }
    }

    // ---- The forward runs ----

    /** What a service adapter journals through its hooks. */
    method RunHooks(hooks: seq<Engine.Instr>) returns (ok: bool)
      requires Programs.JournalHooks(hooks)
      modifies this
      ensures Follows(old(Engine.RunProgram(State(), journal, hooks)), ok)
    {
      hide Engine.Step;
      ghost var whole := Engine.RunProgram(State(), journal, hooks);
      for i := 0 to |hooks|
        invariant Engine.RunProgram(State(), journal, hooks[i..]) == whole
      {
        assert hooks[i..][0] == hooks[i] && hooks[i..][1..] == hooks[i + 1..];
        match hooks[i] {
          case DoReload => ok := ReloadStep();
          case Do(a) => ok := Step(a);
          case Change(a) => ok := FileStep(a);
        }
        if !ok { return; }
      }
      assert hooks[|hooks|..] == [];
      ok := true;
    }

    method CommitData(art: Programs.Artifacts, d: DataAction) returns (ok: bool)
      modifies this
      ensures Follows(old(Engine.RunProgram(State(), journal, Programs.DataPart(art, d))), ok)
    {
      hide Engine.Step, Engine.Save;
      ghost var p := Programs.DataPart(art, d);
      ghost var whole := Engine.RunProgram(State(), journal, p);
      ok := SetPhase(Stopped);
      if !ok { return; }
      assert Engine.RunProgram(State(), journal, p[1..]) == whole;
      if d.CreateData? {
        ok := FileStep(Programs.FileAction(DataPublish, DataRole, ABSENT, art.dataNew));
        if !ok { return; }
        assert p[1..][1..] == [Engine.Enter(DataCommitted)];
      } else {
        assert p[1..] == [Engine.Enter(DataCommitted)];
      }
      assert Engine.RunProgram(State(), journal, [Engine.Enter(DataCommitted)]) == whole;
      ok := SetPhase(DataCommitted);
      assert [Engine.Enter(DataCommitted)][1..] == [];
    }

    method CommitBinaries(art: Programs.Artifacts) returns (ok: bool)
      modifies this
      ensures Follows(old(Engine.RunProgram(State(), journal, Programs.BinaryPart(art))), ok)
    {
      hide Engine.Step, Engine.Save;
      ghost var p := Programs.BinaryPart(art);
      ghost var whole := Engine.RunProgram(State(), journal, p);
      assert p[1..][1..] == p[2..] && p[2..][1..] == p[3..] && p[3..][1..] == [];
      ok := FileStep(Programs.FileAction(ManagedBinary, ManagedBinaryRole, art.managedOld, art.managedNew));
      if !ok { return; }
      assert Engine.RunProgram(State(), journal, p[1..]) == whole;
      ok := FileStep(Programs.FileAction(PathBinary, PathBinaryRole, art.pathOld, art.pathNew));
      if !ok { return; }
      assert Engine.RunProgram(State(), journal, p[2..]) == whole;
      ok := FileStep(Programs.FileAction(Channel, ChannelRole, art.channelOld, art.channelNew));
      if !ok { return; }
      assert Engine.RunProgram(State(), journal, p[3..]) == whole;
      ok := SetPhase(BinariesCommitted);
    }

    method CommitDefinition(art: Programs.Artifacts) returns (ok: bool)
      modifies this
      ensures Follows(old(Engine.RunProgram(State(), journal, Programs.DefinitionPart(art))), ok)
    {
      hide Engine.Step, Engine.Save;
      ghost var p := Programs.DefinitionPart(art);
      ghost var whole := Engine.RunProgram(State(), journal, p);
      assert p[1..][1..] == p[2..] && p[2..][1..] == [];
      ok := FileStep(Programs.FileAction(Definition, DefinitionRole, ABSENT, art.definitionNew));
      if !ok { return; }
      assert Engine.RunProgram(State(), journal, p[1..]) == whole;
      ok := ReloadStep();
      if !ok { return; }
      assert Engine.RunProgram(State(), journal, p[2..]) == whole;
      ok := SetPhase(DefinitionCommitted);
    }

    /** Starts the validation child and stops it again, each as a journaled step. */
    method RunValidation(hash: string) returns (ok: bool)
      modifies this
      ensures Follows(old(Engine.RunProgram(State(), journal, Programs.ValidationPart(hash))), ok)
      ensures ok ==>
                journal == old(journal).(actions := old(journal).actions
                  + [Action(|old(journal).actions| + 1, ValidationStart, ValidationRole, Text("idle"), Text("running"), "", hash, Done)]
                  + [Action(|old(journal).actions| + 2, ValidationStop, ValidationRole, Text("running"), Text("idle"), "", "", Done)])
    {
      hide Engine.Step;
      Endings.StepPerforms(State(), journal, Programs.ValidationBegins(hash));
      ghost var p := Programs.ValidationPart(hash);
      ghost var whole := Engine.RunProgram(State(), journal, p);
      assert p[1..] == [Engine.Do(Programs.ValidationEnds())];
      ok := Step(Programs.ValidationBegins(hash));
      if !ok { return; }
      Engine.RunOne(State(), journal, Engine.Do(Programs.ValidationEnds()));
      assert Engine.Step(State(), journal, Programs.ValidationEnds()) == whole;
      Endings.StepPerforms(State(), journal, Programs.ValidationEnds());
      ok := Step(Programs.ValidationEnds());
    }

    /** Everything an install does before its activation. */
    method PrepareCommit(art: Programs.Artifacts, d: DataAction, hash: string, stop: seq<Engine.Instr>) returns (ok: bool)
      requires Programs.JournalHooks(stop)
      modifies this
      ensures Follows(old(Engine.RunProgram(State(), journal, Programs.BeforeCommit(art, d, hash, stop))), ok)
    {
      hide Engine.RunProgram, Programs.DataPart, Programs.BinaryPart, Programs.DefinitionPart, Programs.ValidationPart;
      ghost var p4 := Programs.ValidationPart(hash);
      ghost var p3 := Programs.DefinitionPart(art) + p4;
      ghost var p2 := Programs.BinaryPart(art) + p3;
      ghost var p1 := Programs.DataPart(art, d) + p2;
      assert Programs.BeforeCommit(art, d, hash, stop) == stop + p1;
      Engine.RunAppend(State(), journal, stop, p1);
      ok := RunHooks(stop);
      if !ok { return; }
      Engine.RunAppend(State(), journal, Programs.DataPart(art, d), p2);
      ok := CommitData(art, d);
      if !ok { return; }
      Engine.RunAppend(State(), journal, Programs.BinaryPart(art), p3);
      ok := CommitBinaries(art);
      if !ok { return; }
      Engine.RunAppend(State(), journal, Programs.DefinitionPart(art), p4);
      ok := CommitDefinition(art);
      if !ok { return; }
      ok := RunValidation(hash);
    }

    /** The activation and what is behind it. */
    method CommitAndPublish(publish: seq<Engine.Instr>) returns (ok: bool)
      requires Programs.JournalHooks(publish)
      modifies this
      ensures Follows(old(Engine.RunProgram(State(), journal, [Engine.DoActivate] + publish + [Engine.Enter(Complete)])), ok)
    {
      hide Engine.Activate, Engine.Save;
      ghost var p := [Engine.DoActivate] + publish + [Engine.Enter(Complete)];
      assert p[0] == Engine.DoActivate && p[1..] == publish + [Engine.Enter(Complete)];
      ok := Activate();
      if !ok { return; }
      Engine.RunAppend(State(), journal, publish, [Engine.Enter(Complete)]);
      ok := RunHooks(publish);
      if !ok { return; }
      assert [Engine.Enter(Complete)][1..] == [];
      ok := SetPhase(Complete);
    }

    /**
      From a fresh journal, a well-planned install leaves the machine safe wherever it is cut, and
      every document under target authority was preceded by a validation.
     */
    method ApplyLocked(art: Programs.Artifacts, d: DataAction, hash: string, stop: seq<Engine.Instr>, publish: seq<Engine.Instr>)
      returns (ok: bool)
      requires Programs.JournalHooks(stop) && Programs.JournalHooks(publish)
      modifies this
      ensures Follows(old(Engine.RunProgram(State(), journal, Programs.ApplyProgram(art, d, hash, stop, publish))), ok)
      ensures old(State() == Engine.Begin(world, journal, fates))
              && Atomicity.WellPlanned(old(world), old(journal), Programs.ApplyProgram(art, d, hash, stop, publish)) ==>
                exists goal :: Atomicity.Safe(State(), old(world), goal, true)
                  && Atomicity.GoalFits(goal, Programs.ApplyProgram(art, d, hash, stop, publish), Atomicity.Scene([], old(world), false))
      ensures old(State() == Engine.Begin(world, journal, fates) && Atomicity.FreshJournal(journal)) ==>
                Vetting.PlainHooks(stop) && Vetting.PlainHooks(publish) ==> Vetting.VettedMachine(State(), hash)
    {
      hide Engine.RunProgram, Programs.BeforeCommit, Atomicity.ProgramFits, Atomicity.GoalFits, Atomicity.Safe, Vetting.VettedMachine,
           Vetting.PlainHooks;
      ghost var begun := State() == Engine.Begin(world, journal, fates) && Atomicity.FreshJournal(journal);
      if begun && Vetting.PlainHooks(stop) && Vetting.PlainHooks(publish) {
        Vetting.BeginVetted(world, journal, fates, hash);
        Vetting.InstallIsVetted(State(), journal, art, d, hash, stop, publish);
      }
      ghost var p := Programs.BeforeCommit(art, d, hash, stop);
      ghost var q := [Engine.DoActivate] + publish + [Engine.Enter(Complete)];
      ghost var program := Programs.ApplyProgram(art, d, hash, stop, publish);
      assert program == p + q;
      if State() == Engine.Begin(world, journal, fates) && Atomicity.WellPlanned(world, journal, program) {
        Atomicity.BeginRuns(world, journal, fates);
        ghost var goal := Atomicity.ForwardRuns(State(), journal, program, Atomicity.Scene([], world, false), world);
      }
      Engine.RunAppend(State(), journal, p, q);
      ok := PrepareCommit(art, d, hash, stop);
      if !ok { return; }
      ok := CommitAndPublish(publish);
    }

    /** The foreground bootstrap behind its saved journal. */
    method StartForeground(hash: string) returns (ok: bool)
      modifies this
      ensures Follows(old(Engine.RunProgram(State(), journal, Programs.BootstrapProgram(hash))), ok)
      ensures old(State() == Engine.Begin(world, journal, fates) && Atomicity.FreshJournal(journal)) ==> Vetting.VettedMachine(State(), hash)
    {
      hide Engine.Step, Engine.Save, Engine.Activate, Programs.ValidationPart, Vetting.VettedMachine;
      if State() == Engine.Begin(world, journal, fates) && Atomicity.FreshJournal(journal) {
        Vetting.BeginVetted(world, journal, fates, hash);
        Vetting.BootstrapIsVetted(State(), journal, hash);
      }
      var create := Programs.FileAction(DataPublish, DataRole, ABSENT, Text("created"));
      ghost var v := Programs.ValidationPart(hash);
      ghost var p := Programs.BootstrapProgram(hash);
      ghost var whole := Engine.RunProgram(State(), journal, p);
      assert p[0] == Engine.Do(create) && p[1..][0] == Engine.Enter(DefinitionCommitted);
      assert p[1..][1..] == v + [Engine.DoActivate];
      ok := Step(create);
      if !ok { return; }
      assert Engine.RunProgram(State(), journal, p[1..]) == whole;
      ok := SetPhase(DefinitionCommitted);
      if !ok { return; }
      assert Engine.RunProgram(State(), journal, v + [Engine.DoActivate]) == whole;
      Engine.RunAppend(State(), journal, v, [Engine.DoActivate]);
      ok := RunValidation(hash);
      if !ok { return; }
      assert [Engine.DoActivate][1..] == [];
      ok := Activate();
    }

    /** A service lifecycle operation on a prepared journal. */
    method LifecycleActions(stop: seq<Engine.Instr>, publish: seq<Engine.Instr>) returns (ok: bool)
      requires Programs.JournalHooks(stop) && Programs.JournalHooks(publish)
      modifies this
      ensures Follows(old(Engine.RunProgram(State(), journal, Programs.LifecycleProgram(stop, publish))), ok)
    {
      hide Engine.RunProgram;
      ghost var q := [Engine.DoActivate] + publish + [Engine.Enter(Complete)];
      assert Programs.LifecycleProgram(stop, publish) == stop + q;
      Engine.RunAppend(State(), journal, stop, q);
      ok := RunHooks(stop);
      if !ok { return; }
      ok := CommitAndPublish(publish);
    }
  }
}
