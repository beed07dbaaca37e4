/**
  What the producers publish when nothing disturbs them: the phases they enter and the
  actions they finish, in order, as an observer of the journal sees them.
 */
module InstallMilestones {
  import opened Options
  import opened InstallJournal
  import opened InstallEngine
  import opened InstallRollback
  import opened InstallRollforward
  import opened InstallAtomicity
  import opened InstallDiscipline
  import opened InstallPlans
  import opened InstallPrograms
  import opened InstallOutcomes

  datatype Milestone = Enters(phase: Phase) | Finishes(kind: Kind)

  /** What changed from one document to the next. */
  function Between(i: Journal, j: Journal): seq<Milestone> {
    (if i.phase != j.phase then [Enters(j.phase)] else []) + NewlyDone(i.actions, j.actions)
  }

  /** The last action, if it was open and is done. */
  function NewlyDone(a: seq<Action>, b: seq<Action>): seq<Milestone> {
    if a != [] && |a| == |b| && a[|a| - 1].status.Intent? && b[|b| - 1].status.Done? then [Finishes(b[|b| - 1].kind)] else []
  }

  function Milestones(log: seq<Event>): seq<Milestone>
    decreases |log|
  {
    if log == [] then []
    else
      var before := log[..|log| - 1];
      Milestones(before)
      + if log[|log| - 1].Published? && Current(before).Some? then Between(Current(before).value, log[|log| - 1].journal) else []
  }

  lemma PublishedNext(log: seq<Event>, i: Journal, j: Journal)
    requires Current(log) == Some(i)
    ensures Milestones(log + [Published(j, true)]) == Milestones(log) + Between(i, j) && Current(log + [Published(j, true)]) == Some(j)
  {
    hide Between;
    assert (log + [Published(j, true)])[..|log|] == log;
  }

  lemma EffectNext(log: seq<Event>, a: Action)
    ensures Milestones(log + [Effect(a)]) == Milestones(log) && Current(log + [Effect(a)]) == Current(log)
  {
    assert (log + [Effect(a)])[..|log|] == log;
  }

  // ---- Undisturbed runs ----

  /** A step that finds what it expects. */
  ghost predicate CanDo(a: Action, s: Scene) {
    ValidAction(a.(seqNo := 1)) && !a.kind.Activation? && KeyOf(a) in s.world && s.world[KeyOf(a)] == a.oldState
  }

  ghost predicate Runnable(program: seq<Instr>, s: Scene)
    decreases |program|
  {
    program == [] ||
    (&& (match program[0]
         case Enter(_) => true
         case Do(a) => CanDo(a, s)
         case Change(a) => a.oldState == a.newState || CanDo(a, s)
         case DoReload => CanReload(s.world)
         case DoActivate => true)
     && Runnable(program[1..], After(program[0], s)))
  }

  /** What a program is to show, from a phase on. */
  function Shows(i: Instr, phase: Phase): seq<Milestone> {
    match i
    case Enter(next) => if next == phase then [] else [Enters(next)]
    case Do(a) => [Finishes(a.kind)]
    case Change(a) => if a.oldState == a.newState then [] else [Finishes(a.kind)]
    case DoReload => [Finishes(Reload)]
    case DoActivate => (if phase.ActivationCommitted? then [] else [Enters(ActivationCommitted)]) + [Finishes(Activation)]
  }

  function PhaseAfter(i: Instr, phase: Phase): Phase {
    match i
    case Enter(next) => next
    case DoActivate => ActivationCommitted
    case _ => phase
  }

  function ShowsAll(program: seq<Instr>, phase: Phase): seq<Milestone>
    decreases |program|
  {
    if program == [] then [] else Shows(program[0], phase) + ShowsAll(program[1..], PhaseAfter(program[0], phase))
  }

  function FinalPhase(program: seq<Instr>, phase: Phase): Phase
    decreases |program|
  {
    if program == [] then phase else FinalPhase(program[1..], PhaseAfter(program[0], phase))
  }

  /** The machine is undisturbed and where the scene says. */
  ghost predicate Calm(m: Machine, j: Journal, s: Scene) {
    m.fates == [] && Ready(m, j, s) && Current(m.log) == Some(j)
  }

  ghost predicate Went(r: Run, m: Machine, j: Journal, s: Scene, shown: seq<Milestone>, phase: Phase, authority: Authority) {
    && r.ok && Calm(r.m, r.j, s) && Milestones(r.m.log) == Milestones(m.log) + shown
    && r.j == j.(actions := s.actions, phase := phase, authority := authority)
  }

  lemma CalmSave(m: Machine, i: Journal, next: Journal)
    requires m.fates == [] && Current(m.log) == Some(i) && ValidJournal(next)
    ensures var r := Save(m, next);
            && r.ok && r.j == next && r.m == m.(visible := next, durable := next, log := m.log + [Published(next, true)])
            && Current(r.m.log) == Some(next) && Milestones(r.m.log) == Milestones(m.log) + Between(i, next)
  {
    hide Between;
    PublishedNext(m.log, i, next);
  }

  lemma CalmEffect(m: Machine, a: Action)
    requires m.fates == [] && (a.kind.Activation? || (KeyOf(a) in m.world && m.world[KeyOf(a)] == a.oldState))
    ensures var (m', ok) := Apply(m, a);
            && ok && m' == m.(world := if a.kind.Activation? then m.world else m.world[KeyOf(a) := a.newState], log := m.log + [Effect(a)])
            && Current(m'.log) == Current(m.log) && Milestones(m'.log) == Milestones(m.log)
  {
    hide KeyOf;
    EffectNext(m.log, a);
  }

  /** Appending an intent shows nothing, finishing it shows its kind. */
  lemma IntentThenDone(j: Journal, a: Action, phase: Phase, authority: Authority)
    requires a.status.Intent?
    ensures var j1 := j.(actions := j.actions + [a]);
            var j2 := j1.(phase := phase, authority := authority);
            var j3 := j2.(actions := j.actions + [a.(status := Done)]);
            && Between(j, j1) == [] && Between(j2, j3) == [Finishes(a.kind)]
            && Between(j1, j2) == if phase == j.phase then [] else [Enters(phase)]
  {
  }

  lemma CalmDone(m: Machine, j: Journal, a: Action)
    requires m.fates == [] && Current(m.log) == Some(j) && ValidJournal(j) && j.actions != [] && j.actions[|j.actions| - 1] == a && a.status.Intent?
    ensures var next := j.(actions := j.actions[..|j.actions| - 1] + [a.(status := Done)]);
            var r := FinishLast(m, j);
            && ValidJournal(next) && r.ok && r.j == next && r.m == m.(visible := next, durable := next, log := m.log + [Published(next, true)])
            && Current(r.m.log) == Some(next) && Milestones(r.m.log) == Milestones(m.log) + Between(j, next)
  {
    hide Between, Save, RecordDone;
    var n := |j.actions| - 1;
    RecordDoneIsSave(m, j, n);
    var next := j.(actions := j.actions[..n] + [a.(status := Done)]);
    assert j.actions[n := a.(status := Done)] == next.actions;
    CalmSave(m, j, next);
  }

  lemma StepGoes(m: Machine, j: Journal, a: Action, s: Scene)
    requires Calm(m, j, s) && CanDo(a, s)
    ensures Went(Step(m, j, a), m, j, Performed(s, a), [Finishes(a.kind)], j.phase, j.authority)
  {
    hide Save, Apply, FinishLast, Milestones, Between, KeyOf;
    var n := |j.actions|;
    var a' := a.(seqNo := n + 1, status := Intent);
    SameKeyOf(a, a');
    var j1 := j.(actions := j.actions + [a']);
    IntentThenDone(j, a', j.phase, j.authority);
    CalmSave(m, j, j1);
    var r := Save(m, j1);
    assert j1.actions[n] == a' && j1.actions[..n] == j.actions;
    CalmEffect(r.m, a');
    var (m', ok) := Apply(r.m, a');
    CalmDone(m', j1, a');
  }

  lemma SameKeyOf(a: Action, b: Action)
    requires b == a.(seqNo := b.seqNo, status := b.status)
    ensures KeyOf(b) == KeyOf(a)
  {
  }

  lemma ActivationGoes(m: Machine, j: Journal, s: Scene)
    requires Calm(m, j, s)
    ensures Went(Activate(m, j), m, j, Activated(s), Shows(DoActivate, j.phase), ActivationCommitted, Target)
  {
    hide Save, Apply, FinishLast, Milestones, Between;
    var n := |j.actions|;
    var a' := ActivationAction().(seqNo := n + 1, status := Intent);
    var j1 := j.(actions := j.actions + [a']);
    var j2 := j1.(authority := Target, phase := ActivationCommitted);
    IntentThenDone(j, a', ActivationCommitted, Target);
    CalmSave(m, j, j1);
    var r := Save(m, j1);
    CalmSave(r.m, j1, j2);
    var w := Save(r.m, j2);
    assert j2.actions[n] == a' && j2.actions[..n] == j.actions;
    CalmEffect(w.m, a');
    var (m', ok) := Apply(w.m, a');
    CalmDone(m', j2, a');
  }

  lemma InstrGoes(m: Machine, j: Journal, i: Instr, s: Scene)
    requires Calm(m, j, s) && Runnable([i], s)
    ensures Went(Execute(m, j, i), m, j, After(i, s), Shows(i, j.phase), PhaseAfter(i, j.phase), if i.DoActivate? then Target else j.authority)
  {
    hide Step, Activate, Milestones, Save, KeyOf;
    assert [i][0] == i;
    match i
    case Enter(phase) => CalmSave(m, j, j.(phase := phase));
    case Do(a) => StepGoes(m, j, a, s);
    case Change(a) => if a.oldState != a.newState { StepGoes(m, j, a, s); }
    case DoReload => ReloadCanDo(s); StepGoes(m, j, ReloadAction(s.world, Reload), s);
    case DoActivate => ActivationGoes(m, j, s);
  }

  lemma ReloadCanDo(s: Scene)
    requires CanReload(s.world)
    ensures CanDo(ReloadAction(s.world, Reload), s)
  {
  }

  predicate Activates(program: seq<Instr>) { exists i :: 0 <= i < |program| && program[i].DoActivate? }

  lemma {:induction false} ProgramGoes(m: Machine, j: Journal, program: seq<Instr>, s: Scene)
    requires Calm(m, j, s) && Runnable(program, s)
    ensures Went(RunProgram(m, j, program), m, j, FinalScene(program, s), ShowsAll(program, j.phase), FinalPhase(program, j.phase),
                 if Activates(program) then Target else j.authority)
    decreases |program|
  {
    hide Execute, Calm, After, Shows, Milestones, CanDo;
    if program == [] {
      NothingGoes(m, j, s);
    } else {
      RunnableFirst(program, s);
      InstrGoes(m, j, program[0], s);
      var r := Execute(m, j, program[0]);
      ProgramGoes(r.m, r.j, program[1..], After(program[0], s));
      assert Activates(program) <==> program[0].DoActivate? || Activates(program[1..]) by {
        if Activates(program[1..]) { var i :| 0 <= i < |program[1..]| && program[1..][i].DoActivate?; assert program[i + 1].DoActivate?; }
        if Activates(program) && !program[0].DoActivate? {
          var i :| 0 <= i < |program| && program[i].DoActivate?;
          assert program[1..][i - 1].DoActivate?;
        }
      }
    }
  }

  lemma RunnableFirst(program: seq<Instr>, s: Scene)
    requires Runnable(program, s) && program != []
    ensures Runnable([program[0]], s)
  {
    hide CanDo;
    assert [program[0]][1..] == [];
  }

  lemma NothingGoes(m: Machine, j: Journal, s: Scene)
    requires Calm(m, j, s)
    ensures Went(Run(m, j, true), m, j, s, [], j.phase, j.authority)
  {
  }

  lemma BeginsCalm(world: World, j: Journal)
    requires FreshJournal(j)
    ensures Calm(Begin(world, j, []), j, Scene([], world, false)) && Milestones(Begin(world, j, []).log) == []
  {
    assert [Published(j, true)][..0] == [];
  }

  // ---- Parts of programs ----

  lemma {:induction false} ShowsAppend(p: seq<Instr>, q: seq<Instr>, phase: Phase)
    ensures ShowsAll(p + q, phase) == ShowsAll(p, phase) + ShowsAll(q, FinalPhase(p, phase))
    ensures FinalPhase(p + q, phase) == FinalPhase(q, FinalPhase(p, phase))
    decreases |p|
  {
    hide Shows, PhaseAfter;
    if p == [] {
      assert p + q == q;
    } else {
      assert (p + q)[0] == p[0] && (p + q)[1..] == p[1..] + q;
      ShowsAppend(p[1..], q, PhaseAfter(p[0], phase));
    }
  }

  lemma {:induction false} RunnableAppend(p: seq<Instr>, q: seq<Instr>, s: Scene)
    requires Runnable(p, s) && Runnable(q, FinalScene(p, s))
    ensures Runnable(p + q, s)
    decreases |p|
  {
    hide CanDo, After;
    if p == [] {
      assert p + q == q;
    } else {
      assert (p + q)[0] == p[0] && (p + q)[1..] == p[1..] + q;
      RunnableAppend(p[1..], q, After(p[0], s));
    }
  }

  lemma {:induction false} PlanIsRunnable(plan: seq<Instr>, s: Scene, original: World, d: DataAction)
    requires PlanFrom(plan, s, original, d)
    ensures Runnable(plan, s)
    decreases |plan|
  {
    hide Ended, TakesBack;
    if plan != [] { PlanIsRunnable(plan[1..], After(plan[0], s), original, d); }
  }

  /** What hooks show: the kinds of their steps. */
  function Hooked(hooks: seq<Instr>): seq<Milestone>
    decreases |hooks|
  {
    if hooks == [] then []
    else
      (match hooks[0]
       case Do(a) => [Finishes(a.kind)]
       case Change(a) => if a.oldState == a.newState then [] else [Finishes(a.kind)]
       case DoReload => [Finishes(Reload)]
       case _ => [])
      + Hooked(hooks[1..])
  }

  lemma {:induction false} HooksShow(hooks: seq<Instr>, phase: Phase)
    requires JournalHooks(hooks)
    ensures ShowsAll(hooks, phase) == Hooked(hooks) && FinalPhase(hooks, phase) == phase
    decreases |hooks|
  {
    if hooks != [] { HooksShow(hooks[1..], phase); }
  }

  function When(b: bool, kind: Kind): seq<Milestone> { if b then [Finishes(kind)] else [] }

  lemma TwoShow(a: Instr, b: Instr, phase: Phase)
    ensures ShowsAll([a], phase) == Shows(a, phase) && FinalPhase([a], phase) == PhaseAfter(a, phase)
    ensures ShowsAll([a, b], phase) == Shows(a, phase) + Shows(b, PhaseAfter(a, phase))
    ensures FinalPhase([a, b], phase) == PhaseAfter(b, PhaseAfter(a, phase))
  {
    hide Shows, PhaseAfter;
    assert [a][1..] == [] && [a, b][1..] == [b] && [b][1..] == [];
    assert ShowsAll([b], PhaseAfter(a, phase)) == Shows(b, PhaseAfter(a, phase));
    assert FinalPhase([b], PhaseAfter(a, phase)) == PhaseAfter(b, PhaseAfter(a, phase));
  }

  lemma DataShows(art: Artifacts, d: DataAction, phase: Phase)
    requires phase.Prepared?
    ensures ShowsAll(DataPart(art, d), phase)
            == [Enters(Stopped)] + When(d.CreateData? && art.dataNew != ABSENT, DataPublish) + [Enters(DataCommitted)]
    ensures FinalPhase(DataPart(art, d), phase) == DataCommitted
  {
    var middle := if d.CreateData? then [Change(FileAction(DataPublish, DataRole, ABSENT, art.dataNew))] else [];
    TwoShow(Enter(Stopped), Enter(Stopped), phase);
    ShowsAppend([Enter(Stopped)], middle, phase);
    ShowsAppend([Enter(Stopped)] + middle, [Enter(DataCommitted)], phase);
    TwoShow(Change(FileAction(DataPublish, DataRole, ABSENT, art.dataNew)), Enter(Stopped), Stopped);
    TwoShow(Enter(DataCommitted), Enter(Stopped), Stopped);
  }

  lemma BinariesShow(art: Artifacts)
    ensures ShowsAll(BinaryPart(art), DataCommitted)
            == When(art.managedOld != art.managedNew, ManagedBinary) + When(art.pathOld != art.pathNew, PathBinary)
               + When(art.channelOld != art.channelNew, Channel) + [Enters(BinariesCommitted)]
    ensures FinalPhase(BinaryPart(art), DataCommitted) == BinariesCommitted
  {
    var a := Change(FileAction(ManagedBinary, ManagedBinaryRole, art.managedOld, art.managedNew));
    var b := Change(FileAction(PathBinary, PathBinaryRole, art.pathOld, art.pathNew));
    var c := Change(FileAction(Channel, ChannelRole, art.channelOld, art.channelNew));
    TwoShow(a, b, DataCommitted);
    TwoShow(c, Enter(BinariesCommitted), DataCommitted);
    ShowsAppend([a, b], [c, Enter(BinariesCommitted)], DataCommitted);
    assert BinaryPart(art) == [a, b] + [c, Enter(BinariesCommitted)];
  }

  lemma DefinitionShows(art: Artifacts)
    ensures ShowsAll(DefinitionPart(art), BinariesCommitted)
            == When(art.definitionNew != ABSENT, Definition) + [Finishes(Reload), Enters(DefinitionCommitted)]
    ensures FinalPhase(DefinitionPart(art), BinariesCommitted) == DefinitionCommitted
  {
    var a := Change(FileAction(Definition, DefinitionRole, ABSENT, art.definitionNew));
    TwoShow(a, DoReload, BinariesCommitted);
    TwoShow(Enter(DefinitionCommitted), DoReload, BinariesCommitted);
    ShowsAppend([a, DoReload], [Enter(DefinitionCommitted)], BinariesCommitted);
    assert DefinitionPart(art) == [a, DoReload] + [Enter(DefinitionCommitted)];
  }

  lemma ValidationShows(hash: string)
    ensures ShowsAll(ValidationPart(hash), DefinitionCommitted) == [Finishes(ValidationStart), Finishes(ValidationStop)]
    ensures FinalPhase(ValidationPart(hash), DefinitionCommitted) == DefinitionCommitted
  {
    TwoShow(Do(ValidationBegins(hash)), Do(ValidationEnds()), DefinitionCommitted);
  }

  lemma CommitShows(publish: seq<Instr>, phase: Phase)
    requires JournalHooks(publish) && Pending(phase)
    ensures ShowsAll([DoActivate] + publish + [Enter(Complete)], phase)
            == [Enters(ActivationCommitted), Finishes(Activation)] + Hooked(publish) + [Enters(Complete)]
    ensures FinalPhase([DoActivate] + publish + [Enter(Complete)], phase) == Complete
  {
    TwoShow(DoActivate, DoActivate, phase);
    ShowsAppend([DoActivate], publish, phase);
    HooksShow(publish, ActivationCommitted);
    ShowsAppend([DoActivate] + publish, [Enter(Complete)], phase);
    TwoShow(Enter(Complete), DoActivate, ActivationCommitted);
  }

  lemma InstallShows(art: Artifacts, d: DataAction, hash: string, stop: seq<Instr>, publish: seq<Instr>)
    requires JournalHooks(stop) && JournalHooks(publish)
    ensures ShowsAll(ApplyProgram(art, d, hash, stop, publish), Prepared)
            == Hooked(stop)
               + ([Enters(Stopped)] + When(d.CreateData? && art.dataNew != ABSENT, DataPublish) + [Enters(DataCommitted)])
               + (When(art.managedOld != art.managedNew, ManagedBinary) + When(art.pathOld != art.pathNew, PathBinary)
                  + When(art.channelOld != art.channelNew, Channel) + [Enters(BinariesCommitted)])
               + (When(art.definitionNew != ABSENT, Definition) + [Finishes(Reload), Enters(DefinitionCommitted)])
               + [Finishes(ValidationStart), Finishes(ValidationStop)]
               + ([Enters(ActivationCommitted), Finishes(Activation)] + Hooked(publish) + [Enters(Complete)])
    ensures FinalPhase(ApplyProgram(art, d, hash, stop, publish), Prepared) == Complete
  {
    hide ShowsAll, FinalPhase, DataPart, BinaryPart, DefinitionPart, ValidationPart, Hooked, When;
    var end := [DoActivate] + publish + [Enter(Complete)];
    HooksShow(stop, Prepared);
    DataShows(art, d, Prepared);
    BinariesShow(art);
    DefinitionShows(art);
    ValidationShows(hash);
    CommitShows(publish, DefinitionCommitted);
    ShowsAppend(stop, DataPart(art, d), Prepared);
    ShowsAppend(stop + DataPart(art, d), BinaryPart(art), Prepared);
    ShowsAppend(stop + DataPart(art, d) + BinaryPart(art), DefinitionPart(art), Prepared);
    ShowsAppend(stop + DataPart(art, d) + BinaryPart(art) + DefinitionPart(art), ValidationPart(hash), Prepared);
    ShowsAppend(BeforeCommit(art, d, hash, stop), end, Prepared);
    assert ApplyProgram(art, d, hash, stop, publish) == BeforeCommit(art, d, hash, stop) + end;
  }

  // ---- The three producers ----

  /** The scene in which the hooks behind the activation run. */
  function Committed(art: Artifacts, d: DataAction, hash: string, stop: seq<Instr>, world: World): Scene {
    Activated(SceneAfter(BeforeCommit(art, d, hash, stop), world))
  }

  lemma InstallIsRunnable(world: World, art: Artifacts, d: DataAction, hash: string, stop: seq<Instr>, publish: seq<Instr>)
    requires Accurate(art, world, d) && DefinitionFits(art, world) && Writable(art) && CanReload(world) && StopsFit(stop, world, d, true)
    requires Runnable(publish, Committed(art, d, hash, stop, world))
    ensures Runnable(ApplyProgram(art, d, hash, stop, publish), Scene([], world, false))
    ensures FinalScene(ApplyProgram(art, d, hash, stop, publish), Scene([], world, false)).world
            == FinalScene(publish, Committed(art, d, hash, stop, world)).world
    ensures SamePayload(Committed(art, d, hash, stop, world).world, Installed(world, art, d))
  {
    hide PlanFrom, ProgramFits, FinalScene, BeforeCommit, Accurate, Runnable, SamePayload;
    var s := Scene([], world, false);
    var p := BeforeCommit(art, d, hash, stop);
    var end := BeforeCommitFits(world, art, d, hash, stop, true);
    PlanIsRunnable(p, s, world, d);
    var e := Committed(art, d, hash, stop, world);
    CompletionRuns(FinalScene(publish, e));
    RunnableAppend(publish, [Enter(Complete)], e);
    ActivationRuns(publish + [Enter(Complete)], end);
    RunnableAppend(p, [DoActivate] + (publish + [Enter(Complete)]), s);
    FinalAppend(p, [DoActivate] + (publish + [Enter(Complete)]), s);
    FinalAppend(publish, [Enter(Complete)], e);
    assert ApplyProgram(art, d, hash, stop, publish) == p + ([DoActivate] + (publish + [Enter(Complete)]));
  }

  lemma CompletionRuns(s: Scene)
    ensures Runnable([Enter(Complete)], s) && FinalScene([Enter(Complete)], s) == s
  {
    assert [Enter(Complete)][1..] == [];
  }

  lemma ActivationRuns(q: seq<Instr>, s: Scene)
    requires Runnable(q, Activated(s))
    ensures Runnable([DoActivate] + q, s) && FinalScene([DoActivate] + q, s) == FinalScene(q, Activated(s))
  {
    assert ([DoActivate] + q)[0] == DoActivate && ([DoActivate] + q)[1..] == q;
  }

  /**
    An install that nothing disturbs ends complete under target authority, with the new files
    and everything its hooks publish in place, and shows these phases and actions in this order.
   */
  lemma UndisturbedInstall(world: World, j: Journal, art: Artifacts, hash: string, stop: seq<Instr>, publish: seq<Instr>)
    requires FreshJournal(j) && j.phase.Prepared?
    requires Accurate(art, world, j.dataAction) && DefinitionFits(art, world) && Writable(art) && CanReload(world)
    requires StopsFit(stop, world, j.dataAction, true) && JournalHooks(publish)
    requires Runnable(publish, Committed(art, j.dataAction, hash, stop, world))
    ensures var r := RunProgram(Begin(world, j, []), j, ApplyProgram(art, j.dataAction, hash, stop, publish));
            && r.ok && r.m.visible == r.j && r.m.durable == r.j && r.j.phase.Complete? && r.j.authority.Target?
            && SamePayload(r.m.world, InstallOutcomes.Published(Installed(world, art, j.dataAction), publish))
            && Milestones(r.m.log)
               == Hooked(stop)
                  + ([Enters(Stopped)] + When(j.dataAction.CreateData? && art.dataNew != ABSENT, DataPublish) + [Enters(DataCommitted)])
                  + (When(art.managedOld != art.managedNew, ManagedBinary) + When(art.pathOld != art.pathNew, PathBinary)
                     + When(art.channelOld != art.channelNew, Channel) + [Enters(BinariesCommitted)])
                  + (When(art.definitionNew != ABSENT, Definition) + [Finishes(Reload), Enters(DefinitionCommitted)])
                  + [Finishes(ValidationStart), Finishes(ValidationStop)]
                  + ([Enters(ActivationCommitted), Finishes(Activation)] + Hooked(publish) + [Enters(Complete)])
  {
    hide Accurate, RunProgram, ApplyProgram, Runnable, FinalScene, ShowsAll, FinalPhase, Milestones, StopsFit, SamePayload, Installed, Hooked, ValidJournal;
    var d := j.dataAction;
    var program := ApplyProgram(art, d, hash, stop, publish);
    BeginsCalm(world, j);
    InstallIsRunnable(world, art, d, hash, stop, publish);
    ProgramGoes(Begin(world, j, []), j, program, Scene([], world, false));
    HooksAreJournaled(stop, world, d);
    InstallShows(art, d, hash, stop, publish);
    ApplyActivates(art, d, hash, stop, publish);
    SamePublished(publish, Committed(art, d, hash, stop, world), Scene([], Installed(world, art, d), true));
  }

  lemma HooksAreJournaled(stop: seq<Instr>, world: World, d: DataAction)
    requires StopsFit(stop, world, d, true)
    ensures JournalHooks(stop)
  {
  }

  lemma ApplyActivates(art: Artifacts, d: DataAction, hash: string, stop: seq<Instr>, publish: seq<Instr>)
    ensures Activates(ApplyProgram(art, d, hash, stop, publish))
  {
    hide BeforeCommit;
    assert ApplyProgram(art, d, hash, stop, publish)[|BeforeCommit(art, d, hash, stop)|] == DoActivate;
  }

  /** A bootstrap that nothing disturbs creates the data, validates and activates. */
  lemma UndisturbedBootstrap(world: World, j: Journal, hash: string)
    requires BootstrapReady(world, j) && j.phase.Prepared?
    ensures var r := RunProgram(Begin(world, j, []), j, BootstrapProgram(hash));
            && r.ok && r.m.visible == r.j && r.m.durable == r.j && r.j.phase.ActivationCommitted? && r.j.authority.Target?
            && r.m.world == world[DATA_KEY := Text("created")]
            && Milestones(r.m.log)
               == [Finishes(DataPublish), Enters(DefinitionCommitted), Finishes(ValidationStart), Finishes(ValidationStop),
                   Enters(ActivationCommitted), Finishes(Activation)]
  {
    hide RunProgram, FinalScene, ShowsAll, FinalPhase, Milestones, ValidJournal, PlanFrom, Runnable, ProgramFits, AtActivation, BehindActivation, ValidationPart;
    var s := Scene([], world, false);
    var p := BootstrapPart(hash);
    BeginsCalm(world, j);
    BootstrapFits(world, j, hash);
    PlanIsRunnable(p, s, world, j.dataAction);
    NothingRuns(Activated(FinalScene(p, s)));
    ActivationRuns([], FinalScene(p, s));
    RunnableAppend(p, [DoActivate] + [], s);
    FinalAppend(p, [DoActivate] + [], s);
    assert BootstrapProgram(hash) == p + ([DoActivate] + []);
    ProgramGoes(Begin(world, j, []), j, BootstrapProgram(hash), s);
    assert BootstrapProgram(hash)[|p|] == DoActivate;
    BootstrapShows(hash);
  }

  lemma NothingRuns(s: Scene)
    ensures Runnable([], s) && FinalScene([], s) == s
  {
  }

  lemma BootstrapShows(hash: string)
    ensures ShowsAll(BootstrapProgram(hash), Prepared)
            == [Finishes(DataPublish), Enters(DefinitionCommitted), Finishes(ValidationStart), Finishes(ValidationStop),
                Enters(ActivationCommitted), Finishes(Activation)]
    ensures FinalPhase(BootstrapProgram(hash), Prepared) == ActivationCommitted
  {
    hide ShowsAll, FinalPhase, ValidationPart;
    var a := Do(FileAction(DataPublish, DataRole, ABSENT, Text("created")));
    var first := [a, Enter(DefinitionCommitted)];
    TwoShow(a, Enter(DefinitionCommitted), Prepared);
    ValidationShows(hash);
    ShowsAppend(first, ValidationPart(hash), Prepared);
    TwoShow(DoActivate, DoActivate, DefinitionCommitted);
    ShowsAppend(first + ValidationPart(hash), [DoActivate], Prepared);
    assert BootstrapProgram(hash) == first + ValidationPart(hash) + [DoActivate];
  }

  /** A lifecycle operation that nothing disturbs: stop, commit, publish, complete. */
  lemma UndisturbedLifecycle(world: World, j: Journal, stop: seq<Instr>, publish: seq<Instr>)
    requires FreshJournal(j) && j.phase.Prepared? && JournalHooks(stop) && JournalHooks(publish)
    requires Runnable(LifecycleProgram(stop, publish), Scene([], world, false))
    ensures var r := RunProgram(Begin(world, j, []), j, LifecycleProgram(stop, publish));
            && r.ok && r.m.visible == r.j && r.m.durable == r.j && r.j.phase.Complete? && r.j.authority.Target?
            && Milestones(r.m.log)
               == Hooked(stop) + [Enters(ActivationCommitted), Finishes(Activation)] + Hooked(publish) + [Enters(Complete)]
  {
    hide RunProgram, FinalScene, ShowsAll, FinalPhase, Milestones, ValidJournal, Runnable, Hooked;
    BeginsCalm(world, j);
    ProgramGoes(Begin(world, j, []), j, LifecycleProgram(stop, publish), Scene([], world, false));
    HooksShow(stop, Prepared);
    CommitShows(publish, Prepared);
    ShowsAppend(stop, [DoActivate] + publish + [Enter(Complete)], Prepared);
    assert LifecycleProgram(stop, publish) == stop + ([DoActivate] + publish + [Enter(Complete)]);
    assert LifecycleProgram(stop, publish)[|stop|] == DoActivate;
  }
}
