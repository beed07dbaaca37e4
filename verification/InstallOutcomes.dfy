/**
  What becomes of an install, a bootstrap and the stop of a service, over every history:
  when they are all or nothing, and when every key of the machine is restored.
 */
module InstallOutcomes {
  import opened Options
  import opened InstallJournal
  import opened InstallEngine
  import opened InstallRollback
  import opened InstallRollforward
  import opened InstallUndecided
  import opened InstallAtomicity
  import opened InstallPlans
  import opened InstallExactness
  import opened InstallLostActivation
  import opened InstallPrograms

  // ---- Keys that nothing touched yet ----

  /** Keys of these subjects are as the transaction found them, and no action is about them yet. */
  ghost predicate Intact(s: Scene, original: World, subjects: set<Subject>) {
    && !s.activated
    && (forall key: Key :: key.subject in subjects ==> !Journaled(s.actions, key))
    && (forall key :: key in original && key.subject in subjects ==> key in s.world && s.world[key] == original[key])
  }

  lemma PerformedJournals(s: Scene, a: Action)
    requires IsForward(a)
    ensures forall key :: Journaled(Performed(s, a).actions, key) <==> Journaled(s.actions, key) || key == KeyOf(a)
  {
    JournaledGrows(s.actions, a.(seqNo := |s.actions| + 1, status := Done));
  }

  /** A first reversible change of an intact key. */
  predicate FirstChange(a: Action, original: World, d: DataAction) {
    && IsForward(a) && ReverseKind(a.kind).Some?
    && KeyOf(a) in original && original[KeyOf(a)] == a.oldState
    && (a.kind.DataPublish? ==> a.oldState == ABSENT && d.CreateData?)
  }

  lemma FirstChangeFits(a: Action, s: Scene, original: World, d: DataAction, subjects: set<Subject>)
    requires Intact(s, original, subjects) && SubjectOf(a.kind) in subjects && FirstChange(a, original, d)
    ensures Undoable(a, s, original, d)
    ensures Intact(Performed(s, a), original, subjects - {SubjectOf(a.kind)})
    ensures Intact(s, original, subjects - {SubjectOf(a.kind)})
  {
    assert !Journaled(s.actions, KeyOf(a));
    PerformedJournals(s, a);
  }

  /** A program that fits and leads to the scene; a sturdy one is a plan. */
  ghost predicate Reaches(p: seq<Instr>, world: World, d: DataAction, end: Scene, sturdy: bool) {
    && ProgramFits(p, Scene([], world, false), world, d) && SceneAfter(p, world) == end
    && (sturdy ==> Plan(p, world, d))
  }

  lemma ReachesOne(p: seq<Instr>, i: Instr, mid: Scene, world: World, d: DataAction, sturdy: bool)
    requires Reaches(p, world, d, mid, sturdy) && InstrFits(i, mid, world, d) && (sturdy ==> PlanStep(i, mid, world, d))
    ensures Reaches(p + [i], world, d, After(i, mid), sturdy)
  {
    hide InstrFits, PlanStep;
    FitsAppend(p, i, Scene([], world, false), world, d);
    if sturdy { PlanAppend(p, i, Scene([], world, false), world, d); }
  }

  /** The store accepts the tokens of an action. */
  predicate Named(a: Action) { a.oldState != Text("") && a.newState != Text("") }

  lemma FirstIsSturdy(a: Action, s: Scene, original: World, subjects: set<Subject>)
    requires Intact(s, original, subjects) && SubjectOf(a.kind) in subjects && ReverseKind(a.kind).Some?
    requires Named(a) && a.oldState != a.newState
    ensures Sturdy(a, s.actions)
  {
    assert !Journaled(s.actions, KeyOf(a));
  }

  /** The world with the key of `a` moved, whether or not a step was needed. */
  lemma ReachesChange(p: seq<Instr>, a: Action, mid: Scene, world: World, d: DataAction, subjects: set<Subject>, sturdy: bool)
    returns (end: Scene)
    requires Reaches(p, world, d, mid, sturdy) && Intact(mid, world, subjects)
    requires SubjectOf(a.kind) in subjects && FirstChange(a, world, d) && (sturdy ==> Named(a))
    ensures Reaches(p + [Change(a)], world, d, end, sturdy)
    ensures Intact(end, world, subjects - {SubjectOf(a.kind)})
    ensures end.world == mid.world[KeyOf(a) := a.newState]
  {
    hide Undoable, Reaches, Sturdy;
    FirstChangeFits(a, mid, world, d, subjects);
    if sturdy && a.oldState != a.newState { FirstIsSturdy(a, mid, world, subjects); }
    ReachesOne(p, Change(a), mid, world, d, sturdy);
    end := After(Change(a), mid);
  }

  lemma ReachesPhase(p: seq<Instr>, phase: Phase, mid: Scene, world: World, d: DataAction, sturdy: bool)
    requires Reaches(p, world, d, mid, sturdy) && !mid.activated && Pending(phase)
    ensures Reaches(p + [Enter(phase)], world, d, mid, sturdy)
  {
    hide Reaches;
    ReachesOne(p, Enter(phase), mid, world, d, sturdy);
  }

  lemma ReachesReload(p: seq<Instr>, mid: Scene, world: World, d: DataAction, sturdy: bool)
    requires Reaches(p, world, d, mid, sturdy) && !mid.activated && (sturdy ==> CanReload(world))
    ensures Reaches(p + [DoReload], world, d, After(DoReload, mid), sturdy)
  {
    hide ProgramFits, Trace, FinalScene, PlanFrom, WorldAt;
    if sturdy {
      PlanTraced(p, world, d);
      WorldCanReload(mid.actions, |mid.actions|, world, d);
    }
    ReachesOne(p, DoReload, mid, world, d, sturdy);
  }

  const PAYLOAD := {Data, Managed, Path, ChannelFile, Unit, Validation}

  /** Two worlds with the same payload, whatever the service does. */
  ghost predicate SamePayload(w: World, v: World) {
    forall key: Key :: !IsService(key.subject) ==> (key in w <==> key in v) && (key in w ==> w[key] == v[key])
  }

  lemma StillUnjournaled(actions: seq<Action>, b: Action, key: Key)
    requires !Journaled(actions, key) && (IsForward(b) ==> KeyOf(b) != key)
    ensures !Journaled(actions + [b], key)
  {
  }

  lemma OthersStayIntact(s: Scene, a: Action, original: World, subjects: set<Subject>)
    requires Intact(s, original, subjects) && SubjectOf(a.kind) !in subjects
    ensures Intact(Performed(s, a), original, subjects)
  {
    forall key: Key | key.subject in subjects ensures !Journaled(Performed(s, a).actions, key) {
      StillUnjournaled(s.actions, a.(seqNo := |s.actions| + 1, status := Done), key);
    }
  }

  lemma ServiceKeepsIntact(s: Scene, a: Action, original: World, subjects: set<Subject>)
    requires Intact(s, original, subjects) && subjects <= PAYLOAD && IsService(SubjectOf(a.kind))
    ensures Intact(Performed(s, a), original, subjects) && SamePayload(Performed(s, a).world, s.world)
  {
    OthersStayIntact(s, a, original, subjects);
  }

  lemma {:induction false} HooksKeepIntact(hooks: seq<Instr>, s: Scene, original: World)
    requires Intact(s, original, PAYLOAD) && ServiceHooks(hooks)
    ensures Intact(FinalScene(hooks, s), original, PAYLOAD) && SamePayload(FinalScene(hooks, s).world, s.world)
    decreases |hooks|
  {
    hide Intact;
    if hooks != [] {
      var a := if hooks[0].Do? then hooks[0].action else ReloadAction(s.world, Reload);
      ServiceKeepsIntact(s, a, original, PAYLOAD);
      HooksKeepIntact(hooks[1..], After(hooks[0], s), original);
    }
  }

  // ---- The install, step by step ----

  /** The prepared artifacts describe the machine the install starts from, but for the definition. */
  ghost predicate Accurate(art: Artifacts, world: World, d: DataAction) {
    && DATA_KEY in world && (d.CreateData? ==> world[DATA_KEY] == ABSENT)
    && MANAGED_KEY in world && world[MANAGED_KEY] == art.managedOld
    && PATH_KEY in world && world[PATH_KEY] == art.pathOld
    && CHANNEL_KEY in world && world[CHANNEL_KEY] == art.channelOld
    && DEFINITION_KEY in world
    && VALIDATION_KEY in world && world[VALIDATION_KEY] == Text("idle")
  }

  /** Every token of the artifacts can be written to a journal. */
  predicate Writable(art: Artifacts) {
    && art.dataNew != Text("") && art.definitionNew != Text("")
    && art.managedOld != Text("") && art.managedNew != Text("") && art.pathOld != Text("") && art.pathNew != Text("")
    && art.channelOld != Text("") && art.channelNew != Text("")
  }

  function Defines(art: Artifacts): Action { FileAction(Definition, DefinitionRole, ABSENT, art.definitionNew) }

  /** The claim about the definition is true, or not made. */
  predicate DefinitionFits(art: Artifacts, world: World)
    requires DEFINITION_KEY in world
  {
    art.definitionNew == ABSENT || world[DEFINITION_KEY] == ABSENT
  }

  /** The machine an install is meant to leave behind; one without a definition leaves that place alone. */
  function Installed(world: World, art: Artifacts, d: DataAction): World {
    var w := (if d.CreateData? then world[DATA_KEY := art.dataNew] else world)
      [MANAGED_KEY := art.managedNew][PATH_KEY := art.pathNew][CHANNEL_KEY := art.channelNew];
    if art.definitionNew == ABSENT then w else w[DEFINITION_KEY := art.definitionNew]
  }

  lemma DataPartFits(p: seq<Instr>, mid: Scene, world: World, art: Artifacts, d: DataAction, sturdy: bool) returns (end: Scene)
    requires Reaches(p, world, d, mid, sturdy) && Intact(mid, world, PAYLOAD) && Accurate(art, world, d) && (sturdy ==> Writable(art))
    ensures Reaches(p + DataPart(art, d), world, d, end, sturdy) && Intact(end, world, PAYLOAD - {Data})
    ensures end.world == if d.CreateData? then mid.world[DATA_KEY := art.dataNew] else mid.world
  {
    hide Reaches;
    ReachesPhase(p, Stopped, mid, world, d, sturdy);
    var q := p + [Enter(Stopped)];
    end := mid;
    if d.CreateData? {
      var a := FileAction(DataPublish, DataRole, ABSENT, art.dataNew);
      end := ReachesChange(q, a, mid, world, d, PAYLOAD, sturdy);
      q := q + [Change(a)];
    } else {
      Narrower(mid, world, PAYLOAD, PAYLOAD - {Data});
    }
    ReachesPhase(q, DataCommitted, end, world, d, sturdy);
    assert q + [Enter(DataCommitted)] == p + DataPart(art, d);
  }

  lemma Narrower(s: Scene, original: World, subjects: set<Subject>, fewer: set<Subject>)
    requires Intact(s, original, subjects) && fewer <= subjects
    ensures Intact(s, original, fewer)
  {
  }

  lemma IntactIsInactive(s: Scene, original: World, subjects: set<Subject>)
    requires Intact(s, original, subjects)
    ensures !s.activated
  {
  }

  lemma BinaryPartFits(p: seq<Instr>, mid: Scene, world: World, art: Artifacts, d: DataAction, sturdy: bool) returns (end: Scene)
    requires Reaches(p, world, d, mid, sturdy) && Intact(mid, world, PAYLOAD - {Data}) && Accurate(art, world, d) && (sturdy ==> Writable(art))
    ensures Reaches(p + BinaryPart(art), world, d, end, sturdy) && Intact(end, world, {Unit, Validation})
    ensures end.world == mid.world[MANAGED_KEY := art.managedNew][PATH_KEY := art.pathNew][CHANNEL_KEY := art.channelNew]
  {
    hide Reaches, Intact;
    var a := FileAction(ManagedBinary, ManagedBinaryRole, art.managedOld, art.managedNew);
    var b := FileAction(PathBinary, PathBinaryRole, art.pathOld, art.pathNew);
    var c := FileAction(Channel, ChannelRole, art.channelOld, art.channelNew);
    var e1 := ReachesChange(p, a, mid, world, d, PAYLOAD - {Data}, sturdy);
    var e2 := ReachesChange(p + [Change(a)], b, e1, world, d, PAYLOAD - {Data} - {Managed}, sturdy);
    end := ReachesChange(p + [Change(a)] + [Change(b)], c, e2, world, d, PAYLOAD - {Data} - {Managed} - {Path}, sturdy);
    assert PAYLOAD - {Data} - {Managed} - {Path} - {ChannelFile} == {Unit, Validation};
    IntactIsInactive(end, world, {Unit, Validation});
    ReachesPhase(p + [Change(a)] + [Change(b)] + [Change(c)], BinariesCommitted, end, world, d, sturdy);
    assert p + [Change(a)] + [Change(b)] + [Change(c)] + [Enter(BinariesCommitted)] == p + BinaryPart(art);
  }

  /** An install without a definition does not look at its place. */
  lemma DefinitionStepFits(p: seq<Instr>, mid: Scene, world: World, art: Artifacts, d: DataAction, sturdy: bool) returns (end: Scene)
    requires Reaches(p, world, d, mid, sturdy) && Intact(mid, world, {Unit, Validation}) && Accurate(art, world, d) && (sturdy ==> Writable(art))
    requires DefinitionFits(art, world)
    ensures Reaches(p + [Change(Defines(art))], world, d, end, sturdy) && Intact(end, world, {Validation})
    ensures end.world == if art.definitionNew == ABSENT then mid.world else mid.world[DEFINITION_KEY := art.definitionNew]
  {
    hide Reaches, Intact;
    if art.definitionNew == ABSENT {
      IntactIsInactive(mid, world, {Unit, Validation});
      ReachesOne(p, Change(Defines(art)), mid, world, d, sturdy);
      Narrower(mid, world, {Unit, Validation}, {Validation});
      end := mid;
    } else {
      end := ReachesChange(p, Defines(art), mid, world, d, {Unit, Validation}, sturdy);
      assert {Unit, Validation} - {Unit} == {Validation};
    }
  }

  lemma DefinitionPartFits(p: seq<Instr>, mid: Scene, world: World, art: Artifacts, d: DataAction, sturdy: bool) returns (end: Scene)
    requires Reaches(p, world, d, mid, sturdy) && Intact(mid, world, {Unit, Validation}) && Accurate(art, world, d)
    requires DefinitionFits(art, world) && (sturdy ==> Writable(art) && CanReload(world))
    ensures Reaches(p + DefinitionPart(art), world, d, end, sturdy) && Intact(end, world, {Validation})
    ensures SamePayload(end.world, if art.definitionNew == ABSENT then mid.world else mid.world[DEFINITION_KEY := art.definitionNew])
  {
    hide Reaches, Intact, SamePayload;
    var e1 := DefinitionStepFits(p, mid, world, art, d, sturdy);
    var a := Defines(art);
    IntactIsInactive(e1, world, {Validation});
    ReachesReload(p + [Change(a)], e1, world, d, sturdy);
    end := After(DoReload, e1);
    ServiceKeepsIntact(e1, ReloadAction(e1.world, Reload), world, {Validation});
    ReachesPhase(p + [Change(a)] + [DoReload], DefinitionCommitted, end, world, d, sturdy);
    assert p + [Change(a)] + [DoReload] + [Enter(DefinitionCommitted)] == p + DefinitionPart(art);
  }

  /** Stopping the validation child needs no reversal of its own: starting it comes first. */
  lemma ValidationEndFits(mid: Scene, hash: string, world: World, d: DataAction)
    requires Intact(mid, world, {Validation}) && VALIDATION_KEY in world && world[VALIDATION_KEY] == Text("idle")
    ensures Undoable(ValidationEnds(), Performed(mid, ValidationBegins(hash)), world, d)
    ensures Sturdy(ValidationEnds(), Performed(mid, ValidationBegins(hash)).actions)
  {
    var s := Performed(mid, ValidationBegins(hash));
    var a := ValidationEnds();
    PerformedJournals(mid, ValidationBegins(hash));
    assert !Journaled(mid.actions, KeyOf(a));
    assert s.actions[..|mid.actions|] == mid.actions;
  }

  lemma ValidationPartFits(p: seq<Instr>, mid: Scene, world: World, hash: string, d: DataAction, sturdy: bool) returns (end: Scene)
    requires Reaches(p, world, d, mid, sturdy) && Intact(mid, world, {Validation})
    requires VALIDATION_KEY in world && world[VALIDATION_KEY] == Text("idle")
    ensures Reaches(p + ValidationPart(hash), world, d, end, sturdy) && !end.activated
    ensures end.world == mid.world
  {
    hide Reaches, Undoable, Sturdy;
    var a := ValidationBegins(hash);
    var b := ValidationEnds();
    FirstChangeFits(a, mid, world, d, {Validation});
    FirstIsSturdy(a, mid, world, {Validation});
    ReachesOne(p, Do(a), mid, world, d, sturdy);
    ValidationEndFits(mid, hash, world, d);
    var e1 := After(Do(a), mid);
    ReachesOne(p + [Do(a)], Do(b), e1, world, d, sturdy);
    end := After(Do(b), e1);
    assert p + [Do(a)] + [Do(b)] == p + ValidationPart(hash);
  }

  /** What an install does before it writes the definition. */
  function BeforeDefinition(art: Artifacts, d: DataAction, stop: seq<Instr>): seq<Instr> { stop + DataPart(art, d) + BinaryPart(art) }

  /** The hooks of stopping the service, which come first. */
  ghost predicate StopsFit(stop: seq<Instr>, world: World, d: DataAction, sturdy: bool) {
    ServiceHooks(stop) && ProgramFits(stop, Scene([], world, false), world, d) && (sturdy ==> Plan(stop, world, d))
  }

  lemma BeforeDefinitionFits(world: World, art: Artifacts, d: DataAction, stop: seq<Instr>, sturdy: bool) returns (end: Scene)
    requires Accurate(art, world, d) && StopsFit(stop, world, d, sturdy) && (sturdy ==> Writable(art))
    ensures Reaches(BeforeDefinition(art, d, stop), world, d, end, sturdy) && Intact(end, world, {Unit, Validation})
    ensures SamePayload(SceneAfter(stop, world).world, world)
    ensures end.world == (var w := SceneAfter(stop, world).world;
                          if d.CreateData? then w[DATA_KEY := art.dataNew] else w)
                         [MANAGED_KEY := art.managedNew][PATH_KEY := art.pathNew][CHANNEL_KEY := art.channelNew]
  {
    hide Intact, ProgramFits, PlanFrom, FinalScene, Accurate, SamePayload, DataPart, BinaryPart;
    var s := Scene([], world, false);
    NothingJournaled(world);
    HooksKeepIntact(stop, s, world);
    var e0 := SceneAfter(stop, world);
    var e1 := DataPartFits(stop, e0, world, art, d, sturdy);
    end := BinaryPartFits(stop + DataPart(art, d), e1, world, art, d, sturdy);
  }

  /** Everything before the activation fits, and leaves the payload installed. */
  lemma BeforeCommitFits(world: World, art: Artifacts, d: DataAction, hash: string, stop: seq<Instr>, sturdy: bool) returns (end: Scene)
    requires Accurate(art, world, d) && DefinitionFits(art, world) && StopsFit(stop, world, d, sturdy)
    requires sturdy ==> Writable(art) && CanReload(world)
    ensures Reaches(BeforeCommit(art, d, hash, stop), world, d, end, sturdy) && !end.activated
    ensures SamePayload(end.world, Installed(world, art, d))
  {
    hide Intact, Reaches, Accurate, SamePayload, BeforeDefinition, DefinitionPart, ValidationPart, StopsFit, SceneAfter;
    var p := BeforeDefinition(art, d, stop);
    var e1 := BeforeDefinitionFits(world, art, d, stop, sturdy);
    var e2 := DefinitionPartFits(p, e1, world, art, d, sturdy);
    AccurateIsIdle(art, world, d);
    end := ValidationPartFits(p + DefinitionPart(art), e2, world, hash, d, sturdy);
    CommitParts(art, d, hash, stop);
    PayloadMoves(SceneAfter(stop, world).world, world, art, d, end.world);
  }

  lemma CommitParts(art: Artifacts, d: DataAction, hash: string, stop: seq<Instr>)
    ensures BeforeCommit(art, d, hash, stop) == BeforeDefinition(art, d, stop) + DefinitionPart(art) + ValidationPart(hash)
  {
  }

  lemma AccurateIsIdle(art: Artifacts, world: World, d: DataAction)
    requires Accurate(art, world, d)
    ensures VALIDATION_KEY in world && world[VALIDATION_KEY] == Text("idle")
  {
  }

  lemma PayloadMoves(w: World, v: World, art: Artifacts, d: DataAction, end: World)
    requires SamePayload(w, v) && SamePayload(end, Installed(w, art, d))
    ensures SamePayload(end, Installed(v, art, d))
  {
  }

  lemma NothingJournaled(world: World)
    ensures Intact(Scene([], world, false), world, PAYLOAD)
  {
  }

  /** Behind the activation hooks go forwards and the journal is completed. */
  predicate Trailing(q: seq<Instr>) {
    forall i :: 0 <= i < |q| ==>
      || q[i].DoReload? || q[i] == Enter(Complete)
      || ((q[i].Do? || q[i].Change?) && !IsReverse(q[i].action.kind) && !q[i].action.kind.Activation?)
  }

  lemma {:induction false} TrailingFits(q: seq<Instr>, s: Scene, original: World, d: DataAction)
    requires Trailing(q) && s.activated
    ensures ProgramFits(q, s, original, d)
    decreases |q|
  {
    if q != [] { TrailingFits(q[1..], After(q[0], s), original, d); }
  }

  lemma {:induction false} TrailingGrows(p: seq<Instr>, q: seq<Instr>, s: Scene, original: World, d: DataAction)
    requires ProgramFits(p, s, original, d) && Preparing(p) && Trailing(q) && !s.activated && !FinalScene(p, s).activated
    ensures ProgramFits(p + [DoActivate] + q, s, original, d)
    decreases |p|
  {
    hide Fits;
    var whole := p + [DoActivate] + q;
    if p == [] {
      assert whole[0] == DoActivate && whole[1..] == q;
      TrailingFits(q, After(DoActivate, s), original, d);
    } else {
      assert whole[0] == p[0] && whole[1..] == p[1..] + [DoActivate] + q;
      TrailingGrows(p[1..], q, After(p[0], s), original, d);
    }
  }

  /** The activation splits a program: what is before it decides what is installed. */
  lemma CommitFits(p: seq<Instr>, q: seq<Instr>, world: World, d: DataAction)
    requires ProgramFits(p, Scene([], world, false), world, d) && Preparing(p) && Trailing(q) && !SceneAfter(p, world).activated
    ensures ProgramFits(p + [DoActivate] + q, Scene([], world, false), world, d)
    ensures AtActivation(p + [DoActivate] + q, Scene([], world, false)) == SceneAfter(p, world)
    ensures BehindActivation(p + [DoActivate] + q) == q
  {
    hide ProgramFits, AtActivation, BehindActivation;
    TrailingGrows(p, q, Scene([], world, false), world, d);
    ActivationScene(p, q, Scene([], world, false));
  }

  function Tail(publish: seq<Instr>): seq<Instr> { publish + [Enter(Complete)] }

  lemma ApplyParts(art: Artifacts, d: DataAction, hash: string, stop: seq<Instr>, publish: seq<Instr>)
    requires ServiceHooks(stop) && ForwardHooks(publish)
    ensures ApplyProgram(art, d, hash, stop, publish) == BeforeCommit(art, d, hash, stop) + [DoActivate] + Tail(publish)
    ensures Preparing(BeforeCommit(art, d, hash, stop)) && Trailing(Tail(publish))
  {
    assert ApplyProgram(art, d, hash, stop, publish) == BeforeCommit(art, d, hash, stop) + [DoActivate] + Tail(publish);
  }

  lemma ApplyFits(world: World, j: Journal, art: Artifacts, hash: string, stop: seq<Instr>, publish: seq<Instr>)
    requires FreshJournal(j) && Accurate(art, world, j.dataAction) && DefinitionFits(art, world)
    requires ForwardHooks(publish) && StopsFit(stop, world, j.dataAction, false)
    ensures var program := ApplyProgram(art, j.dataAction, hash, stop, publish);
            && WellPlanned(world, j, program)
            && SamePayload(AtActivation(program, Scene([], world, false)).world, Installed(world, art, j.dataAction))
            && BehindActivation(program) == Tail(publish)
            && AtActivation(program, Scene([], world, false)) == SceneAfter(BeforeCommit(art, j.dataAction, hash, stop), world)
  {
    hide ProgramFits, Accurate, SamePayload, AtActivation, FinalScene, ApplyProgram, BeforeCommit;
    var d := j.dataAction;
    var end := BeforeCommitFits(world, art, d, hash, stop, false);
    ApplyParts(art, d, hash, stop, publish);
    CommitFits(BeforeCommit(art, d, hash, stop), Tail(publish), world, d);
  }

  // ---- All or nothing ----

  /** A machine whose payload is as before the install, or as the install meant it to be. */
  ghost predicate PayloadIs(world: World, expected: World) {
    forall key :: key in expected && !IsService(key.subject) ==> key in world && world[key] == expected[key]
  }

  /** A machine on which the hooks were published. */
  function Published(world: World, hooks: seq<Instr>): World { FinalScene(hooks, Scene([], world, true)).world }

  /**
    A recovery that succeeds leaves the whole old payload, or the whole new one with as many of
    the published files as were reached, and the published authority says which.
   */
  ghost predicate WholeOrNothing(world: World, j: Journal, art: Artifacts, hash: string, stop: seq<Instr>, publish: seq<Instr>,
                                 fates: seq<Fate>, powerLoss: bool, p: Policy, attempts: seq<Attempt>, last: seq<Fate>) {
    var m := AfterCrashes(world, j, ApplyProgram(art, j.dataAction, hash, stop, publish), fates, powerLoss, p, attempts);
    var r := RecoverOnce(m.(fates := last), p);
    r.ok ==>
      && r.m.visible.phase.Complete? && r.m.visible.authority == m.visible.authority
      && if m.visible.authority.Source? then PayloadIs(r.m.world, world)
         else InstalledAndPublished(r.m, SceneAfter(BeforeCommit(art, j.dataAction, hash, stop), world), Installed(world, art, j.dataAction), publish)
  }

  /** The installed payload, and the published files up to some hook, behind which the journal is only about the service. */
  ghost predicate InstalledAndPublished(m: Machine, before: Scene, installed: World, publish: seq<Instr>) {
    exists n :: 0 <= n <= |publish| && PublishedUntil(m, before, installed, publish[..n])
  }

  ghost predicate PublishedUntil(m: Machine, before: Scene, installed: World, hooks: seq<Instr>) {
    && PayloadIs(m.world, Published(installed, hooks))
    && ServiceFrom(m.visible.actions, |FinalScene(hooks, Activated(before)).actions|)
  }

  lemma {:induction false} SamePublished(hooks: seq<Instr>, s: Scene, e: Scene)
    requires SamePayload(s.world, e.world)
    ensures SamePayload(FinalScene(hooks, s).world, FinalScene(hooks, e).world)
    decreases |hooks|
  {
    hide After, SamePayload;
    if hooks != [] {
      SameAfter(hooks[0], s, e);
      SamePublished(hooks[1..], After(hooks[0], s), After(hooks[0], e));
    }
  }

  lemma SameAfter(i: Instr, s: Scene, e: Scene)
    requires SamePayload(s.world, e.world)
    ensures SamePayload(After(i, s).world, After(i, e).world)
  {
    match i
    case Enter(_) =>
    case Do(a) => SamePerformed(a, s, e);
    case Change(a) => SamePerformed(a, s, e);
    case DoReload =>
      ServiceMoves(s, ReloadAction(s.world, Reload));
      ServiceMoves(e, ReloadAction(e.world, Reload));
    case DoActivate =>
  }

  lemma SamePerformed(a: Action, s: Scene, e: Scene)
    requires SamePayload(s.world, e.world)
    ensures SamePayload(Performed(s, a).world, Performed(e, a).world)
  {
    hide KeyOf;
  }

  lemma ServiceMoves(s: Scene, a: Action)
    requires IsService(SubjectOf(a.kind))
    ensures SamePayload(Performed(s, a).world, s.world)
  {
  }

  /** Hooks that only switch the service publish nothing. */
  lemma {:induction false} SwitchingPublishesNothing(hooks: seq<Instr>, s: Scene)
    requires ServiceHooks(hooks)
    ensures SamePayload(FinalScene(hooks, s).world, s.world)
    decreases |hooks|
  {
    if hooks != [] {
      var a := if hooks[0].Do? then hooks[0].action else ReloadAction(s.world, Reload);
      ServiceMoves(s, a);
      SwitchingPublishesNothing(hooks[1..], After(hooks[0], s));
    }
  }

  lemma SwitchedIsInstalled(m: Machine, before: Scene, installed: World, publish: seq<Instr>)
    requires ServiceHooks(publish) && InstalledAndPublished(m, before, installed, publish)
    ensures PayloadIs(m.world, installed)
  {
    hide FinalScene, ServiceFrom;
    var n :| 0 <= n <= |publish| && PublishedUntil(m, before, installed, publish[..n]);
    SwitchingPublishesNothing(publish[..n], Scene([], installed, true));
  }

  /** A stage behind the activation is an installed payload and some of the hooks. */
  lemma StageIsPublished(m: Machine, world: World, j: Journal, art: Artifacts, hash: string, stop: seq<Instr>, publish: seq<Instr>)
    requires FreshJournal(j) && Accurate(art, world, j.dataAction) && DefinitionFits(art, world)
    requires ForwardHooks(publish) && StopsFit(stop, world, j.dataAction, false)
    requires Staged(m.world, m.visible.actions, ApplyProgram(art, j.dataAction, hash, stop, publish), Scene([], world, false))
    ensures InstalledAndPublished(m, SceneAfter(BeforeCommit(art, j.dataAction, hash, stop), world), Installed(world, art, j.dataAction), publish)
  {
    hide StopsFit, Accurate, WellPlanned, ApplyProgram, AtActivation, BehindActivation, FinalScene, BeforeCommit, SceneAfter, Installed,
         ForwardHooks, SamePayload, ServiceFrom, Pristine, PayloadIs;
    var program := ApplyProgram(art, j.dataAction, hash, stop, publish);
    ApplyFits(world, j, art, hash, stop, publish);
    var s := Scene([], world, false);
    var n :| 0 <= n <= |BehindActivation(program)| && AtStage(m.world, m.visible.actions, Stage(program, s, n));
    var k := if n <= |publish| then n else |publish|;
    var before, installed := SceneAfter(BeforeCommit(art, j.dataAction, hash, stop), world), Installed(world, art, j.dataAction);
    TailWorld(publish, n, Activated(before));
    SamePublished(publish[..k], Activated(before), Scene([], installed, true));
    PristineIsPayload(m.world, Stage(program, s, n).world, Published(installed, publish[..k]));
    assert PublishedUntil(m, before, installed, publish[..k]);
  }

  lemma PristineIsPayload(w: World, v: World, u: World)
    requires Pristine(w, v) && SamePayload(v, u)
    ensures PayloadIs(w, u)
  {
  }

  /** Completing the journal moves nothing. */
  lemma TailWorld(publish: seq<Instr>, n: nat, e: Scene)
    requires n <= |Tail(publish)|
    ensures FinalScene(Tail(publish)[..n], e) == FinalScene(publish[..if n <= |publish| then n else |publish|], e)
  {
    if n <= |publish| {
      assert Tail(publish)[..n] == publish[..n];
    } else {
      assert publish[..|publish|] == publish && Tail(publish)[..|publish|] == publish && Tail(publish)[..n] == Tail(publish);
      FinalGrows(Tail(publish), e, |publish|);
    }
  }

  lemma FittingIsAtomic(world: World, j: Journal, art: Artifacts, hash: string, stop: seq<Instr>, publish: seq<Instr>,
                        fates: seq<Fate>, powerLoss: bool, p: Policy, attempts: seq<Attempt>, last: seq<Fate>)
    requires FreshJournal(j) && Accurate(art, world, j.dataAction) && DefinitionFits(art, world)
    requires ForwardHooks(publish) && StopsFit(stop, world, j.dataAction, false)
    ensures WholeOrNothing(world, j, art, hash, stop, publish, fates, powerLoss, p, attempts, last)
    ensures var program := ApplyProgram(art, j.dataAction, hash, stop, publish);
            var m := AfterCrashes(world, j, program, fates, powerLoss, p, attempts);
            var r := RecoverOnce(m.(fates := last), p);
            r.ok ==>
              && (m.visible.authority.Source? && AnswersForAll(world, j, program, fates, powerLoss, p, attempts) ==> AllBack(r.m.world, world))
              && (m.visible.authority.Target? ==>
                    AllDone(r.m.visible.actions, |r.m.visible.actions|) && ReloadedAfterActivation(r.m.visible.actions))
  {
    hide StopsFit, Accurate, WellPlanned, RecoverOnce, AfterCrashes, ApplyProgram, AllDone, AnswersForAll, AllBack,
         ReloadedAfterActivation, SwitchedOn, TargetPolicy, BeforeCommit, SceneAfter, AtActivation, Staged, InstalledAndPublished, BehindActivation;
    var program := ApplyProgram(art, j.dataAction, hash, stop, publish);
    ApplyFits(world, j, art, hash, stop, publish);
    SourceAtomicity(world, j, program, fates, powerLoss, p, attempts, last);
    TargetAtomicity(world, j, program, fates, powerLoss, p, attempts, last);
    var m := AfterCrashes(world, j, program, fates, powerLoss, p, attempts);
    var r := RecoverOnce(m.(fates := last), p);
    if r.ok && m.visible.authority.Target? { StageIsPublished(r.m, world, j, art, hash, stop, publish); }
  }

  lemma ApplyAtDefinition(art: Artifacts, d: DataAction, hash: string, stop: seq<Instr>, publish: seq<Instr>) returns (rest: seq<Instr>)
    ensures ApplyProgram(art, d, hash, stop, publish) == BeforeDefinition(art, d, stop) + [Change(Defines(art))] + rest
  {
    rest := [DoReload, Enter(DefinitionCommitted)] + ValidationPart(hash) + [DoActivate] + publish + [Enter(Complete)];
    assert DefinitionPart(art) == [Change(Defines(art))] + [DoReload, Enter(DefinitionCommitted)];
  }

  lemma BeforeDefinitionPrepares(art: Artifacts, d: DataAction, stop: seq<Instr>)
    requires ServiceHooks(stop)
    ensures forall i :: 0 <= i < |BeforeDefinition(art, d, stop)| ==> !BeforeDefinition(art, d, stop)[i].DoActivate?
  {
  }

  /** The definition place holds what it held. */
  lemma DefinitionUntouched(end: Scene, world: World, art: Artifacts)
    requires Intact(end, world, {Unit, Validation}) && DEFINITION_KEY in world
    ensures KeyOf(Defines(art)) == DEFINITION_KEY && !Journaled(end.actions, DEFINITION_KEY) && IsForward(Defines(art))
    ensures DEFINITION_KEY in end.world && end.world[DEFINITION_KEY] == world[DEFINITION_KEY]
  {
  }

  /** A third token at the definition place stops the install and every recovery. */
  lemma ForeignDefinition(world: World, j: Journal, art: Artifacts, hash: string, stop: seq<Instr>, publish: seq<Instr>,
                          fates: seq<Fate>, powerLoss: bool, p: Policy, attempts: seq<Attempt>, last: seq<Fate>)
    requires FreshJournal(j) && Accurate(art, world, j.dataAction) && !DefinitionFits(art, world)
    requires world[DEFINITION_KEY] != art.definitionNew && StopsFit(stop, world, j.dataAction, false)
    ensures var m := AfterCrashes(world, j, ApplyProgram(art, j.dataAction, hash, stop, publish), fates, powerLoss, p, attempts);
            RollsBack(m, RecoverOnce(m.(fates := last), p), world)
  {
    hide ProgramFits, FinalScene, AfterCrashes, RecoverOnce, BeforeDefinition, ApplyProgram, AllBack, Intact;
    var d := j.dataAction;
    var end := BeforeDefinitionFits(world, art, d, stop, false);
    DefinitionUntouched(end, world, art);
    BeforeDefinitionPrepares(art, d, stop);
    var rest := ApplyAtDefinition(art, d, hash, stop, publish);
    ForeignIsAtomic(BeforeDefinition(art, d, stop), Change(Defines(art)), Defines(art), rest, world, j, fates, powerLoss, p, attempts, last);
  }

  /** The claim about the definition does no harm: it is not made, or its new token is not the one in place. */
  predicate DefinitionHarmless(art: Artifacts, world: World)
    requires DEFINITION_KEY in world
  {
    art.definitionNew == ABSENT || world[DEFINITION_KEY] != art.definitionNew
  }

  /**
    An install is all or nothing: wherever it and its recoveries are cut, a recovery
    that succeeds leaves either the whole old payload or the whole new one, and the
    published authority says which.
   */
  lemma ApplyIsAtomic(world: World, j: Journal, art: Artifacts, hash: string, stop: seq<Instr>, publish: seq<Instr>,
                      fates: seq<Fate>, powerLoss: bool, p: Policy, attempts: seq<Attempt>, last: seq<Fate>)
    requires FreshJournal(j) && Accurate(art, world, j.dataAction) && DefinitionHarmless(art, world)
    requires ForwardHooks(publish) && StopsFit(stop, world, j.dataAction, false)
    ensures WholeOrNothing(world, j, art, hash, stop, publish, fates, powerLoss, p, attempts, last)
    ensures var program := ApplyProgram(art, j.dataAction, hash, stop, publish);
            var m := AfterCrashes(world, j, program, fates, powerLoss, p, attempts);
            var r := RecoverOnce(m.(fates := last), p);
            r.ok ==>
              && (m.visible.authority.Source? && AnswersForAll(world, j, program, fates, powerLoss, p, attempts) ==> AllBack(r.m.world, world))
              && (m.visible.authority.Target? ==>
                    AllDone(r.m.visible.actions, |r.m.visible.actions|) && ReloadedAfterActivation(r.m.visible.actions))
  {
    hide StopsFit, RecoverOnce, AfterCrashes, ApplyProgram, AllDone, AnswersForAll, ReloadedAfterActivation, ServiceHooks, FreshJournal;
    if DefinitionFits(art, world) {
      FittingIsAtomic(world, j, art, hash, stop, publish, fates, powerLoss, p, attempts, last);
    } else {
      ForeignDefinition(world, j, art, hash, stop, publish, fates, powerLoss, p, attempts, last);
    }
  }

  lemma DefinesBehind(end: Scene, world: World, art: Artifacts, d: DataAction)
    requires Intact(end, world, {Unit, Validation}) && DEFINITION_KEY in world && Writable(art) && art.definitionNew != ABSENT
    ensures Behind(Defines(art), end, world, d)
  {
    DefinitionUntouched(end, world, art);
    forall k | 0 <= k < |end.actions| && IsForward(end.actions[k]) ensures !SameIdentity(end.actions[k], Defines(art)) {
      if SameIdentity(end.actions[k], Defines(art)) { SameKey(end.actions[k], Defines(art)); }
    }
  }

  lemma SameKey(a: Action, b: Action)
    requires SameIdentity(a, b)
    ensures KeyOf(a) == KeyOf(b)
  {
  }

  /** A definition that is in place already is lost: recovery undoes the step that never happened. */
  lemma DefinitionIsLost(world: World, j: Journal, art: Artifacts, hash: string, stop: seq<Instr>, publish: seq<Instr>, p: Policy)
    requires FreshJournal(j) && Accurate(art, world, j.dataAction) && Writable(art) && CanReload(world)
    requires StopsFit(stop, world, j.dataAction, true) && !DefinitionHarmless(art, world)
    ensures var fates := ProceedThenRefuse(Costs(BeforeDefinition(art, j.dataAction, stop)) + 1);
            var m := AfterCrashes(world, j, ApplyProgram(art, j.dataAction, hash, stop, publish), fates, false, p, []);
            var r := RecoverOnce(m.(fates := []), p);
            && r.ok && m.visible.authority.Source?
            && DEFINITION_KEY in r.m.world && r.m.world[DEFINITION_KEY] == ABSENT != world[DEFINITION_KEY]
            && !WholeOrNothing(world, j, art, hash, stop, publish, fates, false, p, [], [])
  {
    hide ProgramFits, PlanFrom, FinalScene, AfterCrashes, RecoverOnce, BeforeDefinition, ApplyProgram, Intact, Behind, Atomic;
    var d := j.dataAction;
    var end := BeforeDefinitionFits(world, art, d, stop, true);
    DefinitionUntouched(end, world, art);
    DefinesBehind(end, world, art, d);
    var rest := ApplyAtDefinition(art, d, hash, stop, publish);
    ClaimFails(BeforeDefinition(art, d, stop), Change(Defines(art)), Defines(art), rest, world, j, p);
  }

  /**
    Exactly when an install whose other artifacts are accurate is all or nothing in every
    history: if and only if it installs no definition, or another one than is in place.
   */
  lemma ApplyIsExact(world: World, j: Journal, art: Artifacts, hash: string, stop: seq<Instr>, publish: seq<Instr>, p: Policy)
    requires FreshJournal(j) && Accurate(art, world, j.dataAction) && Writable(art) && CanReload(world)
    requires ForwardHooks(publish) && StopsFit(stop, world, j.dataAction, true)
    ensures (forall fates, powerLoss, attempts, last ::
               WholeOrNothing(world, j, art, hash, stop, publish, fates, powerLoss, p, attempts, last))
            <==> DefinitionHarmless(art, world)
  {
    hide WholeOrNothing, ApplyProgram, Plan, ProgramFits, ServiceHooks, RecoverOnce, AfterCrashes, AnswersForAll, AllBack, AllDone, ReloadedAfterActivation;
    if DefinitionHarmless(art, world) {
      forall fates, powerLoss, attempts, last
        ensures WholeOrNothing(world, j, art, hash, stop, publish, fates, powerLoss, p, attempts, last)
      {
        ApplyIsAtomic(world, j, art, hash, stop, publish, fates, powerLoss, p, attempts, last);
      }
    } else {
      DefinitionIsLost(world, j, art, hash, stop, publish, p);
    }
  }

  lemma HookElsewhere(i: Instr, s: Scene, original: World, d: DataAction, key: Key, token: Token)
    requires ServiceHooks([i]) && PlanStep(i, s, original, d) && !IsService(key.subject) && key in original && key in s.world
    ensures PlanStep(i, s.(world := s.world[key := token]), original[key := token], d)
    ensures After(i, s.(world := s.world[key := token])) == After(i, s).(world := After(i, s).world[key := token])
  {
    hide Sturdy, ReverseKind, Journaled;
    assert i == [i][0];
    assert i.Do? ==> KeyOf(i.action) != key;
  }

  /** Hooks of the service do not notice what the payload is. */
  lemma {:induction false} HooksElsewhere(hooks: seq<Instr>, s: Scene, original: World, d: DataAction, key: Key, token: Token)
    requires ServiceHooks(hooks) && PlanFrom(hooks, s, original, d) && !IsService(key.subject) && key in original && key in s.world
    ensures PlanFrom(hooks, s.(world := s.world[key := token]), original[key := token], d)
    decreases |hooks|
  {
    hide PlanStep, After;
    if hooks != [] {
      HookElsewhere(hooks[0], s, original, d, key, token);
      assert key in After(hooks[0], s).world by { StillThere(hooks[0], s, key); }
      HooksElsewhere(hooks[1..], After(hooks[0], s), original, d, key, token);
    }
  }

  lemma StillThere(i: Instr, s: Scene, key: Key)
    requires key in s.world
    ensures key in After(i, s).world
  {
    hide KeyOf;
  }

  lemma StopsElsewhere(stop: seq<Instr>, world: World, d: DataAction, key: Key, token: Token)
    requires StopsFit(stop, world, d, true) && !IsService(key.subject) && key in world
    ensures StopsFit(stop, world[key := token], d, true)
  {
    hide PlanFrom, ProgramFits;
    HooksElsewhere(stop, Scene([], world, false), world, d, key, token);
    PlanFits(stop, Scene([], world[key := token], false), world[key := token], d);
  }

  /** Whatever is at the definition place, the install up to its commit is a program about which `ProgramIsExact` speaks. */
  lemma InstallClaims(world: World, art: Artifacts, d: DataAction, hash: string, stop: seq<Instr>)
    requires Accurate(art, world, d) && Writable(art) && CanReload(world) && StopsFit(stop, world, d, true)
    ensures Claims(BeforeCommit(art, d, hash, stop), world, d)
  {
    hide Claims, Plan, BeforeCommit, StopsFit, SceneAfter, Reaches, SamePayload;
    var clean := world[DEFINITION_KEY := ABSENT];
    StopsElsewhere(stop, world, d, DEFINITION_KEY, ABSENT);
    var end := BeforeCommitFits(clean, art, d, hash, stop, true);
    ReachesPlan(BeforeCommit(art, d, hash, stop), clean, d, end);
    PlanClaims(BeforeCommit(art, d, hash, stop), clean, d);
    ClaimsElsewhere(BeforeCommit(art, d, hash, stop), clean, d, DEFINITION_KEY, world[DEFINITION_KEY]);
    assert clean[DEFINITION_KEY := world[DEFINITION_KEY]] == world;
  }

  lemma ReachesPlan(p: seq<Instr>, world: World, d: DataAction, end: Scene)
    requires Reaches(p, world, d, end, true)
    ensures Plan(p, world, d)
  {
  }

  lemma CommitAtDefinition(art: Artifacts, d: DataAction, hash: string, stop: seq<Instr>) returns (rest: seq<Instr>)
    ensures BeforeCommit(art, d, hash, stop) == BeforeDefinition(art, d, stop) + [Change(Defines(art))] + rest
  {
    rest := [DoReload, Enter(DefinitionCommitted)] + ValidationPart(hash);
    assert DefinitionPart(art) == [Change(Defines(art))] + [DoReload, Enter(DefinitionCommitted)];
  }

  lemma CommitPrepares(art: Artifacts, d: DataAction, hash: string, stop: seq<Instr>)
    requires ServiceHooks(stop)
    ensures forall i :: 0 <= i < |BeforeCommit(art, d, hash, stop)| ==> !BeforeCommit(art, d, hash, stop)[i].DoActivate?
  {
  }

  lemma HarmlessCommit(world: World, j: Journal, art: Artifacts, hash: string, stop: seq<Instr>, p: Policy,
                       fates: seq<Fate>, powerLoss: bool, attempts: seq<Attempt>, last: seq<Fate>)
    requires FreshJournal(j) && Accurate(art, world, j.dataAction) && StopsFit(stop, world, j.dataAction, false) && DefinitionHarmless(art, world)
    ensures Atomic(world, j, BeforeCommit(art, j.dataAction, hash, stop), fates, powerLoss, p, attempts, last)
  {
    hide ProgramFits, FinalScene, Atomic, BeforeDefinition, BeforeCommit, Intact;
    var d := j.dataAction;
    BeforeDefinitionPrepares(art, d, stop);
    CommitPrepares(art, d, hash, stop);
    if DefinitionFits(art, world) {
      var end := BeforeCommitFits(world, art, d, hash, stop, false);
      UnactivatedIsAtomic(BeforeCommit(art, d, hash, stop), world, j, fates, powerLoss, p, attempts, last);
    } else {
      var end := BeforeDefinitionFits(world, art, d, stop, false);
      DefinitionUntouched(end, world, art);
      var rest := CommitAtDefinition(art, d, hash, stop);
      ForeignIsAtomic(BeforeDefinition(art, d, stop), Change(Defines(art)), Defines(art), rest, world, j, fates, powerLoss, p, attempts, last);
    }
  }

  /**
    An install up to its commit, as an instance of `ProgramIsExact`: every history restores every
    key if and only if no action spoils, that is, if the claim about the definition does no harm.
   */
  lemma CommitIsExact(world: World, j: Journal, art: Artifacts, hash: string, stop: seq<Instr>, p: Policy)
    requires FreshJournal(j) && Accurate(art, world, j.dataAction) && Writable(art) && CanReload(world) && StopsFit(stop, world, j.dataAction, true)
    ensures AlwaysAtomic(world, j, BeforeCommit(art, j.dataAction, hash, stop), p) <==> DefinitionHarmless(art, world)
    ensures DefinitionHarmless(art, world) <==> forall k :: !Spoils(BeforeCommit(art, j.dataAction, hash, stop), world, k)
  {
    hide Claims, PlanFrom, ProgramFits, FinalScene, Atomic, BeforeDefinition, BeforeCommit, Spoils, Intact, Behind, CanReload;
    var d := j.dataAction;
    InstallClaims(world, art, d, hash, stop);
    ProgramIsExact(BeforeCommit(art, d, hash, stop), world, j, p);
    if DefinitionHarmless(art, world) {
      forall fates, powerLoss, attempts, last ensures Atomic(world, j, BeforeCommit(art, d, hash, stop), fates, powerLoss, p, attempts, last) {
        HarmlessCommit(world, j, art, hash, stop, p, fates, powerLoss, attempts, last);
      }
    } else {
      var end := BeforeDefinitionFits(world, art, d, stop, true);
      DefinitionUntouched(end, world, art);
      DefinesBehind(end, world, art, d);
      var rest := CommitAtDefinition(art, d, hash, stop);
      ClaimFails(BeforeDefinition(art, d, stop), Change(Defines(art)), Defines(art), rest, world, j, p);
    }
  }

  /** The shortest such history: data retained, files as they are, no service to stop, one refused effect. */
  lemma ReinstalledDefinitionIsLost(world: World, j: Journal, art: Artifacts, hash: string, p: Policy)
    requires FreshJournal(j) && j.dataAction.RetainData? && Accurate(art, world, RetainData) && Writable(art) && CanReload(world)
    requires art.managedOld == art.managedNew && art.pathOld == art.pathNew && art.channelOld == art.channelNew
    requires world[DEFINITION_KEY] == art.definitionNew != ABSENT
    ensures var m := AfterCrashes(world, j, ApplyProgram(art, RetainData, hash, [], []), [Proceed, Proceed, Proceed, Proceed, Refuse], false, p, []);
            var r := RecoverOnce(m.(fates := []), p);
            r.ok && m.visible.authority.Source? && DEFINITION_KEY in r.m.world && r.m.world[DEFINITION_KEY] == ABSENT
  {
    hide AfterCrashes, RecoverOnce, ApplyProgram, WholeOrNothing, Accurate;
    assert StopsFit([], world, RetainData, true);
    DefinitionIsLost(world, j, art, hash, [], [], p);
    CostsOfNothing(art);
    assert ProceedThenRefuse(4) == [Proceed, Proceed, Proceed, Proceed, Refuse];
  }

  lemma CostsOfNothing(art: Artifacts)
    requires art.managedOld == art.managedNew && art.pathOld == art.pathNew && art.channelOld == art.channelNew
    ensures Costs(BeforeDefinition(art, RetainData, [])) == 3
  {
    var p := BeforeDefinition(art, RetainData, []);
    assert p == [Enter(Stopped), Enter(DataCommitted)] + BinaryPart(art);
    assert Costs(p[6..]) == 0;
    assert p[5..][1..] == p[6..] && Costs(p[5..]) == 1;
    assert p[4..][1..] == p[5..] && Costs(p[4..]) == 1;
    assert p[3..][1..] == p[4..] && Costs(p[3..]) == 1;
    assert p[2..][1..] == p[3..] && Costs(p[2..]) == 1;
    assert p[1..][1..] == p[2..] && Costs(p[1..]) == 2;
  }

  // ---- Every key, power losses included ----

  /** A part of a program that is not about the service. */
  predicate PayloadPart(q: seq<Instr>) {
    forall i :: 0 <= i < |q| ==>
      q[i].Enter? || q[i].DoReload? || ((q[i].Do? || q[i].Change?) && !IsService(SubjectOf(q[i].action.kind)))
  }

  /** The actions of `e` are those of `s` and some that are not about the service. */
  ghost predicate SameSwitching(s: Scene, e: Scene) {
    && s.actions <= e.actions
    && forall i :: |s.actions| <= i < |e.actions| && IsForward(e.actions[i]) ==> !IsService(KeyOf(e.actions[i]).subject)
  }

  lemma {:induction false} PartKeepsSwitching(q: seq<Instr>, s: Scene)
    requires PayloadPart(q)
    ensures SameSwitching(s, FinalScene(q, s))
    decreases |q|
  {
    if q != [] {
      PartKeepsSwitching(q[1..], After(q[0], s));
      var e := FinalScene(q, s);
      assert e.actions[..|After(q[0], s).actions|] == After(q[0], s).actions;
    }
  }

  lemma SwitchesJournaled(s: Scene, e: Scene, subject: Subject)
    requires SameSwitching(s, e) && IsService(subject)
    ensures Journaled(s.actions, Switch(subject)) <==> Journaled(e.actions, Switch(subject))
  {
    hide IsForward, KeyOf;
    assert e.actions[..|s.actions|] == s.actions;
    if Journaled(s.actions, Switch(subject)) {
      var i :| 0 <= i < |s.actions| && IsForward(s.actions[i]) && KeyOf(s.actions[i]) == Switch(subject);
      assert e.actions[i] == s.actions[i];
    }
    if Journaled(e.actions, Switch(subject)) {
      var i :| 0 <= i < |e.actions| && IsForward(e.actions[i]) && KeyOf(e.actions[i]) == Switch(subject);
      assert e.actions[i] == s.actions[i];
    }
  }

  lemma SwitchesAlike(s: Scene, e: Scene, world: World, asked: (bool, bool))
    requires SameSwitching(s, e)
    ensures Covered(s.actions, world, asked) <==> Covered(e.actions, world, asked)
    ensures TwoValued(s.actions, world, asked) ==> TwoValued(e.actions, world, asked)
  {
    hide Journaled, IsForward, KeyOf, Either;
    forall subject | Wanted(asked, subject)
      ensures Exposed(s.actions, world, asked, subject) <==> Exposed(e.actions, world, asked, subject)
    {
      SwitchesJournaled(s, e, subject);
    }
    forall i | 0 <= i < |s.actions| ensures e.actions[i] == s.actions[i] {
      assert e.actions[..|s.actions|][i] == s.actions[i];
    }
  }

  /** Behind the hooks of stopping, an install journals no switch. */
  lemma InstallKeepsSwitching(art: Artifacts, d: DataAction, hash: string, stop: seq<Instr>, world: World)
    ensures SameSwitching(SceneAfter(stop, world), SceneAfter(BeforeCommit(art, d, hash, stop), world))
  {
    hide FinalScene, SameSwitching;
    var q := DataPart(art, d) + BinaryPart(art) + DefinitionPart(art) + ValidationPart(hash);
    assert BeforeCommit(art, d, hash, stop) == stop + q;
    assert PayloadPart(q) by { PartsArePayload(art, d, hash); }
    FinalAppend(stop, q, Scene([], world, false));
    PartKeepsSwitching(q, SceneAfter(stop, world));
  }

  lemma PartsArePayload(art: Artifacts, d: DataAction, hash: string)
    ensures PayloadPart(DataPart(art, d) + BinaryPart(art) + DefinitionPart(art) + ValidationPart(hash))
  {
    assert PayloadPart(DataPart(art, d)) && PayloadPart(BinaryPart(art)) && PayloadPart(DefinitionPart(art)) && PayloadPart(ValidationPart(hash));
  }

  /** Everything the theorems about lost activations ask of an install. */
  lemma InstallIsPlan(world: World, j: Journal, art: Artifacts, hash: string, stop: seq<Instr>, publish: seq<Instr>, asked: (bool, bool))
    requires FreshJournal(j) && Accurate(art, world, j.dataAction) && DefinitionFits(art, world) && Writable(art) && CanReload(world)
    requires ForwardHooks(publish) && StopsFit(stop, world, j.dataAction, true) && TwoValued(SceneAfter(stop, world).actions, world, asked)
    ensures var before := BeforeCommit(art, j.dataAction, hash, stop);
            && Plan(before, world, j.dataAction) && WellPlanned(world, j, before + [DoActivate] + Tail(publish))
            && ApplyProgram(art, j.dataAction, hash, stop, publish) == before + [DoActivate] + Tail(publish)
            && TwoValued(SceneAfter(before, world).actions, world, asked)
            && (Covered(SceneAfter(stop, world).actions, world, asked) <==> Covered(SceneAfter(before, world).actions, world, asked))
  {
    hide PlanFrom, FinalScene, ProgramFits, Accurate, ApplyProgram, BeforeCommit, TwoValued, Covered, SameSwitching, SamePayload, AtActivation, Preparing, Trailing;
    var d := j.dataAction;
    var end := BeforeCommitFits(world, art, d, hash, stop, true);
    ApplyParts(art, d, hash, stop, publish);
    ApplyFits(world, j, art, hash, stop, publish);
    InstallKeepsSwitching(art, d, hash, stop, world);
    SwitchesAlike(SceneAfter(stop, world), SceneAfter(BeforeCommit(art, d, hash, stop), world), world, asked);
  }

  /**
    Exactly when every history of an install that recovery takes back restores every key, power
    losses included: if and only if the hooks of stopping journal each switch that is off and
    that recovery would turn on.
   */
  lemma InstallExposure(world: World, j: Journal, art: Artifacts, hash: string, stop: seq<Instr>, publish: seq<Instr>, p: Policy)
    requires FreshJournal(j) && Accurate(art, world, j.dataAction) && DefinitionFits(art, world) && Writable(art) && CanReload(world)
    requires ForwardHooks(publish) && StopsFit(stop, world, j.dataAction, true)
    requires TwoValued(SceneAfter(stop, world).actions, world, TargetPolicy(p, j))
    ensures AlwaysAtomic(world, j, ApplyProgram(art, j.dataAction, hash, stop, publish), p) <==>
            Covered(SceneAfter(stop, world).actions, world, TargetPolicy(p, j))
  {
    hide Plan, SceneAfter, WellPlanned, Accurate, ApplyProgram, BeforeCommit, TwoValued, Covered, AlwaysAtomic, TargetPolicy, CanReload;
    InstallIsPlan(world, j, art, hash, stop, publish, TargetPolicy(p, j));
    ExposureIsExact(BeforeCommit(art, j.dataAction, hash, stop), Tail(publish), world, j, p);
  }

  /**
    A plain install on a machine whose service is disabled: the activation is published and not
    synced, recoveries die while they announce and perform that the service is enabled, power
    is lost, and a last recovery rolls everything back but leaves the service enabled.
   */
  lemma InstallLeavesEnabled(world: World, j: Journal, art: Artifacts, hash: string, publish: seq<Instr>, p: Policy) returns (attempts: seq<Attempt>)
    requires FreshJournal(j) && j.operation.Install?
    requires Accurate(art, world, j.dataAction) && DefinitionFits(art, world) && Writable(art) && CanReload(world) && ForwardHooks(publish)
    requires Switch(Masking) in world && Either(world[Switch(Masking)], Masking)
    requires Switch(Enablement) in world && world[Switch(Enablement)] == Text("disabled")
    ensures var fates := HalfFates(Costs(BeforeCommit(art, j.dataAction, hash, [])));
            var m := AfterCrashes(world, j, ApplyProgram(art, j.dataAction, hash, [], publish), fates, false, p, attempts);
            var r := RecoverOnce(m.(fates := []), p);
            && r.ok && m.visible.authority.Source?
            && Switch(Enablement) in r.m.world && r.m.world[Switch(Enablement)] == Text("enabled")
  {
    hide AfterCrashes, RecoverOnce, ApplyProgram, BeforeCommit, Accurate, WellPlanned, Atomic;
    var d := j.dataAction;
    var asked := (true, false);
    assert TargetPolicy(p, j) == asked;
    assert SceneAfter([], world) == Scene([], world, false);
    assert StopsFit([], world, d, true);
    InstallIsPlan(world, j, art, hash, [], publish, asked);
    assert Exposed([], world, asked, Enablement);
    InstallKeepsSwitching(art, d, hash, [], world);
    SwitchesJournaled(Scene([], world, false), SceneAfter(BeforeCommit(art, d, hash, []), world), Enablement);
    attempts := ExposedFails(BeforeCommit(art, d, hash, []), Tail(publish), world, j, p, Enablement);
  }

  // ---- The foreground bootstrap ----

  ghost predicate BootstrapReady(world: World, j: Journal) {
    && FreshJournal(j) && j.dataAction.CreateData?
    && DATA_KEY in world && world[DATA_KEY] == ABSENT
    && VALIDATION_KEY in world && world[VALIDATION_KEY] == Text("idle")
  }

  lemma BootstrapFits(world: World, j: Journal, hash: string)
    requires BootstrapReady(world, j)
    ensures Plan(BootstrapPart(hash), world, j.dataAction) && WellPlanned(world, j, BootstrapProgram(hash))
    ensures BootstrapProgram(hash) == BootstrapPart(hash) + [DoActivate] + []
    ensures AtActivation(BootstrapProgram(hash), Scene([], world, false)).world == world[DATA_KEY := Text("created")]
    ensures BehindActivation(BootstrapProgram(hash)) == []
    ensures AtActivation(BootstrapProgram(hash), Scene([], world, false)) == SceneAfter(BootstrapPart(hash), world)
  {
    hide ProgramFits, PlanFrom, FinalScene, AtActivation, Undoable, ValidationPart, Sturdy;
    var d := j.dataAction;
    var s := Scene([], world, false);
    var a := FileAction(DataPublish, DataRole, ABSENT, Text("created"));
    NothingJournaled(world);
    NothingRun(world, d, true);
    FirstChangeFits(a, s, world, d, PAYLOAD);
    FirstIsSturdy(a, s, world, PAYLOAD);
    ReachesOne([], Do(a), s, world, d, true);
    var e := Performed(s, a);
    ReachesPhase([] + [Do(a)], DefinitionCommitted, e, world, d, true);
    Narrower(e, world, PAYLOAD - {Data}, {Validation});
    var end := ValidationPartFits([] + [Do(a)] + [Enter(DefinitionCommitted)], e, world, hash, d, true);
    assert [] + [Do(a)] + [Enter(DefinitionCommitted)] + ValidationPart(hash) == BootstrapPart(hash);
    BootstrapPrepares(hash);
    CommitFits(BootstrapPart(hash), [], world, d);
    assert BootstrapProgram(hash) == BootstrapPart(hash) + [DoActivate] + [];
  }

  lemma NothingRun(world: World, d: DataAction, sturdy: bool)
    ensures Reaches([], world, d, Scene([], world, false), sturdy)
  {
  }

  lemma BootstrapPrepares(hash: string)
    ensures Preparing(BootstrapPart(hash))
  {
  }

  /** The foreground bootstrap, whose only payload is the data it creates, is all or nothing. */
  lemma BootstrapIsAtomic(world: World, j: Journal, hash: string,
                          fates: seq<Fate>, powerLoss: bool, p: Policy, attempts: seq<Attempt>, last: seq<Fate>)
    requires BootstrapReady(world, j)
    ensures var m := AfterCrashes(world, j, BootstrapProgram(hash), fates, powerLoss, p, attempts);
            var r := RecoverOnce(m.(fates := last), p);
            r.ok ==>
              && r.m.visible.phase.Complete? && r.m.visible.authority == m.visible.authority
              && PayloadIs(r.m.world, if m.visible.authority.Source? then world else world[DATA_KEY := Text("created")])
              && (m.visible.authority.Source? && AnswersForAll(world, j, BootstrapProgram(hash), fates, powerLoss, p, attempts) ==>
                    AllBack(r.m.world, world))
  {
    hide Plan, WellPlanned, RecoverOnce, AfterCrashes, BootstrapProgram, BehindActivation, AllDone, AnswersForAll, AllBack,
         ReloadedAfterActivation, SwitchedOn, TargetPolicy, AtActivation;
    BootstrapFits(world, j, hash);
    SourceAtomicity(world, j, BootstrapProgram(hash), fates, powerLoss, p, attempts, last);
    TargetAtomicity(world, j, BootstrapProgram(hash), fates, powerLoss, p, attempts, last);
  }

  /** A bootstrap journals no switch: it restores every key in every history exactly if none is off that recovery would turn on. */
  lemma BootstrapExposure(world: World, j: Journal, hash: string, p: Policy)
    requires BootstrapReady(world, j) && CanReload(world) && TwoValued([], world, TargetPolicy(p, j))
    ensures AlwaysAtomic(world, j, BootstrapProgram(hash), p) <==>
            forall subject :: Wanted(TargetPolicy(p, j), subject) ==> world[Switch(subject)] == On(subject)
  {
    hide Plan, WellPlanned, BootstrapProgram, BootstrapPart, AlwaysAtomic, TargetPolicy, SameSwitching, FinalScene, AtActivation, BehindActivation, Journaled, CanReload;
    var asked := TargetPolicy(p, j);
    BootstrapFits(world, j, hash);
    BootstrapKeepsSwitching(world, hash);
    SwitchesAlike(Scene([], world, false), SceneAfter(BootstrapPart(hash), world), world, asked);
    ExposureIsExact(BootstrapPart(hash), [], world, j, p);
    UnjournaledIsCovered(world, asked);
  }

  lemma BootstrapKeepsSwitching(world: World, hash: string)
    ensures SameSwitching(Scene([], world, false), SceneAfter(BootstrapPart(hash), world))
  {
    hide FinalScene, SameSwitching;
    PartKeepsSwitching(BootstrapPart(hash), Scene([], world, false));
  }

  lemma UnjournaledIsCovered(world: World, asked: (bool, bool))
    requires TwoValued([], world, asked)
    ensures Covered([], world, asked) <==> forall subject :: Wanted(asked, subject) ==> world[Switch(subject)] == On(subject)
  {
    assert forall subject :: !Journaled([], Switch(subject));
    assert forall subject :: Off(subject) != On(subject);
    forall subject | Wanted(asked, subject) ensures Exposed([], world, asked, subject) <==> world[Switch(subject)] != On(subject) {}
  }

  // ---- What stopping a systemd service journals ----

  const SWITCHES := {Enablement, Masking, Running}

  function SystemdStop(enabled: bool): seq<Instr> {
    (if enabled then [Do(ServiceAction(Disable, "enabled", "disabled"))] else [])
    + [Do(ServiceAction(Mask, "unmasked", "masked")), DoReload, Do(ServiceAction(Stop, "running", "stopped"))]
  }

  lemma ReachesSwitch(p: seq<Instr>, a: Action, mid: Scene, world: World, d: DataAction, subjects: set<Subject>, sturdy: bool)
    requires Reaches(p, world, d, mid, sturdy) && Intact(mid, world, subjects)
    requires SubjectOf(a.kind) in subjects && FirstChange(a, world, d) && Named(a) && a.oldState != a.newState
    ensures Reaches(p + [Do(a)], world, d, Performed(mid, a), sturdy)
    ensures Intact(Performed(mid, a), world, subjects - {SubjectOf(a.kind)})
  {
    hide Undoable, Reaches, Sturdy;
    FirstChangeFits(a, mid, world, d, subjects);
    FirstIsSturdy(a, mid, world, subjects);
    ReachesOne(p, Do(a), mid, world, d, sturdy);
  }

  /** A running, unmasked service, with its autostart link if it has one. */
  ghost predicate IsUp(world: World, linked: bool) {
    && Switch(Masking) in world && world[Switch(Masking)] == Text("unmasked")
    && Switch(Running) in world && world[Switch(Running)] == Text("running")
    && (linked ==> Switch(Enablement) in world && world[Switch(Enablement)] == Text("enabled"))
  }

  /** Stopping a running, unmasked systemd service with at most one autostart link fits. */
  lemma SystemdStopFits(world: World, enabled: bool, d: DataAction, sturdy: bool)
    requires IsUp(world, enabled) && (sturdy ==> CanReload(world))
    ensures StopsFit(SystemdStop(enabled), world, d, sturdy)
  {
    hide Intact, Reaches, FirstChange, SubjectOf, KeyOf, Performed, IsService, ReverseKind;
    StopActions(world, enabled, d);
    var disable := ServiceAction(Disable, "enabled", "disabled");
    var mask := ServiceAction(Mask, "unmasked", "masked");
    var stop := ServiceAction(Stop, "running", "stopped");
    NothingRun(world, d, sturdy);
    SwitchesIntact(world);
    var p, e := [], Scene([], world, false);
    if enabled {
      ReachesSwitch(p, disable, e, world, d, SWITCHES, sturdy);
      p, e := p + [Do(disable)], Performed(e, disable);
    } else {
      Narrower(e, world, SWITCHES, SWITCHES - {Enablement});
    }
    ReachesSwitch(p, mask, e, world, d, SWITCHES - {Enablement}, sturdy);
    var masked := Performed(e, mask);
    var rest := SWITCHES - {Enablement} - {Masking};
    IntactIsInactive(masked, world, rest);
    ReachesReload(p + [Do(mask)], masked, world, d, sturdy);
    OthersStayIntact(masked, ReloadAction(masked.world, Reload), world, rest);
    ReachesSwitch(p + [Do(mask)] + [DoReload], stop, After(DoReload, masked), world, d, rest, sturdy);
    assert p + [Do(mask)] + [DoReload] + [Do(stop)] == SystemdStop(enabled);
    ReachesStop(p + [Do(mask)] + [DoReload] + [Do(stop)], world, d, Performed(After(DoReload, masked), stop), sturdy);
  }

  lemma ReachesStop(p: seq<Instr>, world: World, d: DataAction, end: Scene, sturdy: bool)
    requires Reaches(p, world, d, end, sturdy) && ServiceHooks(p)
    ensures StopsFit(p, world, d, sturdy)
  {
  }

  lemma StopActions(world: World, enabled: bool, d: DataAction)
    requires IsUp(world, enabled)
    ensures ServiceHooks(SystemdStop(enabled)) && SubjectOf(Reload) == Reloads
    ensures SubjectOf(Disable) == Enablement && (enabled ==> FirstChange(ServiceAction(Disable, "enabled", "disabled"), world, d))
    ensures SubjectOf(Mask) == Masking && FirstChange(ServiceAction(Mask, "unmasked", "masked"), world, d)
    ensures SubjectOf(Stop) == Running && FirstChange(ServiceAction(Stop, "running", "stopped"), world, d)
  {
  }

  lemma SwitchesIntact(world: World)
    ensures Intact(Scene([], world, false), world, SWITCHES)
  {
  }

  /**
    An update of a running systemd service: whatever is cut and whatever power losses take back,
    a recovery that succeeds under source authority restores every key.
   */
  lemma UpdateRestoresAll(world: World, j: Journal, art: Artifacts, hash: string, linked: bool, publish: seq<Instr>,
                          fates: seq<Fate>, powerLoss: bool, p: Policy, attempts: seq<Attempt>, last: seq<Fate>)
    requires FreshJournal(j) && j.operation.Update? && (j.oldEnabled ==> linked) && IsUp(world, linked)
    requires Accurate(art, world, j.dataAction) && DefinitionHarmless(art, world) && ForwardHooks(publish)
    ensures Atomic(world, j, ApplyProgram(art, j.dataAction, hash, SystemdStop(linked), publish), fates, powerLoss, p, attempts, last)
  {
    hide ApplyProgram, AfterCrashes, RecoverOnce, AllBack, Accurate, WholeOrNothing, AllDone, ReloadedAfterActivation, KeepsActivation, SystemdStop, StopsFit;
    SystemdStopFits(world, linked, j.dataAction, false);
    UpIsCovered(world, j, linked, p, AtActivation(ApplyProgram(art, j.dataAction, hash, SystemdStop(linked), publish), Scene([], world, false)).actions);
    ApplyIsAtomic(world, j, art, hash, SystemdStop(linked), publish, fates, powerLoss, p, attempts, last);
  }

  lemma UpIsCovered(world: World, j: Journal, linked: bool, p: Policy, actions: seq<Action>)
    requires j.operation.Update? && (j.oldEnabled ==> linked) && IsUp(world, linked)
    ensures Covered(actions, world, TargetPolicy(p, j))
  {
  }
}
