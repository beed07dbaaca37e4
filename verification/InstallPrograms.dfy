/**
  The forward runs that produce journals: an install, a foreground bootstrap and a
  service lifecycle operation, written as programs of the engine, and the one commit
  point that they share.
 */
module InstallPrograms {
  import opened Options
  import opened InstallJournal
  import opened InstallEngine
  import opened InstallRollback
  import opened InstallRollforward
  import opened InstallAtomicity
  import opened InstallDiscipline

  /** The tokens of the prepared old and new files. */
  datatype Artifacts = Artifacts(
    dataNew: Token, managedOld: Token, managedNew: Token, pathOld: Token, pathNew: Token,
    channelOld: Token, channelNew: Token, definitionNew: Token)

  function FileAction(kind: Kind, role: Role, oldState: Token, newState: Token): Action {
    Action(0, kind, role, oldState, newState, "", "", Intent)
  }

  function ValidationBegins(hash: string): Action {
    Action(0, ValidationStart, ValidationRole, Text("idle"), Text("running"), "", hash, Intent)
  }

  function ValidationEnds(): Action {
    Action(0, ValidationStop, ValidationRole, Text("running"), Text("idle"), "", "", Intent)
  }

  const DATA_KEY := Key(Data, DataRole, "")
  const MANAGED_KEY := Key(Managed, ManagedBinaryRole, "")
  const PATH_KEY := Key(Path, PathBinaryRole, "")
  const CHANNEL_KEY := Key(ChannelFile, ChannelRole, "")
  const DEFINITION_KEY := Key(Unit, DefinitionRole, "")
  const VALIDATION_KEY := Key(Validation, ValidationRole, "")

  function DataPart(art: Artifacts, d: DataAction): seq<Instr> {
    [Enter(Stopped)]
    + (if d.CreateData? then [Change(FileAction(DataPublish, DataRole, ABSENT, art.dataNew))] else [])
    + [Enter(DataCommitted)]
  }

  function BinaryPart(art: Artifacts): seq<Instr> {
    [Change(FileAction(ManagedBinary, ManagedBinaryRole, art.managedOld, art.managedNew)),
     Change(FileAction(PathBinary, PathBinaryRole, art.pathOld, art.pathNew)),
     Change(FileAction(Channel, ChannelRole, art.channelOld, art.channelNew)),
     Enter(BinariesCommitted)]
  }

  function DefinitionPart(art: Artifacts): seq<Instr> {
    [Change(FileAction(Definition, DefinitionRole, ABSENT, art.definitionNew)),
     DoReload,
     Enter(DefinitionCommitted)]
  }

  function ValidationPart(hash: string): seq<Instr> { [Do(ValidationBegins(hash)), Do(ValidationEnds())] }

  /** Everything an install does before its activation. `stop` is what stopping the service journals. */
  function BeforeCommit(art: Artifacts, d: DataAction, hash: string, stop: seq<Instr>): seq<Instr> {
    stop + DataPart(art, d) + BinaryPart(art) + DefinitionPart(art) + ValidationPart(hash)
  }

  function ApplyProgram(art: Artifacts, d: DataAction, hash: string, stop: seq<Instr>, publish: seq<Instr>): seq<Instr> {
    BeforeCommit(art, d, hash, stop) + [DoActivate] + publish + [Enter(Complete)]
  }

  function BootstrapPart(hash: string): seq<Instr> {
    [Do(FileAction(DataPublish, DataRole, ABSENT, Text("created"))), Enter(DefinitionCommitted)] + ValidationPart(hash)
  }

  function BootstrapProgram(hash: string): seq<Instr> { BootstrapPart(hash) + [DoActivate] }

  function LifecycleProgram(stop: seq<Instr>, publish: seq<Instr>): seq<Instr> {
    stop + [DoActivate] + publish + [Enter(Complete)]
  }

  /** What journaling hooks can do: steps, steps that may change nothing, and reloads, never a phase. */
  predicate JournalHooks(hooks: seq<Instr>) {
    forall i :: 0 <= i < |hooks| ==> hooks[i].DoReload? || hooks[i].Do? || hooks[i].Change?
  }

  /** Hooks about the service switches alone. */
  predicate ServiceHooks(hooks: seq<Instr>) {
    forall i :: 0 <= i < |hooks| ==> hooks[i].DoReload? || (hooks[i].Do? && IsFinishing(hooks[i].action) && !hooks[i].action.kind.Activation?)
  }

  /** Hooks that go forwards: neither a reversal nor an activation. */
  predicate ForwardHooks(hooks: seq<Instr>) {
    forall i :: 0 <= i < |hooks| ==>
      hooks[i].DoReload? || ((hooks[i].Do? || hooks[i].Change?) && !IsReverse(hooks[i].action.kind) && !hooks[i].action.kind.Activation?)
  }

  // ---- Phases and authority ----

  /** Instructions that belong before the activation. */
  predicate Preparing(p: seq<Instr>) {
    forall i :: 0 <= i < |p| ==> !p[i].DoActivate? && (p[i].Enter? ==> Pending(p[i].phase))
  }

  /** Instructions that belong behind it. */
  predicate Completing(p: seq<Instr>) {
    forall i :: 0 <= i < |p| ==> !p[i].DoActivate? && (p[i].Enter? ==> p[i].phase.Complete?)
  }

  lemma {:induction false} CompletingIsPhased(q: seq<Instr>)
    requires Completing(q)
    ensures WellPhased(q, true)
    decreases |q|
  {
    if q != [] { CompletingIsPhased(q[1..]); }
  }

  lemma {:induction false} ActivationSplits(p: seq<Instr>, q: seq<Instr>)
    requires Preparing(p) && Completing(q)
    ensures WellPhased(p + [DoActivate] + q, false)
    decreases |p|
  {
    var whole := p + [DoActivate] + q;
    if p == [] {
      assert whole[1..] == q;
      CompletingIsPhased(q);
    } else {
      assert whole[0] == p[0] && whole[1..] == p[1..] + [DoActivate] + q;
      ActivationSplits(p[1..], q);
    }
  }

  /** All three producers of journals reach target authority by the activation alone, whatever their hooks journal. */
  lemma ProducersArePhased(art: Artifacts, d: DataAction, hash: string, stop: seq<Instr>, publish: seq<Instr>)
    requires JournalHooks(stop) && JournalHooks(publish)
    ensures WellPhased(ApplyProgram(art, d, hash, stop, publish), false)
    ensures WellPhased(BootstrapProgram(hash), false)
    ensures WellPhased(LifecycleProgram(stop, publish), false)
  {
    hide WellPhased;
    var tail := publish + [Enter(Complete)];
    ActivationSplits(BeforeCommit(art, d, hash, stop), tail);
    ActivationSplits(stop, tail);
    ActivationSplits(BootstrapPart(hash), []);
    assert BootstrapProgram(hash) == BootstrapPart(hash) + [DoActivate] + [];
    assert ApplyProgram(art, d, hash, stop, publish) == BeforeCommit(art, d, hash, stop) + [DoActivate] + tail;
    assert LifecycleProgram(stop, publish) == stop + [DoActivate] + tail;
  }

  /** Who writes journals, with what its hooks journal. */
  datatype Producer =
    | Installing(art: Artifacts, d: DataAction, hash: string, stop: seq<Instr>, publish: seq<Instr>)
    | Bootstrapping(hash: string)
    | Managing(stop: seq<Instr>, publish: seq<Instr>)

  function ProgramOf(r: Producer): seq<Instr> {
    match r
    case Installing(art, d, hash, stop, publish) => ApplyProgram(art, d, hash, stop, publish)
    case Bootstrapping(hash) => BootstrapProgram(hash)
    case Managing(stop, publish) => LifecycleProgram(stop, publish)
  }

  predicate HooksJournal(r: Producer) {
    match r
    case Installing(_, _, _, stop, publish) => JournalHooks(stop) && JournalHooks(publish)
    case Bootstrapping(_) => true
    case Managing(stop, publish) => JournalHooks(stop) && JournalHooks(publish)
  }

  lemma ProducerIsPhased(r: Producer)
    requires HooksJournal(r)
    ensures WellPhased(ProgramOf(r), false)
  {
    hide WellPhased;
    var none := Artifacts(ABSENT, ABSENT, ABSENT, ABSENT, ABSENT, ABSENT, ABSENT, ABSENT);
    match r
    case Installing(art, d, hash, stop, publish) => ProducersArePhased(art, d, hash, stop, publish);
    case Bootstrapping(hash) => ProducersArePhased(none, CreateData, hash, [], []);
    case Managing(stop, publish) => ProducersArePhased(none, CreateData, "", stop, publish);
  }

  /**
    Single commit point of every producer, over every cut history: each effect is
    announced, each document follows the one before, the startup gate opens exactly for
    documents under target authority, and a synced one of those is never taken back.
   */
  lemma SingleCommitPoint(world: World, j: Journal, producer: Producer, fates: seq<Fate>, powerLoss: bool,
                          p: Policy, attempts: seq<Attempt>, i: nat, k: nat, layout: string)
    requires FreshJournal(j) && HooksJournal(producer)
    requires i <= k < |AfterCrashes(world, j, ProgramOf(producer), fates, powerLoss, p, attempts).log|
    ensures var log := AfterCrashes(world, j, ProgramOf(producer), fates, powerLoss, p, attempts).log;
            && FitsLog(log[..k], log[k])
            && (log[k].Published? ==>
                  && (PassesStartupGate(log[k].journal, layout) <==> log[k].journal.authority.Target? && log[k].journal.layout == layout)
                  && (Pending(log[k].journal.phase) ==> log[k].journal.authority.Source?))
            && (log[i].Published? && log[i].durable && log[i].journal.authority.Target? && !log[k].Effect? ==>
                  log[k].journal.authority.Target?)
  {
    hide AfterCrashes, WellPhased, Disciplined, FitsLog, ProgramOf;
    ProducerIsPhased(producer);
    WriteAhead(world, j, ProgramOf(producer), fates, powerLoss, p, attempts);
    var log := AfterCrashes(world, j, ProgramOf(producer), fates, powerLoss, p, attempts).log;
    EventFits(log, k);
    if log[k].Published? { GateFollowsAuthority(log, k, layout); }
    if log[i].Published? && log[i].durable && log[i].journal.authority.Target? { CommitIsFinal(log, i, k); }
  }
}
