/**
  The install journal: action kinds, the document itself, the checks every
  stored document passes and the classification of an observed token.
 */
module InstallJournal {
  import opened Options

  datatype Kind =
    | Mask | Unmask | Disable | Enable | Stop | Start
    | DataPublish | DataIsolate
    | ManagedBinary | PathBinary | Channel | Definition | Dropin | Disabled
    | Reload | ValidationStart | ValidationStop | Activation
    | RestoreMask | RestoreUnmask | RestoreDisable | RestoreEnable | RestoreStop | RestoreStart
    | RestoreData | RestoreManagedBinary | RestorePathBinary | RestoreChannel
    | RestoreDefinition | RestoreDropin | RestoreDisabled | RestoreReload | RestoreValidation

  datatype Role =
    | SourceRole | TargetRole | DataRole | InstallRole | EndpointRole | CredentialRole | ChannelRole
    | ManagedBinaryRole | PathBinaryRole | DefinitionRole | DropinRole | ValidationRole | ActivationRole

  /** A state token. Reload tokens carry the number of reloads seen so far. */
  datatype Token = Text(text: string) | ReloadAt(count: nat)

  const ABSENT := Text("absent")

  datatype Status = Intent | Done

  datatype Action = Action(
    seqNo: nat, kind: Kind, role: Role, oldState: Token, newState: Token,
    backup: string, candidate: string, status: Status)

  datatype Phase =
    | Prepared | Stopped | DataCommitted | BinariesCommitted | DefinitionCommitted
    | ActivationCommitted | Complete

  datatype Authority = Source | Target

  datatype Operation = Install | Reinstall | Update | Recover

  datatype DataAction = CreateData | RetainData

  /** The paths, hashes and identities that no run changes are folded into `layout`. */
  datatype Journal = Journal(
    id: string, operation: Operation, layout: string, dataAction: DataAction,
    oldRunning: bool, oldEnabled: bool,
    phase: Phase, authority: Authority, actions: seq<Action>)

  /** What an action is about, whichever direction it works in. */
  datatype Subject =
    | Masking | Enablement | Running | Reloads | Data | Managed | Path | ChannelFile | Unit
    | DropinFile | DisabledMark | Validation | Authorisation

  function SubjectOf(kind: Kind): Subject {
    match kind
    case Mask | Unmask | RestoreMask | RestoreUnmask => Masking
    case Disable | Enable | RestoreDisable | RestoreEnable => Enablement
    case Stop | Start | RestoreStop | RestoreStart => Running
    case Reload | RestoreReload => Reloads
    case DataPublish | DataIsolate | RestoreData => Data
    case ManagedBinary | RestoreManagedBinary => Managed
    case PathBinary | RestorePathBinary => Path
    case Channel | RestoreChannel => ChannelFile
    case Definition | RestoreDefinition => Unit
    case Dropin | RestoreDropin => DropinFile
    case Disabled | RestoreDisabled => DisabledMark
    case ValidationStart | ValidationStop | RestoreValidation => Validation
    case Activation => Authorisation
  }

  /** The place in the world that an action observes and changes. */
  datatype Key = Key(subject: Subject, role: Role, ref: string)

  function KeyOf(a: Action): Key {
    var subject := SubjectOf(a.kind);
    Key(subject, a.role, if subject.Data? || subject.DropinFile? then a.candidate else "")
  }

  const RELOAD_KEY := Key(Reloads, DefinitionRole, "")

  function ReverseKind(kind: Kind): Option<Kind> {
    match kind
    case Mask => Some(RestoreMask)
    case Unmask => Some(RestoreUnmask)
    case Disable => Some(RestoreDisable)
    case Enable => Some(RestoreEnable)
    case Stop => Some(RestoreStop)
    case Start => Some(RestoreStart)
    case Reload => Some(RestoreReload)
    case DataPublish => Some(DataIsolate)
    case ManagedBinary => Some(RestoreManagedBinary)
    case PathBinary => Some(RestorePathBinary)
    case Channel => Some(RestoreChannel)
    case Definition => Some(RestoreDefinition)
    case Dropin => Some(RestoreDropin)
    case Disabled => Some(RestoreDisabled)
    case ValidationStart => Some(RestoreValidation)
    case _ => None
  }

  predicate IsReverse(kind: Kind) {
    match kind
    case RestoreMask | RestoreUnmask | RestoreDisable | RestoreEnable | RestoreStop | RestoreStart
       | RestoreData | DataIsolate | RestoreManagedBinary | RestorePathBinary | RestoreChannel
       | RestoreDefinition | RestoreDropin | RestoreDisabled | RestoreReload | RestoreValidation => true
    case _ => false
  }

  predicate ValidAction(a: Action) {
    a.seqNo >= 1 && a.oldState != Text("") && a.newState != Text("") && a.oldState != a.newState
  }

  predicate ValidJournal(j: Journal) {
    forall i :: 0 <= i < |j.actions| ==> j.actions[i].seqNo == i + 1 && ValidAction(j.actions[i])
  }

  datatype Progress = NotStarted | Started

  /** Reload tokens only ever move on, so anything but the old token counts as started. */
  function Classify(a: Action, actual: Token): Option<Progress> {
    if SubjectOf(a.kind).Reloads? then
      Some(if actual == a.oldState then NotStarted else Started)
    else if actual == a.oldState then Some(NotStarted)
    else if actual == a.newState then Some(Started)
    else None
  }

  predicate Pending(phase: Phase) {
    phase.Prepared? || phase.Stopped? || phase.DataCommitted? || phase.BinariesCommitted?
    || phase.DefinitionCommitted?
  }

  /** The daemon's own gate: it starts only behind an activated journal of its layout. */
  predicate PassesStartupGate(j: Journal, layout: string) {
    && !Pending(j.phase)
    && j.authority.Target?
    && (j.phase.ActivationCommitted? || j.phase.Complete?)
    && j.layout == layout
  }

  /** The two directions that tie the phase to the recovery authority. */
  predicate PhaseMatchesAuthority(j: Journal) {
    && (j.phase.ActivationCommitted? ==> j.authority.Target?)
    && (j.authority.Target? ==> j.phase.ActivationCommitted? || j.phase.Complete?)
  }

  /** `later` is `earlier` with intents turned into done and actions appended. */
  predicate Extends(earlier: seq<Action>, later: seq<Action>) {
    && |earlier| <= |later|
    && forall i :: 0 <= i < |earlier| ==> AdvancesTo(earlier[i], later[i])
  }

  predicate AdvancesTo(a: Action, b: Action) {
    b == a || (a.status.Intent? && b == a.(status := Done))
  }

  /** The kind that a reversal undoes. */
  function ForwardKind(kind: Kind): Kind {
    match kind
    case RestoreMask => Mask
    case RestoreUnmask => Unmask
    case RestoreDisable => Disable
    case RestoreEnable => Enable
    case RestoreStop => Stop
    case RestoreStart => Start
    case RestoreReload => Reload
    case DataIsolate => DataPublish
    case RestoreManagedBinary => ManagedBinary
    case RestorePathBinary => PathBinary
    case RestoreChannel => Channel
    case RestoreDefinition => Definition
    case RestoreDropin => Dropin
    case RestoreDisabled => Disabled
    case RestoreValidation => ValidationStart
    case _ => kind
  }

  /** Reversal is injective on kinds, keeps the subject and never meets its own inputs. */
  lemma ReverseKindsPairUp(k: Kind)
    requires ReverseKind(k).Some?
    ensures IsReverse(ReverseKind(k).value) && !IsReverse(k)
    ensures SubjectOf(ReverseKind(k).value) == SubjectOf(k)
    ensures ForwardKind(ReverseKind(k).value) == k
  {
  }

  lemma ExtendsTransitive(a: seq<Action>, b: seq<Action>, c: seq<Action>)
    requires Extends(a, b) && Extends(b, c)
    ensures Extends(a, c)
  {
    forall i | 0 <= i < |a| ensures AdvancesTo(a[i], c[i]) {
      assert AdvancesTo(a[i], b[i]) && AdvancesTo(b[i], c[i]);
    }
  }
}
