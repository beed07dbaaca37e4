/**
  The validation child: what it checks before it touches data, what the installer
  checks before it believes the child, and the launch record that recovery reads.
 */
module ValidationHandshake {
  import opened Options
  import opened InstallJournal

  /** A process start; the kernel never gives the same one twice. */
  datatype Process = Process(pid: nat, startUnix: nat, startUsec: nat, boot: string)

  const NOBODY := Process(0, 0, 0, "")

  predicate ValidStart(p: Process) { p.pid > 0 && p.boot != "" && p.startUnix > 0 }

  predicate SameStart(recorded: Process, live: Process) {
    && recorded.pid > 0 && recorded.boot != "" && live.boot != ""
    && recorded.boot == live.boot
    && recorded.pid == live.pid && recorded.startUnix == live.startUnix && recorded.startUsec == live.startUsec
  }

  /** Digests are taken to be injective. */
  function HashOf(nonce: string): string { "#" + nonce }

  predicate ValidHash(hash: string) { |hash| > 0 && hash[0] == '#' }

  /** The journal as the child sees it. */
  datatype View = View(tx: string, phase: Phase, candidate: string, layout: string, actions: seq<Action>)

  datatype Launch = Launch(tx: string, nonceHash: string, parent: Process, child: Process, binary: string, layout: string)

  datatype Frame = Frame(nonce: string, nonceHash: string, tx: string, candidate: string, parent: Process, layout: string)

  datatype Ready = Ready(tx: string, daemon: Process, binary: string, layout: string, ok: bool)

  /** The hash of the validation that was started and not stopped, or "". */
  function PendingNonce(actions: seq<Action>): string {
    if actions == [] then ""
    else
      var last := actions[|actions| - 1];
      if last.kind.ValidationStart? then last.candidate
      else if last.kind.ValidationStop? then ""
      else PendingNonce(actions[..|actions| - 1])
  }

  /** The scan the child makes over the recorded actions. */
  method ScanNonce(actions: seq<Action>) returns (nonceHash: string)
    ensures nonceHash == PendingNonce(actions)
  {
    nonceHash := "";
    for i := 0 to |actions|
      invariant nonceHash == PendingNonce(actions[..i])
    {
      if actions[i].kind.ValidationStart? { nonceHash := actions[i].candidate; }
      if actions[i].kind.ValidationStop? { nonceHash := ""; }
      assert actions[..i + 1][..i] == actions[..i];
    }
    assert actions[..|actions|] == actions;
  }

  predicate LaunchLoads(l: Launch, j: View) {
    l.tx == j.tx && l.binary == j.candidate && l.layout == j.layout && ValidHash(l.nonceHash) && ValidStart(l.parent)
  }

  /** What the child was told by the kernel, never by its caller. */
  datatype Native = Native(tx: string, parent: Process, binary: string, layout: string)

  predicate JournalAdmits(n: Native, self: Process, j: View) {
    && j.tx == n.tx && j.phase.DefinitionCommitted? && n.binary == j.candidate && n.layout == j.layout
    && ValidStart(self) && ValidStart(n.parent) && ValidHash(PendingNonce(j.actions))
  }

  predicate LaunchAdmits(n: Native, self: Process, j: View, l: Launch) {
    && LaunchLoads(l, j) && l.nonceHash == PendingNonce(j.actions)
    && SameStart(l.parent, n.parent) && SameStart(l.child, self)
  }

  predicate FrameAdmits(n: Native, j: View, f: Frame) {
    && HashOf(f.nonce) == PendingNonce(j.actions) && f.nonceHash == PendingNonce(j.actions)
    && f.tx == j.tx && f.candidate == j.candidate && f.parent == n.parent
    && (j.layout != "" ==> f.layout == j.layout)
  }

  /** A ready document authorises activation only if it is about this transaction. */
  predicate ReadyMatches(j: View, r: Ready) {
    r.tx == j.tx && r.binary == j.candidate && r.layout == j.layout && r.daemon.pid > 0 && r.daemon.boot != "" && r.ok
  }

  // ---- The system ----

  datatype ChildStage =
    | Waiting
    | Received(frame: Frame)
    | Loaded(frame: Frame, journal: View)
    | InRun(journal: View)
    | Exited(clean: bool)

  /** `admitted` is the frame on which the child entered its run. */
  datatype Child = Child(native: Native, stage: ChildStage, inbox: Option<Frame>, ran: bool, admitted: Option<Frame>)

  /** Where the holder of the install lock is. `Failing` runs the deferred stop. */
  datatype Stage =
    | Recovering | Rolling | Settled
    | Preparing | Intended | Launched
    | Spawned(child: Process) | Named(child: Process) | Framed(child: Process)
    | Matched(child: Process) | Reaped(child: Process) | Finished(child: Process)
    | Committed | Failing(child: Process)

  datatype Owner = Owner(self: Process, stage: Stage, nonce: string)

  /**
    Processes and stored documents. `processes` and `transactions` hold every identity
    ever used; `emptyReads`, `activations` and `told` record what owners decided and what
    they sent to whom. `nonces` were drawn by installers, `guesses` by anybody else.
   */
  datatype System = System(
    journal: Option<View>, launches: map<string, Launch>, readies: map<string, Ready>,
    owner: Option<Owner>, children: map<Process, Child>,
    processes: set<Process>, transactions: set<string>,
    emptyReads: set<string>, activations: map<string, View>,
    told: set<(Process, Frame)>, nonces: set<string>, guesses: set<string>)

  datatype Label =
    | TakeLock(self: Process) | Unlock | Crash
    | Recover | RecordRestore | FinishRecovery
    | Begin(tx: string, candidate: string, layout: string) | Prepare(phase: Phase)
    | Intend(nonce: string, saved: bool) | SaveLaunch(published: bool, saved: bool)
    | Spawn(child: Process, native: Native) | SaveName(published: bool, saved: bool) | Send
    | Match | Reap(clean: bool) | RecordStop | Activate
    | Fail | CleanUp
    | Receive(who: Process) | LoadJournal(who: Process) | Enter(who: Process)
    | Publish(who: Process, ok: bool) | Exit(who: Process, clean: bool) | Forge(who: Process, frame: Frame)

  function StageChild(stage: Stage): Process {
    match stage
    case Spawned(x) => x
    case Named(x) => x
    case Framed(x) => x
    case Matched(x) => x
    case Reaped(x) => x
    case Finished(x) => x
    case Failing(x) => x
    case _ => NOBODY
  }

  function At(s: System, stage: Stage): System
    requires s.owner.Some?
  {
    s.(owner := Some(s.owner.value.(stage := stage)))
  }

  function LaunchOf(o: Owner, j: View, child: Process): Launch {
    Launch(j.tx, HashOf(o.nonce), o.self, child, j.candidate, j.layout)
  }

  function FrameOf(o: Owner, j: View): Frame {
    Frame(o.nonce, HashOf(o.nonce), j.tx, j.candidate, o.self, j.layout)
  }

  function ValidationAction(kind: Kind, n: nat, hash: string, status: Status): Action {
    var (oldState, newState) := if kind.ValidationStart? then ("idle", "running") else ("running", "idle");
    Action(n, kind, ValidationRole, Text(oldState), Text(newState), "", hash, status)
  }

  function Kill(s: System, x: Process, clean: bool): System {
    if x in s.children && !s.children[x].stage.Exited? then
      s.(children := s.children[x := s.children[x].(stage := Exited(clean))])
    else s
  }

  /** Whether the last action of a kind is done. */
  predicate HasDone(actions: seq<Action>, kind: Kind) {
    && actions != []
    && var last := actions[|actions| - 1];
       if last.kind == kind then last.status.Done? else HasDone(actions[..|actions| - 1], kind)
  }

  /** The stop was recorded as done, by the installer or by an earlier recovery. */
  predicate ValidationOver(j: View) { HasDone(j.actions, ValidationStop) || HasDone(j.actions, RestoreValidation) }

  /** What recovery does about a validation before it touches anything else. */
  function RecoverValidation(s: System): Option<System>
    requires s.owner.Some?
  {
    if s.journal.None? then Some(At(s, Settled))
    else
      var j := s.journal.value;
      if ValidationOver(j) || j.tx !in s.launches then Some(At(s, Rolling))
      else
        var l := s.launches[j.tx];
        if !LaunchLoads(l, j) then None
        else if l.child == NOBODY then Some(At(s.(emptyReads := s.emptyReads + {j.tx}), Rolling))
        else if !ValidStart(l.child) then None
        else Some(At(Kill(s, l.child, false), Rolling))
  }

  /** One step of one process; `None` if the step is not possible there. */
  function Next(s: System, l: Label): Option<System> {
    match l
    case TakeLock(_) | Unlock | Crash | Recover | RecordRestore | FinishRecovery | Begin(_, _, _) | Prepare(_) => NextLock(s, l)
    case Receive(_) | LoadJournal(_) | Enter(_) | Publish(_, _) | Exit(_, _) | Forge(_, _) => NextChild(s, l)
    case _ => NextInstaller(s, l)
  }

  function NextLock(s: System, l: Label): Option<System> {
    if l.TakeLock? then
      if s.owner.Some? || l.self in s.processes || !ValidStart(l.self) then None
      else Some(s.(owner := Some(Owner(l.self, Recovering, "")), processes := s.processes + {l.self}))
    else if s.owner.None? then None
    else
      var stage := s.owner.value.stage;
      match l
      case Unlock => if stage.Settled? || stage.Committed? then Some(s.(owner := None)) else None
      case Crash => Some(s.(owner := None))
      case Recover => if stage.Recovering? then RecoverValidation(s) else None
      case RecordRestore =>
        if !stage.Rolling? || s.journal.None? then None
        else
          var j := s.journal.value;
          var restore := ValidationAction(RestoreValidation, |j.actions| + 1, PendingNonce(j.actions), Done);
          Some(s.(journal := Some(j.(actions := j.actions + [restore]))))
      case FinishRecovery =>
        if !stage.Rolling? || s.journal.None? then None
        else Some(At(s.(journal := Some(s.journal.value.(phase := Complete))), Settled))
      case Begin(tx, candidate, layout) =>
        if !stage.Settled? || tx in s.transactions then None
        else Some(At(s.(journal := Some(View(tx, Prepared, candidate, layout, [])), transactions := s.transactions + {tx}), Preparing))
      case Prepare(phase) =>
        if !stage.Preparing? || s.journal.None? || !Pending(phase) then None
        else Some(s.(journal := Some(s.journal.value.(phase := phase))))
      case _ => None
  }

  function NextInstaller(s: System, l: Label): Option<System> {
    if s.owner.None? || s.journal.None? then None
    else
      var o := s.owner.value;
      var j := s.journal.value;
      match l
      case Intend(nonce, saved) =>
        if !o.stage.Preparing? || !j.phase.DefinitionCommitted? || nonce in s.nonces || nonce in s.guesses then None
        else
          var intent := ValidationAction(ValidationStart, |j.actions| + 1, HashOf(nonce), Status.Intent);
          var s' := s.(journal := Some(j.(actions := j.actions + [intent])), nonces := s.nonces + {nonce});
          Some(s'.(owner := Some(o.(nonce := nonce, stage := if saved then Intended else Failing(NOBODY)))))
      case SaveLaunch(published, saved) =>
        if !o.stage.Intended? || (saved && !published) then None
        else
          var s' := if published then s.(launches := s.launches[j.tx := LaunchOf(o, j, NOBODY)]) else s;
          Some(At(s', if saved then Launched else Failing(NOBODY)))
      case Spawn(x, native) =>
        if !o.stage.Launched? || x in s.processes || !ValidStart(x) || native.tx != j.tx || native.parent != o.self then None
        else Some(At(s.(children := s.children[x := Child(native, Waiting, None, false, None)], processes := s.processes + {x}), Spawned(x)))
      case SaveName(published, saved) =>
        if !o.stage.Spawned? || (saved && !published) then None
        else
          var x := o.stage.child;
          var s' := if published then s.(launches := s.launches[j.tx := LaunchOf(o, j, x)]) else s;
          Some(At(s', if saved then Named(x) else Failing(x)))
      case Send =>
        if !o.stage.Named? || o.stage.child !in s.children then None
        else
          var x := o.stage.child;
          Some(At(s.(children := s.children[x := s.children[x].(inbox := Some(FrameOf(o, j)))], told := s.told + {(x, FrameOf(o, j))}), Framed(x)))
      case Match =>
        if !o.stage.Framed? || j.tx !in s.readies then None
        else if !ReadyMatches(j, s.readies[j.tx]) || !SameStart(o.stage.child, s.readies[j.tx].daemon) then None
        else Some(At(s, Matched(o.stage.child)))
      case Reap(clean) =>
        if !o.stage.Matched? || o.stage.child !in s.children then None
        else
          var s' := Kill(s, o.stage.child, clean);
          Some(At(s', if s'.children[o.stage.child].stage == Exited(true) then Reaped(o.stage.child) else Failing(o.stage.child)))
      case RecordStop =>
        if !o.stage.Reaped? then None
        else
          var stop := ValidationAction(ValidationStop, |j.actions| + 1, "", Done);
          Some(At(s.(journal := Some(j.(actions := j.actions + [stop]))), Finished(o.stage.child)))
      case Activate =>
        if !o.stage.Finished? then None
        else
          Some(At(s.(journal := Some(j.(phase := ActivationCommitted)), activations := s.activations[j.tx := j]), Committed))
      case Fail =>
        if o.stage.Recovering? || o.stage.Rolling? || o.stage.Settled? || o.stage.Failing? then None
        else Some(At(s, Failing(StageChild(o.stage))))
      case CleanUp =>
        if !o.stage.Failing? then None
        else Some(Kill(s, o.stage.child, false).(owner := None))
      case _ => None
  }

  function NextChild(s: System, l: Label): Option<System>
    requires l.Receive? || l.LoadJournal? || l.Enter? || l.Publish? || l.Exit? || l.Forge?
  {
    if l.who !in s.children then None
    else
      var x := l.who;
      var c := s.children[x];
      match l
      case Receive(_) =>
        if !c.stage.Waiting? || c.inbox.None? then None
        else Some(s.(children := s.children[x := c.(stage := Received(c.inbox.value))]))
      case LoadJournal(_) =>
        if !c.stage.Received? then None
        else if s.journal.None? || !JournalAdmits(c.native, x, s.journal.value) then Some(Kill(s, x, false))
        else Some(s.(children := s.children[x := c.(stage := Loaded(c.stage.frame, s.journal.value))]))
      case Enter(_) =>
        if !c.stage.Loaded? then None
        else
          var j := c.stage.journal;
          if j.tx !in s.launches || !LaunchAdmits(c.native, x, j, s.launches[j.tx]) || !FrameAdmits(c.native, j, c.stage.frame)
          then Some(Kill(s, x, false))
          else Some(s.(children := s.children[x := c.(stage := InRun(j), ran := true, admitted := Some(c.stage.frame))]))
      case Publish(_, ok) =>
        if !c.stage.InRun? || c.stage.journal.tx in s.readies then None
        else
          var j := c.stage.journal;
          Some(s.(readies := s.readies[j.tx := Ready(j.tx, x, j.candidate, j.layout, ok)]))
      case Exit(_, clean) => if c.stage.Exited? then None else Some(Kill(s, x, clean))
      case Forge(_, frame) =>
        if frame.nonce in s.nonces then None
        else Some(s.(children := s.children[x := c.(inbox := Some(frame))], guesses := s.guesses + {frame.nonce}))
  }

  function Initial(): System { System(None, map[], map[], None, map[], {}, {}, {}, map[], {}, {}, {}) }

  /** The system after any sequence of steps; impossible ones change nothing. */
  function After(labels: seq<Label>): System {
    if labels == [] then Initial()
    else
      var s := After(labels[..|labels| - 1]);
      match Next(s, labels[|labels| - 1])
      case None => s
      case Some(s') => s'
  }
}
