/**
  The write-ahead engine as functions on values: the journal store, one journaled
  step, a whole forward program, and recovery in both directions.

  Every write and every external effect consumes one `Fate`, so a list of fates
  names one way in which a run can be cut. A run whose list is used up meets no
  further failure.
 */
module InstallEngine {
  import opened Options
  import opened InstallJournal

  type World = map<Key, Token>

  /**
    What happens to one write or effect. `HalfDone` happens but reports an error:
    a publication whose parent sync failed, or an effect that failed afterwards.
   */
  datatype Fate = Proceed | Refuse | HalfDone

  /** What an observer of the store and of the world sees. */
  datatype Event =
    | Published(journal: Journal, durable: bool)
    | Effect(action: Action)
    | Reverted(journal: Journal)

  /** `visible` is the published document, `durable` the last one whose parent was synced. */
  datatype Machine = Machine(
    world: World, visible: Journal, durable: Journal, fates: seq<Fate>, log: seq<Event>)

  /** A machine together with the caller's in-memory journal and its success. */
  datatype Run = Run(m: Machine, j: Journal, ok: bool)

  function FateOf(m: Machine): Fate { if m.fates == [] then Proceed else m.fates[0] }

  function Consume(m: Machine): Machine { if m.fates == [] then m else m.(fates := m.fates[1..]) }

  // ---- The journal store ----

  function Save(m: Machine, next: Journal): Run {
    if !ValidJournal(next) then Run(m, next, false)
    else
      var m' := Consume(m);
      match FateOf(m)
      case Proceed => Run(m'.(visible := next, durable := next, log := m.log + [Published(next, true)]), next, true)
      case Refuse => Run(m', next, false)
      case HalfDone => Run(m'.(visible := next, log := m.log + [Published(next, false)]), next, false)
  }

  function RecordIntent(m: Machine, j: Journal, a: Action): Run {
    var a' := a.(seqNo := |j.actions| + 1, status := Intent);
    if !ValidAction(a') then Run(m, j, false)
    else Save(m, j.(actions := j.actions + [a']))
  }

  predicate SameRecord(existing: Action, a: Action) {
    existing.seqNo == a.seqNo && existing.kind == a.kind && existing.role == a.role
  }

  /** The first recorded action with the sequence number, kind and role of `a`, or the length. */
  function FindRecord(actions: seq<Action>, a: Action, from: nat := 0): (r: nat)
    requires from <= |actions|
    ensures from <= r <= |actions|
    ensures r < |actions| ==> SameRecord(actions[r], a)
    ensures forall i :: from <= i < r ==> !SameRecord(actions[i], a)
    decreases |actions| - from
  {
    if from == |actions| || SameRecord(actions[from], a) then from
    else FindRecord(actions, a, from + 1)
  }

  function FillFrom(a: Action, existing: Action): Action {
    a.(oldState := if a.oldState == Text("") then existing.oldState else a.oldState,
       newState := if a.newState == Text("") then existing.newState else a.newState,
       backup := if a.backup == "" then existing.backup else a.backup,
       candidate := if a.candidate == "" then existing.candidate else a.candidate)
  }

  function RecordDone(m: Machine, j: Journal, a: Action): Run {
    var i := FindRecord(j.actions, a);
    if i == |j.actions| || j.actions[i].status.Done? then Run(m, j, false)
    else
      var a' := FillFrom(a, j.actions[i]);
      if !ValidAction(a') then Run(m, j, false)
      else Save(m, j.(actions := j.actions[i := a']))
  }

  // ---- Effects ----

  function AuthorityToken(a: Authority): Token { if a.Source? then Text("source") else Text("target") }

  /** Activation is observed in the journal itself, everything else in the world. */
  function Observe(m: Machine, j: Journal, a: Action): Option<Token> {
    if a.kind.Activation? then Some(AuthorityToken(j.authority))
    else if KeyOf(a) in m.world then Some(m.world[KeyOf(a)]) else None
  }

  /** Moves the key of `a` from its old to its new token; refuses any third token. */
  function Apply(m: Machine, a: Action): (Machine, bool) {
    var m' := Consume(m);
    if FateOf(m).Refuse? then (m', false)
    else if a.kind.Activation? then (m'.(log := m.log + [Effect(a)]), FateOf(m).Proceed?)
    else if KeyOf(a) !in m.world then (m', false)
    else if m.world[KeyOf(a)] != a.oldState && m.world[KeyOf(a)] != a.newState then (m', false)
    else (m'.(world := m.world[KeyOf(a) := a.newState], log := m.log + [Effect(a)]), FateOf(m).Proceed?)
  }

  function CurrentReload(world: World): nat {
    if RELOAD_KEY in world && world[RELOAD_KEY].ReloadAt? then world[RELOAD_KEY].count else 0
  }

  function ReloadAction(world: World, kind: Kind): Action {
    var n := CurrentReload(world);
    Action(0, kind, DefinitionRole, ReloadAt(n), ReloadAt(n + 1), "", "", Intent)
  }

  // ---- The forward run ----

  /** Marks the last recorded action done. */
  function FinishLast(m: Machine, j: Journal): Run {
    if j.actions == [] then Run(m, j, false)
    else RecordDone(m, j, j.actions[|j.actions| - 1].(status := Done))
  }

  function Step(m: Machine, j: Journal, a: Action): Run {
    var r := RecordIntent(m, j, a);
    if !r.ok then r
    else
      var (m', ok) := Apply(r.m, r.j.actions[|r.j.actions| - 1]);
      if !ok then Run(m', r.j, false) else FinishLast(m', r.j)
  }

  function ActivationAction(): Action {
    Action(0, Activation, ActivationRole, AuthorityToken(Source), AuthorityToken(Target), "", "", Intent)
  }

  /** The one write that moves the recovery authority. */
  function Activate(m: Machine, j: Journal): Run {
    var r := RecordIntent(m, j, ActivationAction());
    if !r.ok then r
    else
      var s := Save(r.m, r.j.(authority := Target, phase := ActivationCommitted));
      if !s.ok then s
      else
        var (m', ok) := Apply(s.m, s.j.actions[|s.j.actions| - 1]);
        if !ok then Run(m', s.j, false) else FinishLast(m', s.j)
  }

  function SetPhase(m: Machine, j: Journal, phase: Phase): Run { Save(m, j.(phase := phase)) }

  function ReloadStep(m: Machine, j: Journal): Run { Step(m, j, ReloadAction(m.world, Reload)) }

  /** The instructions a forward run is made of. `Change` skips an action that changes nothing. */
  datatype Instr = Enter(phase: Phase) | Do(action: Action) | Change(action: Action) | DoReload | DoActivate

  function Execute(m: Machine, j: Journal, i: Instr): Run {
    match i
    case Enter(phase) => SetPhase(m, j, phase)
    case Do(a) => Step(m, j, a)
    case Change(a) => if a.oldState == a.newState then Run(m, j, true) else Step(m, j, a)
    case DoReload => ReloadStep(m, j)
    case DoActivate => Activate(m, j)
  }

  function RunProgram(m: Machine, j: Journal, program: seq<Instr>): Run
    decreases |program|
  {
    if program == [] then Run(m, j, true)
    else
      var r := Execute(m, j, program[0]);
      if !r.ok then r else RunProgram(r.m, r.j, program[1..])
  }

  /** The state right after the fresh journal of a transaction became durable. */
  function Begin(world: World, j: Journal, fates: seq<Fate>): Machine {
    Machine(world, j, j, fates, [Published(j, true)])
  }

  // ---- Recovery ----

  function FindSeq(actions: seq<Action>, n: nat, from: nat := 0): (r: nat)
    requires from <= |actions|
    ensures from <= r <= |actions|
    ensures r < |actions| ==> actions[r].seqNo == n
    ensures forall i :: from <= i < r ==> actions[i].seqNo != n
    decreases |actions| - from
  {
    if from == |actions| || actions[from].seqNo == n then from else FindSeq(actions, n, from + 1)
  }

  function FinishAction(m: Machine, j: Journal, a: Action): Run {
    var i := FindSeq(j.actions, a.seqNo);
    if i == |j.actions| || j.actions[i].status.Done? then Run(m, j, true)
    else
      var current := j.actions[i];
      match Observe(m, j, current)
      case None => Run(m, j, false)
      case Some(actual) =>
        match Classify(current, actual)
        case None => Run(m, j, false)
        case Some(Started) => RecordDone(m, j, current.(status := Done))
        case Some(NotStarted) =>
          var (m', ok) := Apply(m, current);
          if !ok then Run(m', j, false) else RecordDone(m', j, current.(status := Done))
  }

  predicate Undone(later: Action, forward: Action) {
    && ReverseKind(forward.kind).Some?
    && later.seqNo > forward.seqNo
    && later.kind == ReverseKind(forward.kind).value
    && later.role == forward.role && later.backup == forward.backup && later.candidate == forward.candidate
  }

  predicate AlreadyReversed(actions: seq<Action>, forward: Action) {
    exists t :: 0 <= t < |actions| && Undone(actions[t], forward)
  }

  function ReverseAction(forward: Action, kind: Kind, oldState: Token, newState: Token): Action {
    Action(0, kind, forward.role, oldState, newState, forward.backup, forward.candidate, Intent)
  }

  function Reverse(m: Machine, j: Journal, forward: Action): Run {
    match ReverseKind(forward.kind)
    case None => Run(m, j, true)
    case Some(kind) =>
      if forward.kind.DataPublish? && j.dataAction.RetainData? then Run(m, j, true)
      else if kind.RestoreReload? then
        var n := CurrentReload(m.world);
        Step(m, j, ReverseAction(forward, kind, ReloadAt(n), ReloadAt(n + 1)))
      else if kind.DataIsolate? then
        match Observe(m, j, forward)
        case None => Run(m, j, false)
        case Some(actual) =>
          if actual == ABSENT then Run(m, j, true)
          else Step(m, j, ReverseAction(forward, kind, actual, ABSENT))
      else Step(m, j, ReverseAction(forward, kind, forward.newState, forward.oldState))
  }

  datatype Sweep = Sweep(run: Run, reversed: bool)

  /** One iteration of the rollback loop, for the action `a` of the snapshot. */
  function Visit(m: Machine, j: Journal, a: Action): Sweep {
    if a.kind.Reload? || a.kind.RestoreReload? then Sweep(Run(m, j, true), false)
    else if IsReverse(a.kind) then Sweep(FinishAction(m, j, a), false)
    else if AlreadyReversed(j.actions, a) then Sweep(Run(m, j, true), false)
    else
      match Observe(m, j, a)
      case None => Sweep(Run(m, j, false), false)
      case Some(actual) =>
        match Classify(a, actual)
        case None => Sweep(Run(m, j, false), false)
        case Some(progress) =>
          if progress.NotStarted? || ReverseKind(a.kind).None? then Sweep(Run(m, j, true), false)
          else Sweep(Reverse(m, j, a), true)
  }

  /** The loop over the snapshot, last action first; `n` actions are still to visit. */
  function SweepBack(m: Machine, j: Journal, snapshot: seq<Action>, n: nat): Sweep
    requires n <= |snapshot|
    decreases n
  {
    if n == 0 then Sweep(Run(m, j, true), false)
    else
      var s := Visit(m, j, snapshot[n - 1]);
      if !s.run.ok then s
      else
        var rest := SweepBack(s.run.m, s.run.j, snapshot, n - 1);
        Sweep(rest.run, s.reversed || rest.reversed)
  }

  function Rollback(m: Machine, j: Journal): Run {
    var s := SweepBack(m, j, j.actions, |j.actions|);
    if !s.run.ok then s.run
    else
      var r := if s.reversed then Step(s.run.m, s.run.j, ReloadAction(s.run.m.world, RestoreReload)) else s.run;
      if !r.ok then r else SetPhase(r.m, r.j.(authority := Source), Complete)
  }

  function SweepForward(m: Machine, j: Journal, snapshot: seq<Action>, from: nat): Run
    requires from <= |snapshot|
    decreases |snapshot| - from
  {
    if from == |snapshot| then Run(m, j, true)
    else
      var r := FinishAction(m, j, snapshot[from]);
      if !r.ok then r else SweepForward(r.m, r.j, snapshot, from + 1)
  }

  function EnsureAction(m: Machine, j: Journal, a: Action): Run {
    match Observe(m, j, a)
    case None => Run(m, j, false)
    case Some(actual) =>
      if actual == a.newState then Run(m, j, true)
      else if actual != a.oldState then Run(m, j, false)
      else Step(m, j, a)
  }

  /** A reload finished after the finished activation. */
  predicate ReloadedAfterActivation(actions: seq<Action>) {
    exists i, k :: 0 <= i < k < |actions|
      && actions[i].kind.Activation? && actions[i].status.Done?
      && SubjectOf(actions[k].kind).Reloads? && actions[k].status.Done?
  }

  function EnsureReload(m: Machine, j: Journal): Run {
    if ReloadedAfterActivation(j.actions) then Run(m, j, true) else ReloadStep(m, j)
  }

  /** What the prepared artifacts say about the service. */
  datatype Policy = Policy(targetEnabled: bool, targetRunning: bool, oldEnabled: bool)

  function TargetPolicy(p: Policy, j: Journal): (bool, bool) {
    match j.operation
    case Update => (j.oldEnabled, j.oldRunning)
    case Reinstall => (true, true)
    case Install => (true, false)
    case Recover =>
      ((if (p.targetEnabled || p.oldEnabled) && !p.targetEnabled && j.oldEnabled then true else p.targetEnabled),
       p.targetRunning)
  }

  function ServiceAction(kind: Kind, oldState: string, newState: string): Action {
    Action(0, kind, DefinitionRole, Text(oldState), Text(newState), "", "", Intent)
  }

  function EnsureTarget(m: Machine, j: Journal, p: Policy): Run {
    var (enabled, running) := TargetPolicy(p, j);
    var r := EnsureAction(m, j, ServiceAction(Unmask, "masked", "unmasked"));
    if !r.ok then r
    else
      var e := if enabled then EnsureAction(r.m, r.j, ServiceAction(Enable, "disabled", "enabled")) else r;
      if !e.ok then e
      else
        var l := EnsureReload(e.m, e.j);
        if !l.ok || !running then l
        else EnsureAction(l.m, l.j, ServiceAction(Start, "stopped", "running"))
  }

  function Rollforward(m: Machine, j: Journal, p: Policy): Run {
    var r := SweepForward(m, j, j.actions, 0);
    if !r.ok then r
    else
      var e := EnsureTarget(r.m, r.j, p);
      if !e.ok then e else SetPhase(e.m, e.j.(authority := Target), Complete)
  }

  /** A recovery starts from the published document, whatever the last process held in memory. */
  function RecoverOnce(m: Machine, p: Policy): Run {
    if m.visible.authority.Target? then Rollforward(m, m.visible, p) else Rollback(m, m.visible)
  }

  /** A recovery that may be cut anywhere, and may be followed by the loss of unsynced writes. */
  datatype Attempt = Attempt(fates: seq<Fate>, powerLoss: bool)

  function PowerLoss(m: Machine): Machine {
    m.(visible := m.durable, log := m.log + [Reverted(m.durable)])
  }

  function AfterAttempt(m: Machine, p: Policy, a: Attempt): Machine {
    var m' := RecoverOnce(m.(fates := a.fates), p).m;
    if a.powerLoss then PowerLoss(m') else m'
  }

  function AfterAttempts(m: Machine, p: Policy, attempts: seq<Attempt>): Machine
    decreases |attempts|
  {
    if attempts == [] then m
    else AfterAttempt(AfterAttempts(m, p, attempts[..|attempts| - 1]), p, attempts[|attempts| - 1])
  }

  /** Any forward run, cut or not, then any number of recoveries. */
  function AfterCrashes(world: World, j: Journal, program: seq<Instr>, fates: seq<Fate>, powerLoss: bool,
                        p: Policy, attempts: seq<Attempt>): Machine {
    var m := RunProgram(Begin(world, j, fates), j, program).m;
    AfterAttempts(if powerLoss then PowerLoss(m) else m, p, attempts)
  }

  // ---- Programs in parts ----

  lemma {:induction false} RunAppend(m: Machine, j: Journal, p: seq<Instr>, q: seq<Instr>)
    ensures var r := RunProgram(m, j, p);
            RunProgram(m, j, p + q) == if r.ok then RunProgram(r.m, r.j, q) else r
    decreases |p|
  {
    hide Execute;
    if p == [] {
      assert p + q == q;
    } else {
      assert (p + q)[0] == p[0] && (p + q)[1..] == p[1..] + q;
      var r := Execute(m, j, p[0]);
      if r.ok { RunAppend(r.m, r.j, p[1..], q); }
    }
  }

  lemma RunOne(m: Machine, j: Journal, i: Instr)
    ensures RunProgram(m, j, [i]) == Execute(m, j, i)
  {
    hide Execute;
    var r := Execute(m, j, i);
    assert [i][1..] == [];
    if r.ok { assert RunProgram(r.m, r.j, []) == Run(r.m, r.j, true); }
  }
}
