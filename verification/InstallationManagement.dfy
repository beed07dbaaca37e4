/**
  The installation manager: a plan is claimed once and executed under nested sessions,
  with every publication naming the record it replaces.
 */
module InstallationManagement {
  import opened Options
  import opened InstallationRecords
  import Engine = InstallEngine

  datatype Resource = Preparation | Operation | Gate | DataSession

  /** The order in which sessions are opened; they are closed in reverse. */
  const NESTING: seq<Resource> := [Preparation, Operation, Gate, DataSession]

  datatype Event =
    | Opened(resource: Resource)
    | Closed(resource: Resource)
    | Archived(record: Record)
    | Published(previous: Option<Record>, record: Record, published: bool, durable: bool)
    | Quiesce
    | Bound(target: Manifest)
    | Applied
    | ServiceStarted(target: Manifest)

  // ---- What a trace may look like ----

  /**
    `base` is the record read under the lock, `target` the authorised target and `last`
    the last durable publication; `stuck` means that a publication was not durable, so
    that nothing may follow it. The flags say what has happened to the service and its data.
   */
  datatype Watch = Watch(
    target: Manifest, stack: seq<Resource>, seen: set<Resource>, base: Option<Record>, last: Option<Record>, stuck: bool,
    bound: Option<Manifest>, archived: bool, quiesced: bool, applied: bool, started: bool)

  /** A record is about the authorised target, and a complete one about its root binding. */
  predicate TargetFits(target: Manifest, r: Record) {
    if r.complete then RootBinds(target, r.target) else r.target == target || RootBinds(target, r.target)
  }

  predicate Allowed(w: Watch, e: Event) {
    match e
    case Opened(r) =>
      && |w.stack| < |NESTING| && r == NESTING[|w.stack|] && r !in w.seen && ((r.Gate? || r.DataSession?) ==> w.quiesced)
    case Closed(r) => w.stack != [] && r == w.stack[|w.stack| - 1]
    case Archived(record) => Operation in w.stack && w.last.None? && !w.stuck && w.base == Some(record) && !w.archived
    case Published(previous, record, _, _) =>
      && Operation in w.stack && !w.stuck && previous == (if w.last.Some? then w.last else w.base)
      && (w.base.Some? ==> w.archived)
      && ValidRecord(record) && TargetFits(w.target, record) && (record.complete ==> w.applied)
    case Quiesce => Operation in w.stack && !w.stuck && w.last.Some? && !w.last.value.complete && !w.quiesced
    case Bound(_) => DataSession in w.stack && w.quiesced
    case Applied =>
      && DataSession in w.stack && !w.stuck && w.last.Some? && !w.last.value.complete && w.bound == Some(w.last.value.target)
      && w.quiesced && !w.applied
    case ServiceStarted(target) =>
      && w.stack == [Preparation, Operation] && {Gate, DataSession} <= w.seen && !w.stuck
      && w.last.Some? && w.last.value.complete && w.last.value.target == target && w.applied && !w.started
  }

  function Step(w: Watch, e: Event): Watch {
    match e
    case Opened(r) => w.(stack := w.stack + [r], seen := w.seen + {r})
    case Closed(_) => w.(stack := if w.stack == [] then [] else w.stack[..|w.stack| - 1])
    case Published(_, record, published, durable) =>
      if durable && published then w.(last := Some(record)) else w.(stuck := true)
    case Bound(target) => w.(bound := Some(target))
    case Quiesce => w.(quiesced := true)
    case Applied => w.(applied := true)
    case ServiceStarted(_) => w.(started := true)
    case Archived(_) => w.(archived := true)
  }

  function Begin(base: Option<Record>, target: Manifest): Watch { Watch(target, [], {}, base, None, false, None, false, false, false, false) }

  /** The watcher after a trace, unless some event was not allowed where it happened. */
  function Watched(base: Option<Record>, target: Manifest, trace: seq<Event>): Option<Watch> {
    if trace == [] then Some(Begin(base, target))
    else
      var n := |trace| - 1;
      match Watched(base, target, trace[..n])
      case None => None
      case Some(w) => if Allowed(w, trace[n]) then Some(Step(w, trace[n])) else None
  }

  /** The backend's answers to one execution: every way in which its calls can turn out. */
  datatype Answers = Answers(
    prepares: bool, described: Option<(PlanInput, Manifest)>, begins: bool, locked: Option<Locked>, id: Option<string>,
    archives: bool, first: Engine.Fate, quiesces: bool, opensData: bool, bound: Option<Manifest>, second: Engine.Fate,
    final: Option<Manifest>, third: Engine.Fate, dataCloses: bool, gateCloses: bool, service: Option<string>,
    operationCloses: bool, preparationCloses: bool)

  datatype Authorized = Authorized(plan: Plan, target: Manifest)

  datatype Outcome = Outcome(id: string, service: string)

  function LastName(p: Path): string
    requires p != []
  {
    p[|p| - 1]
  }

  /** The names of the entries to reset, or None if one is not a known direct child. */
  function ResetNames(p: PlanInput): Option<seq<string>> {
    if p.mode.Repair? then Some([])
    else if forall i :: 0 <= i < |p.delete| ==>
              && |p.delete[i].path| == |p.instance.dataRoot| + 1 && p.instance.dataRoot <= p.delete[i].path
              && ValidResetEntry(LastName(p.delete[i].path))
    then Some(seq(|p.delete|, i requires 0 <= i < |p.delete| && p.delete[i].path != [] => LastName(p.delete[i].path)))
    else None
  }

  // ---- Which answers lead to an outcome ----

  /** The root binds, the new root and the completion can be published, and the data ends as bound. */
  predicate DeploysWell(applying: Record, answers: Answers) {
    && answers.bound.Some? && RootBinds(applying.target, answers.bound.value)
    && var bound := answers.bound.value;
    && (bound != applying.target ==> ValidRecord(applying.(target := bound)) && answers.second.Proceed?)
    && answers.final == Some(bound)
    && ValidRecord(applying.(target := bound, complete := true, owner := None)) && answers.third.Proceed?
  }

  /** The observation under the lock is the authorised one, and the store still holds the record that was read. */
  predicate StartsWell(authorized: Authorized, answers: Answers, disk: Option<Record>) {
    && answers.locked.Some? && Revalidated(answers.locked.value, authorized.plan, authorized.target)
    && answers.id.Some? && ResetNames(authorized.plan.input).Some?
    && ValidRecord(NewApplying(answers.id.value, answers.locked.value, ResetNames(authorized.plan.input).value))
    && (answers.locked.value.raw.Some? ==> answers.archives)
    && disk == answers.locked.value.digest && answers.first.Proceed?
  }

  predicate ServesWell(answers: Answers) { answers.service == Some("running") || answers.service == Some("stopped") }

  /** Every call under the operation lock succeeds. */
  predicate LockedGoesWell(authorized: Authorized, answers: Answers, disk: Option<Record>) {
    && StartsWell(authorized, answers, disk)
    && answers.quiesces && answers.opensData
    && DeploysWell(NewApplying(answers.id.value, answers.locked.value, ResetNames(authorized.plan.input).value), answers)
    && answers.dataCloses && answers.gateCloses && ServesWell(answers)
  }

  /** Every call of an execution succeeds, every close included. */
  predicate EveryAnswerIsGood(authorized: Authorized, answers: Answers, disk: Option<Record>) {
    && answers.prepares && answers.described == Some((authorized.plan.input, authorized.target)) && answers.begins
    && LockedGoesWell(authorized, answers, disk)
    && answers.operationCloses && answers.preparationCloses
  }

  class InstallationManager {
    var plans: map<PlanInput, Authorized>
    var disk: Option<Record>
    var durable: Option<Record>
    var trace: seq<Event>
    ghost var watch: Watch
    ghost const seed: Option<Record>

    constructor (record: Option<Record>)
      ensures Chained() && Stored() && disk == record && seed == record && plans == map[]
    {
      plans, disk, durable, trace := map[], record, record, [];
      watch := Begin(record, EmptyManifest());
      seed := record;
    }

    ghost predicate Continues(r: Option<Record>)
      reads this
    {
      match r
      case None => seed.None?
      case Some(record) => Descends(record, seed)
    }

    /** The visible and the durable record both continue what the manager found. */
    ghost predicate Chained()
      reads this
    {
      Continues(disk) && Continues(durable)
    }

    /** Every stored authorisation is filed under the digest of its own plan. */
    ghost predicate Stored()
      reads this
    {
      forall digest :: digest in plans ==> PreparedFits(digest, plans[digest].target) && plans[digest].plan == Bind(digest)
    }

    /** What is stored is what was stored before, or a record of the authorised target. */
    twostate predicate OnlyAuthorised(target: Manifest)
      reads this
    {
      && (disk == old(disk) || (disk.Some? && TargetFits(target, disk.value)))
      && (durable == old(durable) || (durable.Some? && TargetFits(target, durable.value)))
    }

    /** The trace of the running execution has been allowed so far. */
    ghost predicate Watching()
      reads this
    {
      Watched(watch.base, watch.target, trace) == Some(watch)
    }

    method Emit(e: Event)
      requires Watching() && Allowed(watch, e)
      modifies this`trace, this`watch
      ensures Watching() && watch == Step(old(watch), e) && trace == old(trace) + [e]
    {
      assert (trace + [e])[..|trace|] == trace;
      trace := trace + [e];
      watch := Step(watch, e);
    }

    /** Stores an authorisation under the digest of its plan. */
    method Plan(input: PlanInput, target: Manifest) returns (plan: Option<Plan>)
      requires Stored()
      modifies this`plans
      ensures Stored()
      ensures plan.Some? <==> PreparedFits(input, target)
      ensures plan.Some? ==> plan.value == Bind(input) && plans == old(plans)[input := Authorized(Bind(input), target)]
      ensures plan.None? ==> plans == old(plans)
      ensures forall moves :: plan.Some? && old(plans) == StoreAfter(moves) ==> plans == StoreAfter(moves + [Store(input, target)])
    {
      if !PreparedFits(input, target) {
        return None;
      }
      plans := plans[input := Authorized(Bind(input), target)];
      plan := Some(Bind(input));
      forall moves ensures StoreAfter(moves + [Store(input, target)]) == StoreStep(StoreAfter(moves), Store(input, target)) {
        OneMoreMove(moves, Store(input, target));
      }
    }

    /** Takes an authorisation out of the store: a second claim of the same plan fails. */
    method Claim(plan: Plan) returns (authorized: Option<Authorized>)
      modifies this`plans
      ensures authorized.Some? <==> Claimable(old(plans), plan)
      ensures authorized.Some? ==> authorized.value == old(plans)[plan.digest] && plans == old(plans) - {plan.digest}
      ensures authorized.None? ==> plans == old(plans)
      ensures forall moves :: old(plans) == StoreAfter(moves) ==> plans == StoreAfter(moves + [Take(plan)])
    {
      forall moves ensures StoreAfter(moves + [Take(plan)]) == StoreStep(StoreAfter(moves), Take(plan)) {
        OneMoreMove(moves, Take(plan));
      }
      if plan.digest !in plans || plans[plan.digest].plan != plan {
        return None;
      }
      authorized := Some(plans[plan.digest]);
      plans := plans - {plan.digest};
    }

    /** The store swaps records only against the one named, and success means durable. */
    method PublishDurable(previous: Option<Record>, next: Record, fate: Engine.Fate) returns (ok: bool)
      requires Watching() && Chained()
      requires Allowed(watch, Published(previous, next, true, true))
      requires disk == previous ==> Descends(next, seed)
      modifies this`disk, this`durable, this`trace, this`watch
      ensures Watching() && Chained() && watch.stack == old(watch).stack && watch.seen == old(watch).seen
      ensures watch.base == old(watch).base && watch.bound == old(watch).bound && watch.target == old(watch).target
      ensures watch.quiesced == old(watch).quiesced && watch.applied == old(watch).applied && watch.started == old(watch).started
      ensures (disk == old(disk) || disk == Some(next)) && (durable == old(durable) || durable == Some(next))
      ensures ok ==> disk == Some(next) && durable == Some(next) && watch == old(watch).(last := Some(next))
      ensures ok <==> old(disk) == previous && fate.Proceed?
    {
      var published := disk == previous && !fate.Refuse?;
      ok := published && fate.Proceed?;
      if published { disk := Some(next); }
      if ok { durable := Some(next); }
      Emit(Published(previous, next, published, ok));
    }

    /** Losing power leaves the last durable record. */
    method PowerLoss()
      requires Chained()
      modifies this`disk
      ensures Chained() && disk == durable
    {
      disk := durable;
    }

    /** Binds the data root, applies and publishes the complete record inside an open data session. */
    method Deploy(applying: Record, locked: Locked, answers: Answers) returns (target: Option<Manifest>)
      requires Watching() && Chained() && watch.stack == NESTING && !watch.stuck && (watch.base.Some? ==> watch.archived)
      requires watch.last == Some(applying) && disk == Some(applying) && !applying.complete && applying.target == watch.target
      requires Descends(applying, seed) && (if locked.raw.None? then seed.None? else Descends(locked.raw.value, seed))
      requires locked.raw.Some? ==> applying.supersedes == Some(Ref(locked.raw.value.id, locked.raw.value))
      requires watch.quiesced && !watch.applied
      modifies this`disk, this`durable, this`trace, this`watch
      ensures Watching() && Chained() && watch.stack == NESTING && watch.seen == old(watch).seen
      ensures watch.target == old(watch).target && OnlyAuthorised(watch.target) && watch.started == old(watch).started
      ensures target.Some? <==> DeploysWell(applying, answers)
      ensures target.Some? ==>
                && target == answers.bound && watch.applied && !watch.stuck && RootBinds(applying.target, target.value)
                && watch.last == Some(applying.(complete := true, owner := None, target := target.value))
                && durable == watch.last && disk == durable
    {
      hide Watched, Descends, ValidRecord, ValidManifest, RootBinds;
      target := None;
      if answers.bound.None? { return; }
      var bound := answers.bound.value;
      Emit(Bound(bound));
      if !RootBinds(applying.target, bound) { return; }
      var current := applying;
      if bound != applying.target {
        current := applying.(target := bound);
        SameExecution(applying, current, locked, seed);
        if !ValidRecord(current) { return; }
        var ok := PublishDurable(Some(applying), current, answers.second);
        if !ok { return; }
      }
      Emit(Applied);
      if answers.final.None? || answers.final.value != bound { return; }
      var complete := current.(complete := true, owner := None);
      SameExecution(applying, complete, locked, seed);
      if !ValidRecord(complete) { return; }
      var ok := PublishDurable(Some(current), complete, answers.third);
      if ok { target := Some(bound); }
    }

    /** The data session around the deployment, closed on every path. */
    method DeployInSession(applying: Record, locked: Locked, answers: Answers) returns (target: Option<Manifest>)
      requires Watching() && Chained() && watch.stack == [Preparation, Operation, Gate] && DataSession !in watch.seen && !watch.stuck
      requires (watch.base.Some? ==> watch.archived) && watch.quiesced && !watch.applied && !watch.started
      requires watch.last == Some(applying) && disk == Some(applying) && !applying.complete && applying.target == watch.target
      requires Descends(applying, seed) && (if locked.raw.None? then seed.None? else Descends(locked.raw.value, seed))
      requires locked.raw.Some? ==> applying.supersedes == Some(Ref(locked.raw.value.id, locked.raw.value))
      modifies this`disk, this`durable, this`trace, this`watch
      ensures Watching() && Chained() && watch.stack == [Preparation, Operation, Gate] && watch.seen == old(watch).seen + {DataSession}
      ensures watch.target == old(watch).target && OnlyAuthorised(watch.target) && !watch.started
      ensures target.Some? <==> DeploysWell(applying, answers) && answers.dataCloses
      ensures target.Some? ==>
                && watch.applied && !watch.stuck && RootBinds(applying.target, target.value)
                && watch.last == Some(applying.(complete := true, owner := None, target := target.value))
                && durable == watch.last && disk == durable && target == answers.bound
    {
      hide Watched, Descends, RootBinds, DeploysWell, ValidRecord, TargetFits;
      Emit(Opened(DataSession));
      target := Deploy(applying, locked, answers);
      Emit(Closed(DataSession));
      if !answers.dataCloses { target := None; }
    }

    /** Everything behind the startup gate; both sessions are closed on every path. */
    method ExecuteQuiesced(applying: Record, locked: Locked, answers: Answers) returns (target: Option<Manifest>)
      requires Watching() && Chained() && watch.stack == [Preparation, Operation] && watch.seen == {Preparation, Operation} && !watch.stuck
      requires (watch.base.Some? ==> watch.archived) && !watch.quiesced && !watch.applied && !watch.started
      requires watch.last == Some(applying) && disk == Some(applying) && !applying.complete && applying.target == watch.target
      requires Descends(applying, seed) && (if locked.raw.None? then seed.None? else Descends(locked.raw.value, seed))
      requires locked.raw.Some? ==> applying.supersedes == Some(Ref(locked.raw.value.id, locked.raw.value))
      modifies this`disk, this`durable, this`trace, this`watch
      ensures Watching() && Chained() && watch.stack == [Preparation, Operation]
      ensures watch.target == old(watch).target && OnlyAuthorised(watch.target) && !watch.started
      ensures target.Some? <==>
                answers.quiesces && answers.opensData && DeploysWell(applying, answers) && answers.dataCloses && answers.gateCloses
      ensures target.Some? ==>
                && watch.applied && !watch.stuck && {Gate, DataSession} <= watch.seen && RootBinds(applying.target, target.value)
                && watch.last == Some(applying.(complete := true, owner := None, target := target.value))
                && durable == watch.last && disk == durable && target == answers.bound
    {
      hide Watched, Descends, RootBinds, DeploysWell, ValidRecord, TargetFits;
      target := None;
      Emit(Quiesce);
      if !answers.quiesces { return; }
      Emit(Opened(Gate));
      if answers.opensData { target := DeployInSession(applying, locked, answers); }
      Emit(Closed(Gate));
      if !answers.gateCloses { target := None; }
    }

    /** The execution under the operation lock. */
    method ExecuteLocked(authorized: Authorized, answers: Answers) returns (outcome: Option<Outcome>)
      requires Watching() && Chained() && watch == Begin(BaseOf(answers), authorized.target).(stack := [Preparation, Operation], seen := {Preparation, Operation})
      requires PreparedFits(authorized.plan.input, authorized.target)
      modifies this`disk, this`durable, this`trace, this`watch
      ensures Watching() && Chained() && watch.stack == [Preparation, Operation]
      ensures watch.target == old(watch).target && OnlyAuthorised(watch.target)
      ensures outcome.Some? <==> LockedGoesWell(authorized, answers, old(disk))
      ensures outcome.Some? ==>
                && outcome.value == Outcome(answers.id.value, answers.service.value) && watch.started && Installs(authorized, durable)
                && durable == Some(FinalRecord(authorized, answers)) && disk == durable
    {
      hide Watched, ValidRecord, PreparedFits, Descends, RootBinds, DeploysWell, Revalidated, ResetNames, NewApplying, FinalRecord;
      outcome := None;
      if answers.locked.None? || !Revalidated(answers.locked.value, authorized.plan, authorized.target) { return; }
      var locked := answers.locked.value;
      var reset := ResetNames(authorized.plan.input);
      if reset.None? || answers.id.None? { return; }
      var applying := NewApplying(answers.id.value, locked, reset.value);
      LockedFacts(answers.id.value, locked, reset.value, authorized.plan, authorized.target);
      if !ValidRecord(applying) { return; }
      if locked.raw.Some? {
        Emit(Archived(locked.raw.value));
        if !answers.archives { return; }
      }
      if disk == locked.digest {
        ApplyingContinues(answers.id.value, locked, reset.value, authorized.plan, authorized.target, seed);
      }
      var ok := PublishDurable(locked.digest, applying, answers.first);
      if !ok { return; }
      var target := ExecuteQuiesced(applying, locked, answers);
      if target.None? { return; }
      Emit(ServiceStarted(target.value));
      if answers.service.None? || (answers.service.value != "running" && answers.service.value != "stopped") { return; }
      FinalIsCompleted(authorized, answers, target.value);
      outcome := Some(Outcome(answers.id.value, answers.service.value));
    }

    /** Preparation and lock around the execution, closed in reverse order on every path. */
    method ExecutePrepared(plan: Plan, authorized: Authorized, answers: Answers) returns (outcome: Option<Outcome>)
      requires Chained() && Watching() && watch == Begin(BaseOf(answers), authorized.target)
      requires authorized.plan == plan == Bind(plan.input) && PreparedFits(plan.input, authorized.target) && answers.prepares
      modifies this`disk, this`durable, this`trace, this`watch
      ensures Chained() && Watching() && watch.stack == [] && trace != []
      ensures watch.target == authorized.target && OnlyAuthorised(authorized.target)
      ensures outcome.Some? <==> EveryAnswerIsGood(authorized, answers, old(disk))
      ensures outcome.Some? ==>
                && outcome.value == Outcome(answers.id.value, answers.service.value) && watch.started && Installs(authorized, durable)
                && durable == Some(FinalRecord(authorized, answers)) && disk == durable
    {
      hide Watched, PreparedFits, Installs, Descends, LockedGoesWell, FinalRecord, TargetFits;
      outcome := None;
      Emit(Opened(Preparation));
      if answers.described == Some((plan.input, authorized.target)) && answers.begins {
        Emit(Opened(Operation));
        outcome := ExecuteLocked(authorized, answers);
        Emit(Closed(Operation));
        if !answers.operationCloses { outcome := None; }
      }
      Emit(Closed(Preparation));
      if !answers.preparationCloses { outcome := None; }
    }

    /** One execution: no outcome is reported unless every call and every close succeeded. */
    method Execute(plan: Plan, resetConfirmed: bool, answers: Answers) returns (outcome: Option<Outcome>)
      requires Chained() && Stored()
      modifies this
      ensures Chained() && Stored() && Watching() && watch.stack == []
      ensures plans == old(plans) || (plan.digest in old(plans) && plans == old(plans) - {plan.digest})
      ensures trace != [] ==> plan.digest in old(plans) && plans == old(plans) - {plan.digest}
      ensures trace != [] ==> watch.target == old(plans)[plan.digest].target && OnlyAuthorised(watch.target)
      ensures trace == [] ==> disk == old(disk) && durable == old(durable)
      ensures outcome.Some? <==>
                && Verified(plan) && (plan.input.mode.Fresh? ==> resetConfirmed) && Claimable(old(plans), plan)
                && EveryAnswerIsGood(old(plans)[plan.digest], answers, old(disk))
      ensures outcome.Some? ==>
                && outcome.value == Outcome(answers.id.value, answers.service.value)
                && watch.started && trace != [] && Installs(old(plans)[plan.digest], durable)
                && durable == Some(FinalRecord(old(plans)[plan.digest], answers)) && disk == durable
    {
      hide Watched, PreparedFits, Installs, Descends, LockedGoesWell, FinalRecord;
      outcome, trace := None, [];
      watch := Begin(BaseOf(answers), if plan.digest in plans then plans[plan.digest].target else EmptyManifest());
      WatchedNothing(watch.base, watch.target);
      if !Verified(plan) || (plan.input.mode.Fresh? && !resetConfirmed) { return; }
      var claimed := Claim(plan);
      if claimed.None? || !answers.prepares { return; }
      outcome := ExecutePrepared(plan, claimed.value, answers);
    }
  }

  /**
    The record that an execution leaves behind, field by field: its own number, no owner, the
    planned mode, what the last completed execution installed, the bound target, the reset
    entries, the record it supersedes and that record's scope.
   */
  function FinalRecord(authorized: Authorized, answers: Answers): Record
    requires answers.locked.Some? && answers.id.Some? && answers.bound.Some?
  {
    var l := answers.locked.value;
    var reset := if authorized.plan.input.mode.Fresh? then RESET_NAMES else [];
    match l.raw
    case None =>
      Record(answers.id.value, true, None, authorized.plan.input.mode, l.legacy, answers.bound.value, reset, None,
             authorized.plan.input.instance.scope)
    case Some(before) =>
      var installed := if !before.complete then before.base
                       else if before.target == Manifest(false, [], [], [], [], None, None, None, "", false, false) then None
                       else Some(before.target);
      Record(answers.id.value, true, None, authorized.plan.input.mode, installed, answers.bound.value, reset,
             Some(Ref(before.id, before)), before.scope)
  }

  const RESET_NAMES: seq<string> :=
    ["mihari.yaml", "onboarding.json", "subscriptions", "preferences", "runtime", "logs", "logs-export", "bin", "geoip", "web", "staging"]

  function BaseOf(answers: Answers): Option<Record> {
    if answers.locked.Some? then answers.locked.value.raw else None
  }

  /** The durable record is complete, and its target is the authorised one with its root bound. */
  ghost predicate Installs(authorized: Authorized, durable: Option<Record>) {
    durable.Some? && durable.value.complete && RootBinds(authorized.target, durable.value.target)
  }

  /** What the record of an execution takes over from the observation under the lock. */
  lemma LockedFacts(id: string, l: Locked, reset: seq<string>, plan: Plan, target: Manifest)
    requires Revalidated(l, plan, target)
    ensures l.digest == l.raw
    ensures var r := NewApplying(id, l, reset);
            && r.id == id && r.target == target && !r.complete
            && (l.raw.Some? ==> r.supersedes == Some(Ref(l.raw.value.id, l.raw.value)))
  {
    hide PreparedFits, ValidRecord, LegacyFits;
  }

  /** The names to reset are those of the table, in its order. */
  lemma ResetNamesAreListed(input: PlanInput, target: Manifest)
    requires PreparedFits(input, target)
    ensures ResetNames(input) == Some(if input.mode.Fresh? then RESET_NAMES else [])
  {
    if input.mode.Fresh? {
      assert |RESET_NAMES| == |RESET_ENTRIES|;
      forall i | 0 <= i < |input.delete| ensures input.delete[i].path == target.dataRoot + [RESET_ENTRIES[i].0] && RESET_ENTRIES[i].0 == RESET_NAMES[i] {}
      forall i | 0 <= i < |input.delete|
        ensures |input.delete[i].path| == |input.instance.dataRoot| + 1 && input.instance.dataRoot <= input.delete[i].path
                && LastName(input.delete[i].path) == RESET_NAMES[i] && ValidResetEntry(RESET_NAMES[i])
      {
        assert input.delete[i].path == target.dataRoot + [RESET_ENTRIES[i].0];
      }
      assert ResetNames(input).value == RESET_NAMES;
    }
  }

  lemma FinalIsCompleted(authorized: Authorized, answers: Answers, target: Manifest)
    requires answers.locked.Some? && answers.id.Some? && answers.bound == Some(target)
    requires Revalidated(answers.locked.value, authorized.plan, authorized.target) && PreparedFits(authorized.plan.input, authorized.target)
    requires ResetNames(authorized.plan.input).Some?
    ensures FinalRecord(authorized, answers)
            == NewApplying(answers.id.value, answers.locked.value, ResetNames(authorized.plan.input).value).(complete := true, owner := None, target := target)
  {
    hide PreparedFits, ResetNames, ValidRecord, LegacyFits;
    ResetNamesAreListed(authorized.plan.input, authorized.target);
  }

  lemma WatchedNothing(base: Option<Record>, target: Manifest)
    ensures Watched(base, target, []) == Some(Begin(base, target))
  {
  }

  // ---- What an allowed trace guarantees ----

  function Count(trace: seq<Event>, e: Event): nat {
    if trace == [] then 0
    else Count(trace[..|trace| - 1], e) + if trace[|trace| - 1] == e then 1 else 0
  }

  predicate Durably(e: Event) { e.Published? && e.published && e.durable }

  /** `k` is the last durable publication of the trace, and nothing was published behind it. */
  ghost predicate LastPublication(trace: seq<Event>, k: nat, r: Record) {
    && k < |trace| && Durably(trace[k]) && trace[k].record == r
    && forall i :: k < i < |trace| ==> !trace[i].Published?
  }

  lemma OneMoreEvent(base: Option<Record>, target: Manifest, trace: seq<Event>, e: Event)
    requires trace != [] && Watched(base, target, trace).Some?
    ensures var n := |trace| - 1;
            && Watched(base, target, trace[..n]).Some? && Allowed(Watched(base, target, trace[..n]).value, trace[n])
            && Watched(base, target, trace).value == Step(Watched(base, target, trace[..n]).value, trace[n])
            && Count(trace, e) == Count(trace[..n], e) + if trace[n] == e then 1 else 0
  {
    hide Allowed, Step;
  }

  lemma {:induction false} WatcherKnows(base: Option<Record>, target: Manifest, trace: seq<Event>) returns (k: nat)
    requires Watched(base, target, trace).Some?
    ensures var w := Watched(base, target, trace).value;
            && w.base == base && w.target == target
            && (w.last.Some? && !w.stuck ==> LastPublication(trace, k, w.last.value))
            && (w.last.None? && !w.stuck ==> forall i :: 0 <= i < |trace| ==> !trace[i].Published?)
  {
    hide Watched;
    k := 0;
    if trace == [] {
      WatchedNothing(base, target);
    } else {
      var n := |trace| - 1;
      OneMoreEvent(base, target, trace, trace[n]);
      k := WatcherKnows(base, target, trace[..n]);
      if Durably(trace[n]) { k := n; }
    }
  }

  /** Sessions are opened in one order and closed in reverse. */
  lemma {:induction false} StackIsPrefix(base: Option<Record>, target: Manifest, trace: seq<Event>)
    requires Watched(base, target, trace).Some?
    ensures var w := Watched(base, target, trace).value;
            && |w.stack| <= 4 && w.stack == NESTING[..|w.stack|] && (forall r :: r in w.stack ==> r in w.seen)
  {
    if trace != [] {
      var n := |trace| - 1;
      StackIsPrefix(base, target, trace[..n]);
      var w := Watched(base, target, trace[..n]).value;
      if trace[n].Opened? { assert NESTING[..|w.stack| + 1] == NESTING[..|w.stack|] + [trace[n].resource]; }
      if trace[n].Closed? { assert w.stack[..|w.stack| - 1] == NESTING[..|w.stack| - 1]; }
    }
  }

  lemma PopsOnlyTop(stack: seq<Resource>, r: Resource)
    requires stack != [] && |stack| <= 4 && stack == NESTING[..|stack|]
    ensures r in stack[..|stack| - 1] <==> r in stack && r != stack[|stack| - 1]
  {
    assert stack == stack[..|stack| - 1] + [stack[|stack| - 1]];
  }

  /** The watcher's stack is exactly what is open, each session opened at most once. */
  lemma {:induction false} SessionsNest(base: Option<Record>, target: Manifest, trace: seq<Event>, r: Resource)
    requires Watched(base, target, trace).Some?
    ensures var w := Watched(base, target, trace).value;
            && Count(trace, Opened(r)) == (if r in w.seen then 1 else 0)
            && Count(trace, Opened(r)) == Count(trace, Closed(r)) + (if r in w.stack then 1 else 0)
  {
    hide Watched, NESTING;
    if trace == [] {
      WatchedNothing(base, target);
    } else {
      var n := |trace| - 1;
      OneMoreEvent(base, target, trace, Opened(r));
      OneMoreEvent(base, target, trace, Closed(r));
      SessionsNest(base, target, trace[..n], r);
      StackIsPrefix(base, target, trace[..n]);
      if trace[n].Closed? { PopsOnlyTop(Watched(base, target, trace[..n]).value.stack, r); }
    }
  }

  lemma {:induction false} BoundWasSeen(base: Option<Record>, target: Manifest, trace: seq<Event>)
    requires Watched(base, target, trace).Some? && Watched(base, target, trace).value.bound.Some?
    ensures Bound(Watched(base, target, trace).value.bound.value) in trace
  {
    hide Watched, Count;
    if trace == [] { WatchedNothing(base, target); }
    OneMoreEvent(base, target, trace, Quiesce);
    if !trace[|trace| - 1].Bound? { BoundWasSeen(base, target, trace[..|trace| - 1]); }
  }

  /** Every session that was opened is closed exactly once when the execution returns. */
  lemma EverythingIsClosed(base: Option<Record>, target: Manifest, trace: seq<Event>, r: Resource)
    requires Watched(base, target, trace).Some? && Watched(base, target, trace).value.stack == []
    ensures Count(trace, Opened(r)) == Count(trace, Closed(r)) <= 1
  {
    SessionsNest(base, target, trace, r);
  }

  lemma {:induction false} PrefixWatched(base: Option<Record>, target: Manifest, trace: seq<Event>, i: nat)
    requires Watched(base, target, trace).Some? && i < |trace|
    ensures Watched(base, target, trace[..i]).Some? && Allowed(Watched(base, target, trace[..i]).value, trace[i])
    decreases |trace|
  {
    if i < |trace| - 1 {
      PrefixWatched(base, target, trace[..|trace| - 1], i);
      assert trace[..|trace| - 1][..i] == trace[..i];
    }
  }

  /**
    The service is stopped and the data changed only behind a durable applying record,
    which names the bound target by then; the service is started only behind a durable
    complete record of that target, after the data session and the gate were closed.
   */
  lemma StepsFollowRecords(base: Option<Record>, target: Manifest, trace: seq<Event>, i: nat) returns (k: nat)
    requires Watched(base, target, trace).Some? && i < |trace|
    ensures trace[i].Quiesce? || trace[i].Applied? ==>
              k < i && Durably(trace[k]) && !trace[k].record.complete
              && forall j :: k < j < i ==> !trace[j].Published?
    ensures trace[i].Applied? ==> Bound(trace[k].record.target) in trace[..i]
    ensures trace[i].ServiceStarted? ==>
              && k < i && Durably(trace[k]) && trace[k].record.complete && trace[k].record.target == trace[i].target
              && (forall j :: k < j < i ==> !trace[j].Published?)
              && Count(trace[..i], Closed(DataSession)) == 1 && Count(trace[..i], Closed(Gate)) == 1
  {
    hide Watched, Count;
    PrefixWatched(base, target, trace, i);
    k := WatcherKnows(base, target, trace[..i]);
    if trace[i].Applied? { BoundWasSeen(base, target, trace[..i]); }
    SessionsNest(base, target, trace[..i], DataSession);
    SessionsNest(base, target, trace[..i], Gate);
  }

  /** Every published record is well-formed: an owner until it is complete, a reset list exactly if fresh, known names, none twice. */
  lemma PublishedAreSane(base: Option<Record>, target: Manifest, trace: seq<Event>, i: nat)
    requires Watched(base, target, trace).Some? && i < |trace| && trace[i].Published?
    ensures var r := trace[i].record;
            && (r.complete <==> r.owner.None?) && (r.target.installed || r.operation == Elsewhere)
            && (r.operation == Fresh <==> |r.reset| > 0) && |r.reset| <= 32
            && (forall k :: 0 <= k < |r.reset| ==> r.reset[k] in RESET_NAMES)
            && (forall k, n :: 0 <= k < n < |r.reset| ==> r.reset[k] != r.reset[n])
            && (r.target.dataRoot != [] ==> r.target.root.Some? <==> r.target.parent.None?)
            && (r.target.parent.Some? ==> !r.complete && (r.base.None? || r.base == Some(EmptyManifest())))
            && (r.target.installed ==>
                  && r.target.dataRoot != [] && r.target.installRoot != [] && r.target.endpoint != [] && r.target.credential != []
                  && r.target.binary.Some? && r.target.definition != "")
  {
    hide Watched, TargetFits;
    PrefixWatched(base, target, trace, i);
    forall name | ValidResetEntry(name) ensures name in RESET_NAMES { ResetEntryIsNamed(name); }
  }

  lemma ResetEntryIsNamed(name: string)
    requires ValidResetEntry(name)
    ensures name in RESET_NAMES
  {
    var i :| 0 <= i < |RESET_ENTRIES| && RESET_ENTRIES[i].0 == name;
    assert RESET_NAMES[i] == RESET_ENTRIES[i].0;
  }

  /**
    What an outcome stands on, field by field: the plan was for this very machine and record, it
    keeps the credential, deletes what a fresh installation resets and nothing on a repair, stays
    clear of the source of a migration, and the observation under the lock was the same.
   */
  lemma GoodAnswersMean(authorized: Authorized, answers: Answers, disk: Option<Record>)
    requires EveryAnswerIsGood(authorized, answers, disk)
    ensures var input := authorized.plan.input;
            var t := authorized.target;
            var l := answers.locked.value;
            && input.mode != Elsewhere && authorized.plan.digest == input
            && t.installed && t.binary == Some(input.candidate) && t.dataRoot == input.instance.dataRoot
            && t.enabled == input.instance.enabled && t.run == input.instance.run
            && t.root == input.instance.root && t.parent == input.instance.parent
            && Entry(t.credential, "credential") in input.preserve
            && (forall a, b :: 0 <= a < |input.preserve| && 0 <= b < |input.delete| ==> input.preserve[a].path != input.delete[b].path)
            && (input.mode == Repair ==> input.delete == [])
            && (input.mode == Fresh ==>
                  && |input.delete| == 11
                  && (forall i :: 0 <= i < 11 ==>
                        && input.delete[i].path == t.dataRoot + [RESET_NAMES[i]]
                        && !(input.delete[i].path <= t.credential) && !(t.credential <= input.delete[i].path))
                  && (input.instance.scope.Some? ==>
                        && !(t.dataRoot <= input.instance.scope.value.dataRoot) && !(input.instance.scope.value.dataRoot <= t.dataRoot)
                        && t.root != Some(input.instance.scope.value.identity) && t.parent != Some(input.instance.scope.value.identity)))
    ensures var input := authorized.plan.input;
            var l := answers.locked.value;
            && l.input == input && l.target == authorized.target && l.owner != "" && disk == l.raw
            && input.instance.recordDigest == l.raw && input.instance.recordId == (if l.raw.Some? then l.raw.value.id else "")
            && (l.raw.Some? ==> input.instance.scope == l.raw.value.scope && l.legacy.None?)
            && (l.legacy.Some? ==>
                  && l.legacy.value.installed && l.legacy.value.dataRoot == authorized.target.dataRoot
                  && l.legacy.value.installRoot == authorized.target.installRoot && l.legacy.value.endpoint == authorized.target.endpoint
                  && l.legacy.value.credential == authorized.target.credential && l.legacy.value.root == authorized.target.root)
  {
    hide ValidRecord, ValidManifest, ResetNames, NewApplying, DeploysWell;
    var input, t := authorized.plan.input, authorized.target;
    assert PreparedFits(input, t);
    if input.mode.Fresh? { ScopeMeans(input, t); }
    PathsApart(input);
  }

  /** Both kinds of installation can succeed: a machine without a record, and answers that are all good. */
  lemma OutcomeIsPossible(mode: Mode) returns (authorized: Authorized, answers: Answers)
    requires mode.Repair? || mode.Fresh?
    ensures authorized.plan == Bind(authorized.plan.input) && authorized.plan.input.mode == mode
    ensures EveryAnswerIsGood(authorized, answers, None)
  {
    var t := Manifest(true, ["data"], ["install"], ["endpoint"], ["credential"], Some("root"), None, Some("binary"), "unit", true, true);
    var delete := if mode.Fresh? then seq(11, i requires 0 <= i < 11 => Entry(["data", RESET_ENTRIES[i].0], RESET_ENTRIES[i].1)) else [];
    var preserve := [Entry(["credential"], "credential")];
    var input := PlanInput(mode, Instance("", None, ["data"], Some("root"), None, None, true, true), "binary", preserve, delete);
    authorized := Authorized(Bind(input), t);
    answers := Answers(true, Some((input, t)), true, Some(Locked(input, t, None, None, None, "owner")), Some("id"), true, Engine.Proceed, true, true,
                       Some(t), Engine.Proceed, Some(t), Engine.Proceed, true, true, Some("running"), true, true);
    assert PreparedFits(input, t) by { ExampleFits(mode, input, t); }
    ResetNamesAreListed(input, t);
    assert ValidRecord(NewApplying("id", answers.locked.value, ResetNames(input).value)) by { ExampleIsValid(mode, input, t); }
    assert ValidRecord(NewApplying("id", answers.locked.value, ResetNames(input).value).(target := t, complete := true, owner := None)) by {
      ExampleIsValid(mode, input, t);
    }
  }

  lemma ExampleFits(mode: Mode, input: PlanInput, t: Manifest)
    requires mode.Repair? || mode.Fresh?
    requires t == Manifest(true, ["data"], ["install"], ["endpoint"], ["credential"], Some("root"), None, Some("binary"), "unit", true, true)
    requires input.mode == mode && input.instance == Instance("", None, ["data"], Some("root"), None, None, true, true) && input.candidate == "binary"
    requires input.preserve == [Entry(["credential"], "credential")]
    requires input.delete == if mode.Fresh? then seq(11, i requires 0 <= i < 11 => Entry(["data", RESET_ENTRIES[i].0], RESET_ENTRIES[i].1)) else []
    ensures PreparedFits(input, t)
  {
    assert input.preserve[0] == Entry(t.credential, "credential");
    forall i | 0 <= i < |input.delete| ensures input.delete[i].path == t.dataRoot + [RESET_ENTRIES[i].0] && !Overlap(input.delete[i].path, t.credential) {
      assert input.delete[i].path[0] != t.credential[0];
    }
    var all := input.preserve + input.delete;
    forall i, k | 0 <= i < k < |all| ensures all[i].path != all[k].path {
      if i == 0 {
        assert |all[i].path| == 1 && |all[k].path| == 2;
      } else {
        assert all[i].path[1] == RESET_ENTRIES[i - 1].0 && all[k].path[1] == RESET_ENTRIES[k - 1].0;
        EntriesDiffer(i - 1, k - 1);
      }
    }
  }

  lemma EntriesDiffer(i: nat, k: nat)
    requires i < k < |RESET_ENTRIES|
    ensures RESET_ENTRIES[i].0 != RESET_ENTRIES[k].0
  {
  }

  lemma ExampleIsValid(mode: Mode, input: PlanInput, t: Manifest)
    requires mode.Repair? || mode.Fresh?
    requires t == Manifest(true, ["data"], ["install"], ["endpoint"], ["credential"], Some("root"), None, Some("binary"), "unit", true, true)
    requires input.mode == mode && PreparedFits(input, t) && ResetNames(input).Some?
    ensures var r := NewApplying("id", Locked(input, t, None, None, None, "owner"), ResetNames(input).value);
            ValidRecord(r) && ValidRecord(r.(target := t, complete := true, owner := None))
  {
    hide PreparedFits, ResetNames;
    ResetNamesAreListed(input, t);
    forall i | 0 <= i < |RESET_NAMES| ensures ValidResetEntry(RESET_NAMES[i]) { assert RESET_ENTRIES[i].0 == RESET_NAMES[i]; }
    forall i, k | 0 <= i < k < |RESET_NAMES| ensures RESET_NAMES[i] != RESET_NAMES[k] {
      EntriesDiffer(i, k);
      assert RESET_ENTRIES[i].0 == RESET_NAMES[i] && RESET_ENTRIES[k].0 == RESET_NAMES[k];
    }
  }

  lemma ScopeMeans(input: PlanInput, t: Manifest)
    requires ScopeFits(input, t) && input.mode.Fresh?
    ensures |input.delete| == 11
    ensures forall i :: 0 <= i < 11 ==>
              && input.delete[i].path == t.dataRoot + [RESET_NAMES[i]]
              && !(input.delete[i].path <= t.credential) && !(t.credential <= input.delete[i].path)
  {
    forall i | 0 <= i < |RESET_ENTRIES| ensures RESET_ENTRIES[i].0 == RESET_NAMES[i] {}
  }

  lemma PathsApart(input: PlanInput)
    requires DistinctPaths(input.preserve + input.delete)
    ensures forall a, b :: 0 <= a < |input.preserve| && 0 <= b < |input.delete| ==> input.preserve[a].path != input.delete[b].path
  {
    var all := input.preserve + input.delete;
    forall a, b | 0 <= a < |input.preserve| && 0 <= b < |input.delete| ensures input.preserve[a].path != input.delete[b].path {
      assert all[a] == input.preserve[a] && all[|input.preserve| + b] == input.delete[b];
    }
  }

  /** The watcher's flags count what happened: each at most once, in one order. */
  lemma {:induction false} WatcherCounts(base: Option<Record>, target: Manifest, trace: seq<Event>)
    requires Watched(base, target, trace).Some?
    ensures var w := Watched(base, target, trace).value;
            && Count(trace, Quiesce) == (if w.quiesced then 1 else 0) && Count(trace, Applied) == (if w.applied then 1 else 0)
            && (w.started ==> w.applied) && (w.applied ==> w.quiesced)
  {
    hide Watched, Count;
    if trace == [] {
      WatchedNothing(base, target);
      CountsNothing();
    } else {
      OneMoreEvent(base, target, trace, Quiesce);
      OneMoreEvent(base, target, trace, Applied);
      WatcherCounts(base, target, trace[..|trace| - 1]);
    }
  }

  lemma CountsNothing()
    ensures Count([], Quiesce) == 0 && Count([], Applied) == 0
  {
  }

  /** A record that was read is archived, once and before anything replaces it; nothing else is archived. */
  lemma ArchivedFirst(base: Option<Record>, target: Manifest, trace: seq<Event>, i: nat)
    requires Watched(base, target, trace).Some? && i < |trace|
    ensures trace[i].Archived? ==> base == Some(trace[i].record) && forall k :: 0 <= k < i ==> !trace[k].Archived? && !trace[k].Published?
    ensures trace[i].Published? && base.Some? ==> Archived(base.value) in trace[..i]
  {
    hide Watched;
    PrefixWatched(base, target, trace, i);
    FlagsArchived(base, target, trace[..i]);
    var k := WatcherKnows(base, target, trace[..i]);
  }

  lemma {:induction false} FlagsArchived(base: Option<Record>, target: Manifest, trace: seq<Event>)
    requires Watched(base, target, trace).Some?
    ensures var w := Watched(base, target, trace).value;
            && w.base == base
            && (if w.archived then base.Some? && Archived(base.value) in trace else forall k :: 0 <= k < |trace| ==> !trace[k].Archived?)
  {
    hide Watched;
    if trace == [] {
      WatchedNothing(base, target);
    } else {
      OneMoreEvent(base, target, trace, Quiesce);
      FlagsArchived(base, target, trace[..|trace| - 1]);
    }
  }

  /** The gate and the data session are opened, the root bound and the data changed, only behind the one quiesce. */
  lemma QuiescedFirst(base: Option<Record>, target: Manifest, trace: seq<Event>, i: nat)
    requires Watched(base, target, trace).Some? && i < |trace|
    ensures trace[i] == Opened(Gate) || trace[i] == Opened(DataSession) || trace[i].Bound? || trace[i].Applied? ==>
              Count(trace[..i], Quiesce) == 1
    ensures trace[i].Quiesce? ==> Count(trace[..i], Quiesce) == 0
  {
    hide Watched, Count;
    PrefixWatched(base, target, trace, i);
    WatcherCounts(base, target, trace[..i]);
  }

  /** An event that the watcher flags is at some place of the trace, and at no other. */
  lemma {:induction false} FindStart(base: Option<Record>, target: Manifest, trace: seq<Event>) returns (s: nat)
    requires Watched(base, target, trace).Some? && Watched(base, target, trace).value.started
    ensures s < |trace| && trace[s].ServiceStarted? && (forall i :: 0 <= i < |trace| && trace[i].ServiceStarted? ==> i == s)
    ensures Watched(base, target, trace[..s]).Some? && Watched(base, target, trace[..s]).value.applied
    decreases |trace|
  {
    hide Watched, Count;
    if trace == [] { WatchedNothing(base, target); }
    var n := |trace| - 1;
    OneMoreEvent(base, target, trace, Quiesce);
    if trace[n].ServiceStarted? {
      s := n;
      forall i | 0 <= i < n ensures !trace[i].ServiceStarted? { NotStarted(base, target, trace[..n], i); }
    } else {
      s := FindStart(base, target, trace[..n]);
      assert trace[..n][..s] == trace[..s];
    }
  }

  lemma {:induction false} NotStarted(base: Option<Record>, target: Manifest, trace: seq<Event>, i: nat)
    requires Watched(base, target, trace).Some? && !Watched(base, target, trace).value.started && i < |trace|
    ensures !trace[i].ServiceStarted?
    decreases |trace|
  {
    hide Watched, Count;
    OneMoreEvent(base, target, trace, Quiesce);
    if i < |trace| - 1 { NotStarted(base, target, trace[..|trace| - 1], i); }
  }

  lemma {:induction false} FindOnly(trace: seq<Event>, e: Event) returns (k: nat)
    requires Count(trace, e) == 1
    ensures k < |trace| && trace[k] == e && forall i :: 0 <= i < |trace| && trace[i] == e ==> i == k
    decreases |trace|
  {
    var n := |trace| - 1;
    if trace[n] == e {
      k := n;
      forall i | 0 <= i < n ensures trace[i] != e { NotCounted(trace[..n], e, i); }
    } else {
      k := FindOnly(trace[..n], e);
    }
  }

  lemma {:induction false} NotCounted(trace: seq<Event>, e: Event, i: nat)
    requires Count(trace, e) == 0 && i < |trace|
    ensures trace[i] != e
    decreases |trace|
  {
    if i < |trace| - 1 { NotCounted(trace[..|trace| - 1], e, i); }
  }

  lemma {:induction false} CountPrefix(trace: seq<Event>, e: Event, k: nat)
    requires k <= |trace|
    ensures Count(trace[..k], e) <= Count(trace, e)
    decreases |trace|
  {
    if k < |trace| {
      CountPrefix(trace[..|trace| - 1], e, k);
      assert trace[..|trace| - 1][..k] == trace[..k];
    } else {
      assert trace[..k] == trace;
    }
  }

  /** A served execution quiesced, applied and started once each, in this order. */
  lemma ServedInOrder(base: Option<Record>, target: Manifest, trace: seq<Event>) returns (q: nat, a: nat, s: nat)
    requires Watched(base, target, trace).Some? && Watched(base, target, trace).value.started
    ensures q < a < s < |trace| && trace[q].Quiesce? && trace[a].Applied? && trace[s].ServiceStarted?
    ensures forall i :: 0 <= i < |trace| ==>
              (trace[i].Quiesce? ==> i == q) && (trace[i].Applied? ==> i == a) && (trace[i].ServiceStarted? ==> i == s)
  {
    hide Watched, Count;
    s := FindStart(base, target, trace);
    WatcherCounts(base, target, trace);
    WatcherCounts(base, target, trace[..s]);
    q := FindOnly(trace, Quiesce);
    a := FindOnly(trace, Applied);
    var b := FindOnly(trace[..s], Applied);
    assert trace[b] == Applied;
    QuiescedFirst(base, target, trace, a);
    var c := FindOnly(trace[..a], Quiesce);
    assert trace[c] == Quiesce;
  }

  /** Each publication names the durable record before it, the first the one read under the lock. */
  lemma PublicationsChain(base: Option<Record>, target: Manifest, trace: seq<Event>, i: nat)
    requires Watched(base, target, trace).Some? && i < |trace| && trace[i].Published?
    ensures forall k :: 0 <= k < i && trace[k].Published? ==> Durably(trace[k])
    ensures (forall k :: 0 <= k < i ==> !trace[k].Published?) ==> trace[i].previous == base
    ensures forall k :: 0 <= k < i && trace[k].Published? && (forall j :: k < j < i ==> !trace[j].Published?) ==>
              trace[i].previous == Some(trace[k].record)
  {
    hide Watched;
    PrefixWatched(base, target, trace, i);
    var last := WatcherKnows(base, target, trace[..i]);
    forall k | 0 <= k < i && trace[k].Published? ensures Durably(trace[k]) { NotStuck(base, target, trace[..i], k); }
  }

  lemma {:induction false} NotStuck(base: Option<Record>, target: Manifest, trace: seq<Event>, k: nat)
    requires Watched(base, target, trace).Some? && !Watched(base, target, trace).value.stuck && k < |trace| && trace[k].Published?
    ensures Durably(trace[k])
    decreases |trace|
  {
    if k < |trace| - 1 { NotStuck(base, target, trace[..|trace| - 1], k); }
  }

  // ---- Authorisations ----

  datatype StoreMove = Store(input: PlanInput, target: Manifest) | Take(plan: Plan)

  function StoreStep(plans: map<PlanInput, Authorized>, move: StoreMove): map<PlanInput, Authorized> {
    match move
    case Store(input, target) => plans[input := Authorized(Bind(input), target)]
    case Take(plan) => if Claimable(plans, plan) then plans - {plan.digest} else plans
  }

  /** The store after a sequence of plans and claims; `Plan` and `Claim` make one move each. */
  function StoreAfter(moves: seq<StoreMove>): map<PlanInput, Authorized> {
    if moves == [] then map[] else StoreStep(StoreAfter(moves[..|moves| - 1]), moves[|moves| - 1])
  }

  lemma OneMoreMove(moves: seq<StoreMove>, move: StoreMove)
    ensures StoreAfter(moves + [move]) == StoreStep(StoreAfter(moves), move)
  {
    hide StoreStep;
    assert (moves + [move])[..|moves|] == moves;
  }

  predicate Claimable(plans: map<PlanInput, Authorized>, plan: Plan) {
    plan.digest in plans && plans[plan.digest].plan == plan
  }

  function Stores(moves: seq<StoreMove>, digest: PlanInput): nat {
    if moves == [] then 0
    else
      var last := moves[|moves| - 1];
      Stores(moves[..|moves| - 1], digest) + if last.Store? && last.input == digest then 1 else 0
  }

  function Claims(moves: seq<StoreMove>, digest: PlanInput): nat {
    if moves == [] then 0
    else
      var last := moves[|moves| - 1];
      Claims(moves[..|moves| - 1], digest)
      + if last.Take? && last.plan.digest == digest && Claimable(StoreAfter(moves[..|moves| - 1]), last.plan) then 1 else 0
  }

  /** Over any sequence of plans and executions, an authorisation is consumed at most once. */
  lemma {:induction false} ClaimedAtMostOnce(moves: seq<StoreMove>, digest: PlanInput)
    ensures Claims(moves, digest) + (if digest in StoreAfter(moves) then 1 else 0) <= Stores(moves, digest)
  {
    if moves != [] { ClaimedAtMostOnce(moves[..|moves| - 1], digest); }
  }

  /**
    Whatever an execution publishes, on every path, is about the authorised target: a
    record names it, or the same target with the root that was missing; a complete record
    names one whose root is bound.
   */
  lemma TargetIsAuthorised(base: Option<Record>, target: Manifest, trace: seq<Event>, i: nat)
    requires Watched(base, target, trace).Some? && i < |trace| && trace[i].Published?
    ensures var done := trace[i].record.target;
            && done.(root := target.root, parent := target.parent) == target
            && (done.root != target.root ==> target.root.None? && target.parent.Some? && done.parent.None?)
            && (done.parent != target.parent ==> done.root != target.root)
            && (trace[i].record.complete ==> done.root.Some? && done.parent.None?)
  {
    hide Watched;
    PrefixWatched(base, target, trace, i);
    var k := WatcherKnows(base, target, trace[..i]);
  }
}
