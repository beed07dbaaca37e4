/**
  Installation plans, manifests and records as values: what makes them valid, what a
  plan binds, how a new record continues the one before, and what a chain of records
  therefore guarantees. A digest is taken to be the document it was computed from.
 */
module InstallationRecords {
  import opened Options

  /** A path as its components; "" is the empty path. */
  type Path = seq<string>

  datatype Mode = Repair | Fresh | Elsewhere

  datatype Manifest = Manifest(
    installed: bool, dataRoot: Path, installRoot: Path, endpoint: Path, credential: Path,
    root: Option<string>, parent: Option<string>, binary: Option<string>, definition: string,
    enabled: bool, run: bool)

  datatype Scope = Scope(dataRoot: Path, identity: string)

  datatype Ref = Ref(id: string, digest: Record)

  datatype Record = Record(
    id: string, complete: bool, owner: Option<string>, operation: Mode, base: Option<Manifest>,
    target: Manifest, reset: seq<string>, supersedes: Option<Ref>, scope: Option<Scope>)

  datatype Entry = Entry(path: Path, category: string)

  datatype Instance = Instance(
    recordId: string, recordDigest: Option<Record>, dataRoot: Path, root: Option<string>, parent: Option<string>,
    scope: Option<Scope>, enabled: bool, run: bool)

  datatype PlanInput = PlanInput(mode: Mode, instance: Instance, candidate: string, preserve: seq<Entry>, delete: seq<Entry>)

  datatype Plan = Plan(input: PlanInput, digest: PlanInput)

  function EmptyManifest(): Manifest { Manifest(false, [], [], [], [], None, None, None, "", false, false) }

  /** A data root is known by its own identity, or, while it may be missing, by its parent's. */
  predicate ValidManifest(m: Manifest, allowMissingRoot: bool) {
    && (if m.dataRoot == [] then m.root.None? && m.parent.None?
        else m.root.Some? != m.parent.Some? && (m.parent.Some? ==> allowMissingRoot))
    && (if m.installed then
          && m.dataRoot != [] && m.installRoot != [] && m.endpoint != [] && m.credential != []
          && m.binary.Some? && m.definition != ""
        else
          && m.binary.None? && m.definition == ""
          && (m.dataRoot == [] <==> m.installRoot == []) && (m.dataRoot == [] <==> m.endpoint == [])
          && (m.dataRoot == [] <==> m.credential == []))
  }

  const RESET_ENTRIES: seq<(string, string)> :=
    [("mihari.yaml", "config"), ("onboarding.json", "config"), ("subscriptions", "subscriptions"),
     ("preferences", "preferences"), ("runtime", "runtime"), ("logs", "logs"), ("logs-export", "logs"),
     ("bin", "binaries"), ("geoip", "assets"), ("web", "web"), ("staging", "staging")]

  predicate ValidResetEntry(name: string) { exists i :: 0 <= i < |RESET_ENTRIES| && RESET_ENTRIES[i].0 == name }

  predicate ValidRecord(r: Record) {
    && r.complete == r.owner.None?
    && (r.base.Some? ==> ValidManifest(r.base.value, false))
    && ValidManifest(r.target, !r.complete && (r.base.None? || r.base.value == EmptyManifest()))
    && (r.target.installed || r.operation.Elsewhere?)
    && (r.operation.Fresh? <==> r.reset != []) && |r.reset| <= 32
    && (forall i :: 0 <= i < |r.reset| ==> ValidResetEntry(r.reset[i]))
    && (forall i, k :: 0 <= i < k < |r.reset| ==> r.reset[i] != r.reset[k])
  }

  // ---- Plans ----

  predicate IsPrefix(p: Path, q: Path) { p <= q }

  /** One path is the other or lies inside it. */
  predicate Overlap(p: Path, q: Path) { IsPrefix(p, q) || IsPrefix(q, p) }

  /** The manager's own check of what a plan preserves and deletes. */
  predicate ScopeFits(input: PlanInput, target: Manifest) {
    && (exists i :: 0 <= i < |input.preserve| && input.preserve[i] == Entry(target.credential, "credential"))
    && (if input.mode.Repair? then input.delete == []
        else
          && (input.instance.scope.Some? ==>
                && target.root != Some(input.instance.scope.value.identity)
                && target.parent != Some(input.instance.scope.value.identity)
                && !Overlap(target.dataRoot, input.instance.scope.value.dataRoot))
          && |input.delete| == |RESET_ENTRIES|
          && forall i :: 0 <= i < |RESET_ENTRIES| ==>
               && input.delete[i] == Entry(target.dataRoot + [RESET_ENTRIES[i].0], RESET_ENTRIES[i].1)
               && !Overlap(input.delete[i].path, target.credential))
  }

  predicate DistinctPaths(entries: seq<Entry>) {
    forall i, k :: 0 <= i < k < |entries| ==> entries[i].path != entries[k].path
  }

  /** No path is listed twice, neither within a list nor in both. */
  predicate InputFits(input: PlanInput) {
    && !input.mode.Elsewhere? && (input.mode.Repair? ==> input.delete == []) && |input.delete| <= 32
    && (input.instance.recordId == "" <==> input.instance.recordDigest.None?)
    && input.instance.root.Some? != input.instance.parent.Some?
    && DistinctPaths(input.preserve + input.delete)
  }

  predicate PreparedFits(input: PlanInput, target: Manifest) {
    && InputFits(input)
    && target.installed && ValidManifest(target, true)
    && target.dataRoot == input.instance.dataRoot && target.root == input.instance.root && target.parent == input.instance.parent
    && target.binary == Some(input.candidate) && target.enabled == input.instance.enabled && target.run == input.instance.run
    && ScopeFits(input, target)
  }

  function Bind(input: PlanInput): Plan { Plan(input, input) }

  predicate Verified(p: Plan) { p.digest == p.input }

  // ---- Continuing a record ----

  /** What is observed again under the operation lock. */
  datatype Locked = Locked(
    input: PlanInput, target: Manifest, raw: Option<Record>, digest: Option<Record>, legacy: Option<Manifest>, owner: string)

  predicate LegacyFits(legacy: Manifest, target: Manifest) {
    && ValidManifest(legacy, false) && legacy.installed
    && legacy.dataRoot == target.dataRoot && legacy.installRoot == target.installRoot
    && legacy.endpoint == target.endpoint && legacy.credential == target.credential && legacy.root == target.root
  }

  /** The observation under the lock is the one the plan was authorised for. */
  predicate Revalidated(l: Locked, plan: Plan, target: Manifest) {
    && PreparedFits(l.input, l.target) && Bind(l.input) == plan && l.target == target && l.owner != ""
    && (if l.raw.None? then
          && l.digest.None? && l.input.instance.recordId == "" && l.input.instance.recordDigest.None?
          && (l.legacy.Some? ==> LegacyFits(l.legacy.value, l.target))
        else
          && l.legacy.None? && l.digest == l.raw && l.input.instance.recordDigest == l.digest
          && ValidRecord(l.raw.value) && l.raw.value.id == l.input.instance.recordId
          && l.raw.value.scope == l.input.instance.scope)
  }

  /** What the record before leaves installed: its target once complete, its base until then. */
  function BaseAfter(r: Record): Option<Manifest> {
    if !r.complete then r.base else if r.target == EmptyManifest() then None else Some(r.target)
  }

  function NewApplying(id: string, l: Locked, reset: seq<string>): Record {
    match l.raw
    case None => Record(id, false, Some(l.owner), l.input.mode, l.legacy, l.target, reset, None, l.input.instance.scope)
    case Some(current) =>
      Record(id, false, Some(l.owner), l.input.mode, BaseAfter(current), l.target, reset, Some(Ref(current.id, current)), current.scope)
  }

  /** The bound root may replace the parent of a missing one, and nothing else may change. */
  predicate RootBinds(initial: Manifest, bound: Manifest) {
    && ValidManifest(bound, false) && bound.installed
    && (bound == initial
        || (initial.root.None? && initial.parent.Some? && bound.root.Some? && bound.parent.None?
            && bound.(root := None, parent := initial.parent) == initial))
  }

  // ---- Chains of records ----

  /** `r` continues `seed` by any number of executions, or starts a chain if there was none. */
  ghost predicate Descends(r: Record, seed: Option<Record>) {
    || seed == Some(r)
    || match r.supersedes
       case None => seed.None?
       case Some(ref) =>
         && ref.id == ref.digest.id && Descends(ref.digest, seed)
         && r.base == BaseAfter(ref.digest) && r.scope == ref.digest.scope
  }

  /** The nearest record at or behind `r` that completed, before the chain's first record. */
  function LastComplete(r: Record, seed: Option<Record>): Option<Record> {
    if r.complete then Some(r)
    else if seed == Some(r) || r.supersedes.None? then None
    else LastComplete(r.supersedes.value.digest, seed)
  }

  function Origin(r: Record, seed: Option<Record>): Record {
    if seed == Some(r) || r.supersedes.None? then r else Origin(r.supersedes.value.digest, seed)
  }

  /**
    The base of a record is what the last completed execution installed, however many
    interrupted ones lie between; with none it is what the chain began with. The source
    scope never changes.
   */
  lemma {:induction false} ChainKeepsBase(r: Record, seed: Option<Record>)
    requires Descends(r, seed) && !r.complete
    ensures r.scope == Origin(r, seed).scope
    ensures r.base == match LastComplete(r, seed)
                      case Some(done) => BaseAfter(done)
                      case None => Origin(r, seed).base
    decreases r
  {
    if seed != Some(r) && r.supersedes.Some? {
      var before := r.supersedes.value.digest;
      if before.complete {
        ScopeIsOrigins(before, seed);
      } else {
        ChainKeepsBase(before, seed);
      }
    }
  }

  lemma {:induction false} ScopeIsOrigins(r: Record, seed: Option<Record>)
    requires Descends(r, seed)
    ensures r.scope == Origin(r, seed).scope
    decreases r
  {
    if seed != Some(r) && r.supersedes.Some? { ScopeIsOrigins(r.supersedes.value.digest, seed); }
  }

  /** A new record continues exactly the record read under the lock. */
  lemma ApplyingContinues(id: string, l: Locked, reset: seq<string>, plan: Plan, target: Manifest, seed: Option<Record>)
    requires Revalidated(l, plan, target)
    requires match l.raw case None => seed.None? case Some(current) => Descends(current, seed)
    ensures var r := NewApplying(id, l, reset);
            && Descends(r, seed) && r.target == target && !r.complete
            && (l.raw.Some? ==> r.supersedes == Some(Ref(l.raw.value.id, l.raw.value)))
            && (l.raw.None? ==> r.supersedes.None? && r.base == l.legacy && r.scope == plan.input.instance.scope)
  {
  }

  function Depth(r: Record): nat { if r.supersedes.None? then 0 else Depth(r.supersedes.value.digest) + 1 }

  lemma {:induction false} SeedIsOlder(r: Record, seed: Option<Record>)
    requires Descends(r, seed) && seed.Some?
    ensures Depth(seed.value) <= Depth(r)
    decreases r
  {
    if seed != Some(r) { SeedIsOlder(r.supersedes.value.digest, seed); }
  }

  /** Binding the root and completing a record keep what the chain depends on. */
  lemma SameExecution(r: Record, r': Record, l: Locked, seed: Option<Record>)
    requires Descends(r, seed) && (l.raw.None? ==> seed.None?)
    requires l.raw.Some? ==> Descends(l.raw.value, seed) && r.supersedes == Some(Ref(l.raw.value.id, l.raw.value))
    requires r'.base == r.base && r'.supersedes == r.supersedes && r'.scope == r.scope
    ensures Descends(r', seed)
  {
    if seed.Some? { SeedIsOlder(l.raw.value, seed); }
  }
}
