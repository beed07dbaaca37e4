/**
  The exact conditions on programs that the service adapters journal, and concrete inputs
  on which rollback goes wrong.
 */
module InstallAccuracy {
  import opened Options
  import opened InstallJournal
  import opened InstallEngine
  import opened InstallRollback
  import opened InstallRollforward
  import opened InstallAtomicity
  import opened InstallPlans
  import opened InstallExactness
  import opened InstallOutcomes

  function Disabling(): Action { ServiceAction(Disable, "enabled", "disabled") }

  function Masks(): Action { ServiceAction(Mask, "unmasked", "masked") }

  function Stops(): Action { ServiceAction(Stop, "running", "stopped") }

  ghost predicate HasSwitches(world: World, enabled: bool) {
    && CanReload(world) && Switch(Masking) in world && Switch(Running) in world
    && (enabled ==> Switch(Enablement) in world)
  }

  /** The scene before the mask, before the reload and before the stop. */
  function Unlinked(world: World, enabled: bool): Scene {
    var s := Scene([], world, false);
    if enabled then Performed(s, Disabling()) else s
  }

  function Masked(world: World, enabled: bool): Scene { Performed(Unlinked(world, enabled), Masks()) }

  lemma StopScenes(world: World, enabled: bool)
    requires HasSwitches(world, enabled)
    ensures var p := SystemdStop(enabled);
            var n := if enabled then 1 else 0;
            && |p| == n + 3 && (enabled ==> p[0] == Do(Disabling()))
            && p[n] == Do(Masks()) && p[n + 1] == DoReload && p[n + 2] == Do(Stops())
            && SceneAfter(p[..0], world) == Scene([], world, false)
            && SceneAfter(p[..n], world) == Unlinked(world, enabled)
            && SceneAfter(p[..n + 1], world) == Masked(world, enabled)
            && SceneAfter(p[..n + 2], world) == After(DoReload, Masked(world, enabled))
  {
    hide Performed, SceneAfter;
    var p := SystemdStop(enabled);
    var n := if enabled then 1 else 0;
    assert p[..0] == [] && SceneAfter([], world) == Scene([], world, false) by { NothingAfter(world); }
    if enabled { SceneGrows(p, world, 0); }
    SceneGrows(p, world, n);
    SceneGrows(p, world, n + 1);
  }

  lemma NothingAfter(world: World)
    ensures SceneAfter([], world) == Scene([], world, false)
  {
  }

  /** Each hook is about a switch of its own. */
  lemma StopTokens(world: World, enabled: bool)
    requires HasSwitches(world, enabled)
    ensures KeyOf(Disabling()) == Switch(Enablement) && KeyOf(Masks()) == Switch(Masking) && KeyOf(Stops()) == Switch(Running)
    ensures Truthful(Do(Masks()), Unlinked(world, enabled)) <==> world[Switch(Masking)] == Text("unmasked")
    ensures Truthful(Do(Stops()), After(DoReload, Masked(world, enabled))) <==> world[Switch(Running)] == Text("running")
    ensures enabled ==> (Truthful(Do(Disabling()), Scene([], world, false)) <==> world[Switch(Enablement)] == Text("enabled"))
  {
  }

  lemma IntactClaims(a: Action, s: Scene, original: World, d: DataAction, subjects: set<Subject>)
    requires Intact(s, original, subjects) && SubjectOf(a.kind) in subjects && Reversible(a, d) && KeyOf(a) in original
    ensures ClaimStep(Do(a), s, original, d)
  {
    assert !Journaled(s.actions, KeyOf(a));
    forall k | 0 <= k < |s.actions| && IsForward(s.actions[k]) ensures !SameIdentity(s.actions[k], a) {
      if SameIdentity(s.actions[k], a) { SameKey(s.actions[k], a); }
    }
  }

  lemma StopsAreReversible(d: DataAction)
    ensures Reversible(Disabling(), d) && Reversible(Masks(), d) && Reversible(Stops(), d)
    ensures SubjectOf(Disable) == Enablement && SubjectOf(Mask) == Masking && SubjectOf(Stop) == Running && SubjectOf(Reload) == Reloads
  {
  }

  lemma StopClaims(world: World, enabled: bool, d: DataAction)
    requires HasSwitches(world, enabled)
    ensures Claims(SystemdStop(enabled), world, d)
  {
    hide Intact, Reversible, Performed, ClaimStep, KeyOf, SceneAfter;
    var p := SystemdStop(enabled);
    var n := if enabled then 1 else 0;
    var s := Scene([], world, false);
    StopScenes(world, enabled);
    StopTokens(world, enabled);
    StopsAreReversible(d);
    SwitchesIntact(world);
    if enabled {
      IntactClaims(Disabling(), s, world, d, SWITCHES);
      OthersStayIntact(s, Disabling(), world, {Masking, Running}) by { Narrower(s, world, SWITCHES, {Masking, Running}); }
    } else {
      Narrower(s, world, SWITCHES, {Masking, Running});
    }
    var u := Unlinked(world, enabled);
    IntactClaims(Masks(), u, world, d, {Masking, Running});
    Narrower(u, world, {Masking, Running}, {Running});
    OthersStayIntact(u, Masks(), world, {Running});
    var m := Masked(world, enabled);
    OthersStayIntact(m, ReloadAction(m.world, Reload), world, {Running});
    IntactClaims(Stops(), After(DoReload, m), world, d, {Running});
    assert ClaimStep(DoReload, m, world, d) by { ReloadClaims(m, world, d); }
    forall k | 0 <= k < |p| ensures ClaimStep(p[k], SceneAfter(p[..k], world), world, d) {
      assert k == n + 2 || k == n + 1 || k == n || (enabled && k == 0);
    }
  }

  lemma ReloadClaims(s: Scene, original: World, d: DataAction)
    ensures ClaimStep(DoReload, s, original, d)
  {
  }

  /** The first hook that does not find what it expects finds what it wants to leave. */
  predicate StopSpoilt(world: World, enabled: bool)
    requires Switch(Masking) in world && Switch(Running) in world && (enabled ==> Switch(Enablement) in world)
  {
    var linked := enabled ==> world[Switch(Enablement)] == Text("enabled");
    || (enabled && world[Switch(Enablement)] == Text("disabled"))
    || (linked && world[Switch(Masking)] == Text("masked"))
    || (linked && world[Switch(Masking)] == Text("unmasked") && world[Switch(Running)] == Text("stopped"))
  }

  lemma StopSpoils(world: World, enabled: bool)
    requires HasSwitches(world, enabled)
    ensures (exists k :: Spoils(SystemdStop(enabled), world, k)) <==> StopSpoilt(world, enabled)
  {
    hide SceneAfter, Performed, Truthful, KeyOf;
    var p := SystemdStop(enabled);
    var n := if enabled then 1 else 0;
    StopScenes(world, enabled);
    StopTokens(world, enabled);
    assert Truthful(DoReload, Masked(world, enabled)) by { ReloadIsTrue(Masked(world, enabled)); }
    if enabled && world[Switch(Enablement)] == Text("disabled") { assert Spoils(p, world, 0); }
    if (enabled ==> world[Switch(Enablement)] == Text("enabled")) && world[Switch(Masking)] == Text("masked") {
      assert Spoils(p, world, n);
    }
    if (enabled ==> world[Switch(Enablement)] == Text("enabled"))
       && world[Switch(Masking)] == Text("unmasked") && world[Switch(Running)] == Text("stopped") {
      assert Spoils(p, world, n + 2);
    }
    if k: nat :| Spoils(p, world, k) {
      assert k == n + 2 || k == n || (enabled && k == 0);
      if enabled && k > 0 { assert Truthful(p[0], SceneAfter(p[..0], world)); }
      if k > n { assert Truthful(p[n], SceneAfter(p[..n], world)); }
    }
  }

  lemma ReloadIsTrue(s: Scene)
    ensures Truthful(DoReload, s)
  {
  }

  ghost predicate TwoTokens(world: World, enabled: bool) {
    && HasSwitches(world, enabled)
    && (world[Switch(Masking)] == Text("masked") || world[Switch(Masking)] == Text("unmasked"))
    && (world[Switch(Running)] == Text("stopped") || world[Switch(Running)] == Text("running"))
    && (enabled ==> world[Switch(Enablement)] == Text("disabled") || world[Switch(Enablement)] == Text("enabled"))
  }

  /**
    Stopping a systemd service: every history is atomic if and only if the service is not
    masked already, not stopped already, and, with an autostart link, not disabled already.
   */
  lemma SystemdStopIsExact(world: World, enabled: bool, j: Journal, p: Policy)
    requires FreshJournal(j) && HasSwitches(world, enabled)
    ensures AlwaysAtomic(world, j, SystemdStop(enabled), p) <==> !StopSpoilt(world, enabled)
    ensures TwoTokens(world, enabled) ==>
              (AlwaysAtomic(world, j, SystemdStop(enabled), p) <==>
                 && world[Switch(Masking)] != Text("masked") && world[Switch(Running)] != Text("stopped")
                 && (enabled ==> world[Switch(Enablement)] != Text("disabled")))
  {
    hide AlwaysAtomic, Claims, Spoils, SystemdStop;
    StopClaims(world, enabled, j.dataAction);
    ProgramIsExact(SystemdStop(enabled), world, j, p);
    StopSpoils(world, enabled);
  }

  /** Stopping a stopped service: a crash behind the intent, and recovery starts it. */
  lemma StopOfStoppedService(j: Journal, p: Policy)
    requires FreshJournal(j)
    ensures var world := map[Switch(Masking) := Text("unmasked"), Switch(Running) := Text("stopped"), RELOAD_KEY := ReloadAt(0)];
            !AlwaysAtomic(world, j, SystemdStop(false), p)
  {
    hide AlwaysAtomic, SystemdStop;
    var world := map[Switch(Masking) := Text("unmasked"), Switch(Running) := Text("stopped"), RELOAD_KEY := ReloadAt(0)];
    SystemdStopIsExact(world, false, j, p);
  }

  // ---- Mask, then unmask ----

  function Unmasks(): Action { ServiceAction(Unmask, "masked", "unmasked") }

  /** Accurate tokens and distinct identities are not enough, whatever follows. */
  lemma MaskThenUnmask(j: Journal, p: Policy, rest: seq<Instr>)
    requires FreshJournal(j)
    ensures var original := map[Switch(Masking) := Text("unmasked"), RELOAD_KEY := ReloadAt(0)];
            exists fates :: !Atomic(original, j, [Do(Masks())] + [Do(Unmasks())] + rest, [Proceed, Proceed, Proceed, Proceed, Refuse],
                                    false, p, [Attempt(fates, false)], [])
  {
    hide Atomic, Reversible;
    var original := map[Switch(Masking) := Text("unmasked"), RELOAD_KEY := ReloadAt(0)];
    var plan := [Do(Masks())];
    var s := SceneAfter(plan, original);
    assert KeyOf(Masks()) == Switch(Masking) && KeyOf(Unmasks()) == Switch(Masking);
    assert plan[1..] == [] && s == Performed(Scene([], original, false), Masks());
    assert s.actions == [Masks().(seqNo := 1, status := Done)];
    assert IsForward(s.actions[0]);
    assert Plan(plan, original, j.dataAction) by { MaskIsPlan(j.dataAction); }
    assert Behind(Unmasks(), s, original, j.dataAction) by { UnmaskIsReversible(j.dataAction); }
    assert Costs(plan) == 3 && ProceedThenRefuse(4) == [Proceed, Proceed, Proceed, Proceed, Refuse];
    var fates := ReturnFails(plan, Do(Unmasks()), Unmasks(), rest, original, j, p);
  }

  lemma UnmaskIsReversible(d: DataAction)
    ensures Reversible(Unmasks(), d)
  {
  }

  lemma MaskIsPlan(d: DataAction)
    ensures Plan([Do(Masks())], map[Switch(Masking) := Text("unmasked"), RELOAD_KEY := ReloadAt(0)], d)
  {
    var original := map[Switch(Masking) := Text("unmasked"), RELOAD_KEY := ReloadAt(0)];
    var s := Scene([], original, false);
    assert [Do(Masks())][1..] == [];
    assert Undoable(Masks(), s, original, d) && Sturdy(Masks(), s.actions);
    assert PlanFrom([], After(Do(Masks()), s), original, d);
  }
}
