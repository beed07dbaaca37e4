/**
  The settings file is created once, however many processes start together. Each runs
  load, exclusive lock, reload, save, unlock; saves may fail, anyone may die.
 */
module SettingsCreation {
  import opened Options

  datatype Settings = Settings(secret: string, channel: string, bundle: string)

  /** A packaged channel choice, stamped so that it is applied once. */
  datatype Sidecar = NoSidecar | Unreadable | Sidecar(channel: string, stamp: string)

  function DefaultsWith(secret: string): Settings { Settings(secret, "stable", "") }

  /** The settings with the sidecar applied and whether that changed them, or None on an error. */
  function ApplySidecar(s: Settings, sidecar: Sidecar): Option<(Settings, bool)> {
    match sidecar
    case NoSidecar => Some((s, false))
    case Unreadable => None
    case Sidecar(channel, stamp) =>
      if stamp == "" || (channel != "stable" && channel != "alpha") || s.bundle == stamp then Some((s, false))
      else Some((s.(channel := channel, bundle := stamp), true))
  }

  /** A sidecar acts once: applied again it neither changes the file nor reverts a later switch. */
  lemma SidecarActsOnce(s: Settings, sidecar: Sidecar, later: string)
    requires ApplySidecar(s, sidecar).Some?
    ensures var (s1, changed) := ApplySidecar(s, sidecar).value;
            && s1.secret == s.secret
            && (changed ==> ApplySidecar(s1.(channel := later), sidecar) == Some((s1.(channel := later), false)))
            && (!changed ==> s1 == s)
  {
  }

  // ---- The processes ----

  datatype Result = Ok(settings: Settings, created: bool) | Error

  /** Where a process is; `locked` says that it owns the lock file. */
  datatype Stage =
    | Loading
    | Waiting
    | Blocked(retry: bool)
    | Holding
    | Creating
    | Merging(loaded: Settings, locked: bool)
    | Saving(next: Settings, created: bool, locked: bool)
    | Leaving(result: Result, locked: bool)
    | Returned(result: Result)
    | Died(locked: bool)

  datatype Proc = Proc(sidecar: Sidecar, stage: Stage)

  type Pid = nat

  /** `secrets` remembers every secret that a save has committed. */
  datatype System = System(file: Option<Settings>, lock: bool, procs: map<Pid, Proc>, secrets: set<string>)

  /** How an open or a load may fail. */
  datatype Failure = Transient | Fatal

  datatype Move =
    | Arrive(sidecar: Sidecar)
    | Load
    | LoadFails(failure: Failure)
    | TakeLock
    | LockFails(retry: bool)
    | TimeOut
    | DrawSecret(secret: string)
    | Merge
    | Commit
    | SaveFails
    | Leave(removed: bool)
    | Die

  predicate OwnsLock(stage: Stage) {
    stage.Holding? || stage.Creating? || (stage.Merging? && stage.locked) || (stage.Saving? && stage.locked)
    || (stage.Leaving? && stage.locked) || (stage.Died? && stage.locked)
  }

  function To(s: System, p: Pid, stage: Stage): System
    requires p in s.procs
  {
    s.(procs := s.procs[p := s.procs[p].(stage := stage)])
  }

  /** Where a load that found a file leads, at each place that loads. */
  function AfterLoad(s: System, p: Pid): Option<System>
    requires p in s.procs
  {
    var stage := s.procs[p].stage;
    match stage
    case Loading => Some(To(s, p, if s.file.Some? then Merging(s.file.value, false) else Waiting))
    case Blocked(retry) =>
      Some(To(s, p, if s.file.Some? then Merging(s.file.value, false) else if retry then Waiting else Leaving(Error, false)))
    case Holding => Some(To(s, p, if s.file.Some? then Merging(s.file.value, true) else Creating))
    case _ => None
  }

  function AfterLoadFails(s: System, p: Pid, failure: Failure): Option<System>
    requires p in s.procs
  {
    match s.procs[p].stage
    case Loading => Some(To(s, p, if failure.Transient? then Waiting else Leaving(Error, false)))
    case Blocked(retry) => Some(To(s, p, if retry && failure.Transient? then Waiting else Leaving(Error, false)))
    case Holding => Some(To(s, p, if failure.Transient? then Holding else Leaving(Error, true)))
    case _ => None
  }

  function Next(s: System, p: Pid, m: Move): Option<System> {
    if m.Arrive? then
      if p in s.procs then None else Some(s.(procs := s.procs[p := Proc(m.sidecar, Loading)]))
    else if p !in s.procs then None
    else
      var stage := s.procs[p].stage;
      match m
      case Load => AfterLoad(s, p)
      case LoadFails(failure) => AfterLoadFails(s, p, failure)
      case TakeLock => if !stage.Waiting? || s.lock then None else Some(To(s.(lock := true), p, Holding))
      case LockFails(retry) => if !stage.Waiting? then None else Some(To(s, p, Blocked(retry)))
      case TimeOut =>
        if stage.Waiting? then Some(To(s, p, Leaving(Error, false)))
        else if stage.Holding? then Some(To(s, p, Leaving(Error, true)))
        else None
      case DrawSecret(secret) =>
        if !stage.Creating? then None
        else
          (match ApplySidecar(DefaultsWith(secret), s.procs[p].sidecar)
           case None => Some(To(s, p, Leaving(Error, true)))
           case Some((next, _)) => Some(To(s, p, Saving(next, true, true))))
      case Merge =>
        if !stage.Merging? then None
        else
          (match ApplySidecar(stage.loaded, s.procs[p].sidecar)
           case None => Some(To(s, p, Leaving(Error, stage.locked)))
           case Some((next, changed)) =>
             Some(To(s, p, if changed then Saving(next, false, stage.locked) else Leaving(Ok(next, false), stage.locked))))
      case Commit =>
        if !stage.Saving? then None
        else
          var s' := s.(file := Some(stage.next), secrets := s.secrets + {stage.next.secret});
          Some(To(s', p, Leaving(Ok(stage.next, stage.created), stage.locked)))
      case SaveFails => if !stage.Saving? then None else Some(To(s, p, Leaving(Error, stage.locked)))
      case Leave(removed) =>
        if !stage.Leaving? then None
        else Some(To(if stage.locked && removed then s.(lock := false) else s, p, Returned(stage.result)))
      case Die =>
        if stage.Returned? || stage.Died? then None else Some(To(s, p, Died(OwnsLock(stage))))
      case _ => None
  }

  /** The system after any interleaving; a move that is not possible changes nothing. */
  function After(moves: seq<(Pid, Move)>): System {
    if moves == [] then System(None, false, map[], {})
    else
      var s := After(moves[..|moves| - 1]);
      var (p, m) := moves[|moves| - 1];
      match Next(s, p, m)
      case None => s
      case Some(s') => s'
  }

  // ---- The invariant ----

  /** The lock has one owner at most, and exists as long as it is owned. */
  ghost predicate Exclusive(s: System) {
    && (forall p :: p in s.procs && OwnsLock(s.procs[p].stage) ==> s.lock)
    && (forall p, q :: p in s.procs && q in s.procs && OwnsLock(s.procs[p].stage) && OwnsLock(s.procs[q].stage) ==> p == q)
  }

  predicate IsCreating(stage: Stage) { stage.Creating? || (stage.Saving? && stage.created) }

  function ResultOf(stage: Stage): Option<Result> {
    match stage
    case Leaving(result, _) => Some(result)
    case Returned(result) => Some(result)
    case _ => None
  }

  /** The settings a process has in hand, unless it is about to create them. */
  function InHand(stage: Stage): Option<Settings> {
    match stage
    case Merging(loaded, _) => Some(loaded)
    case Saving(next, created, _) => if created then None else Some(next)
    case Leaving(Ok(settings, _), _) => Some(settings)
    case Returned(Ok(settings, _)) => Some(settings)
    case _ => None
  }

  ghost predicate Agrees(s: System, p: Pid)
    requires p in s.procs
  {
    var stage := s.procs[p].stage;
    && (IsCreating(stage) ==> s.file.None? && OwnsLock(stage))
    && (InHand(stage).Some? ==> s.file.Some? && InHand(stage).value.secret == s.file.value.secret)
    && (s.file.Some? ==> s.secrets == {s.file.value.secret})
    && (s.file.None? ==> s.secrets == {})
  }

  predicate HasCreated(stage: Stage) {
    match ResultOf(stage)
    case Some(Ok(_, created)) => created
    case _ => false
  }

  ghost predicate Inv(s: System) {
    && Exclusive(s)
    && (s.file.Some? ==> s.secrets == {s.file.value.secret})
    && (s.file.None? ==> s.secrets == {})
    && (forall p {:trigger Agrees(s, p)} {:trigger p in s.procs} :: p in s.procs ==> Agrees(s, p))
    && (forall p, q :: p in s.procs && q in s.procs && HasCreated(s.procs[p].stage) && HasCreated(s.procs[q].stage) ==> p == q)
  }

  /** A step of `p` that changes neither the file nor what has been created. */
  lemma QuietMove(s: System, p: Pid, stage: Stage, lock: bool)
    requires Inv(s) && p in s.procs
    requires OwnsLock(stage) ==> OwnsLock(s.procs[p].stage) || (!s.lock && lock)
    requires !lock ==> !s.lock || (OwnsLock(s.procs[p].stage) && !OwnsLock(stage))
    requires lock ==> s.lock || OwnsLock(stage)
    requires IsCreating(stage) ==> s.file.None? && OwnsLock(stage)
    requires InHand(stage).Some? ==> s.file.Some? && InHand(stage).value.secret == s.file.value.secret
    requires HasCreated(stage) ==> HasCreated(s.procs[p].stage)
    ensures Inv(To(s.(lock := lock), p, stage))
  {
    var s' := To(s.(lock := lock), p, stage);
    forall q | q in s'.procs ensures Agrees(s', q) { assert Agrees(s, q); }
  }

  lemma ArriveMove(s: System, p: Pid, sidecar: Sidecar)
    requires Inv(s) && p !in s.procs
    ensures Inv(s.(procs := s.procs[p := Proc(sidecar, Loading)]))
  {
    var s' := s.(procs := s.procs[p := Proc(sidecar, Loading)]);
    forall q | q in s'.procs ensures Agrees(s', q) { if q != p { assert Agrees(s, q); } }
  }

  lemma CommitMove(s: System, p: Pid)
    requires Inv(s) && p in s.procs && s.procs[p].stage.Saving?
    ensures Inv(Next(s, p, Commit).value)
  {
    var s' := Next(s, p, Commit).value;
    assert Agrees(s, p);
    forall q | q in s'.procs ensures Agrees(s', q) {
      assert Agrees(s, q);
    }
  }

  lemma MoveKeeps(s: System, p: Pid, m: Move)
    requires Inv(s) && Next(s, p, m).Some?
    ensures Inv(Next(s, p, m).value)
  {
    hide ApplySidecar, Exclusive;
    var s' := Next(s, p, m).value;
    if m.Merge? { SidecarKeepsSecret(s.procs[p].stage.loaded, s.procs[p].sidecar); }
    if m.Arrive? {
      ArriveMove(s, p, m.sidecar);
    } else if m.Commit? {
      CommitMove(s, p);
    } else {
      assert Agrees(s, p);
      QuietMove(s, p, s'.procs[p].stage, s'.lock);
      assert s' == To(s.(lock := s'.lock), p, s'.procs[p].stage);
    }
  }

  lemma SidecarKeepsSecret(s: Settings, sidecar: Sidecar)
    ensures ApplySidecar(s, sidecar).Some? ==> ApplySidecar(s, sidecar).value.0.secret == s.secret
  {
  }

  lemma {:induction false} Reachable(moves: seq<(Pid, Move)>)
    ensures Inv(After(moves))
  {
    hide Inv, Next;
    if moves == [] {
      Empty();
    } else {
      Reachable(moves[..|moves| - 1]);
      var s := After(moves[..|moves| - 1]);
      var (p, m) := moves[|moves| - 1];
      if Next(s, p, m).Some? { MoveKeeps(s, p, m); }
    }
  }

  lemma Empty()
    ensures Inv(System(None, false, map[], {}))
  {
  }

  // ---- The theorems ----

  /**
    In every interleaving: at most one process returns that it created the file, at most
    one secret is ever committed, and every successful return carries exactly that one.
   */
  lemma CreationAgreement(moves: seq<(Pid, Move)>, p: Pid, q: Pid)
    requires var s := After(moves); p in s.procs && q in s.procs && s.procs[p].stage.Returned? && s.procs[q].stage.Returned?
    requires var s := After(moves); s.procs[p].stage.result.Ok? && s.procs[q].stage.result.Ok?
    ensures var s := After(moves);
            var a := s.procs[p].stage.result;
            var b := s.procs[q].stage.result;
            && a.settings.secret == b.settings.secret
            && (a.created && b.created ==> p == q)
            && s.file.Some? && s.file.value.secret == a.settings.secret
            && s.secrets == {a.settings.secret}
  {
    hide After;
    Reachable(moves);
    assert Agrees(After(moves), p) && Agrees(After(moves), q);
  }

  /** Once committed, the secret stays in the file for good. */
  lemma {:induction false} SecretIsFinal(moves: seq<(Pid, Move)>, more: seq<(Pid, Move)>)
    requires After(moves).file.Some?
    ensures After(moves + more).file.Some? && After(moves + more).file.value.secret == After(moves).file.value.secret
    decreases |more|
  {
    hide Inv, Next;
    if more == [] {
      assert moves + more == moves;
    } else {
      var n := |more| - 1;
      SecretIsFinal(moves, more[..n]);
      assert (moves + more)[..|moves + more| - 1] == moves + more[..n];
      Reachable(moves + more[..n]);
      KeepsSecret(After(moves + more[..n]), more[n].0, more[n].1);
    }
  }

  lemma KeepsSecret(s: System, p: Pid, m: Move)
    requires Inv(s) && s.file.Some?
    ensures Next(s, p, m).Some? ==>
              Next(s, p, m).value.file.Some? && Next(s, p, m).value.file.value.secret == s.file.value.secret
  {
    if p in s.procs { assert Agrees(s, p); }
  }

  // ---- Who gets through ----

  function Do(s: System, p: Pid, m: Move): System {
    match Next(s, p, m)
    case None => s
    case Some(s') => s'
  }

  lemma AfterOne(moves: seq<(Pid, Move)>, p: Pid, m: Move)
    ensures After(moves + [(p, m)]) == Do(After(moves), p, m)
  {
    assert (moves + [(p, m)])[..|moves|] == moves;
  }

  /** A sidecar that has something new to say: a stamp the settings do not carry, and a channel that exists. */
  predicate IsNew(sidecar: Sidecar, s: Settings) {
    sidecar.Sidecar? && sidecar.stamp != "" && (sidecar.channel == "stable" || sidecar.channel == "alpha") && s.bundle != sidecar.stamp
  }

  /** With nobody in the way, a process that meets no failure creates the file and frees the lock. */
  lemma LoneProcessCreates(moves: seq<(Pid, Move)>, p: Pid, sidecar: Sidecar, secret: string)
    requires After(moves).file.None? && !After(moves).lock && p !in After(moves).procs && !sidecar.Unreadable?
    ensures var s := After(moves + [(p, Arrive(sidecar))] + [(p, Load)] + [(p, TakeLock)] + [(p, Load)]
                           + [(p, DrawSecret(secret))] + [(p, Commit)] + [(p, Leave(true))]);
            && !s.lock && p in s.procs && s.procs[p].stage.Returned? && s.procs[p].stage.result.Ok?
            && s.procs[p].stage.result.created && s.file == Some(s.procs[p].stage.result.settings)
            && s.file.value == (if IsNew(sidecar, Settings(secret, "stable", "")) then Settings(secret, sidecar.channel, sidecar.stamp)
                                else Settings(secret, "stable", ""))
  {
    hide After;
    var t := moves;
    AfterOne(t, p, Arrive(sidecar));
    t := t + [(p, Arrive(sidecar))];
    AfterOne(t, p, Load);
    t := t + [(p, Load)];
    AfterOne(t, p, TakeLock);
    t := t + [(p, TakeLock)];
    AfterOne(t, p, Load);
    t := t + [(p, Load)];
    AfterOne(t, p, DrawSecret(secret));
    t := t + [(p, DrawSecret(secret))];
    AfterOne(t, p, Commit);
    t := t + [(p, Commit)];
    AfterOne(t, p, Leave(true));
  }

  /** A sidecar with something new to say is merged into the file and into what the process returns. */
  lemma LoneProcessMerges(moves: seq<(Pid, Move)>, p: Pid, sidecar: Sidecar)
    requires After(moves).file.Some? && p !in After(moves).procs && IsNew(sidecar, After(moves).file.value)
    ensures var before := After(moves).file.value;
            var s := After(moves + [(p, Arrive(sidecar))] + [(p, Load)] + [(p, Merge)] + [(p, Commit)] + [(p, Leave(true))]);
            var merged := Settings(before.secret, sidecar.channel, sidecar.stamp);
            && s.file == Some(merged) && p in s.procs && s.procs[p].stage == Returned(Ok(merged, false)) && s.lock == After(moves).lock
  {
    hide After;
    var t := moves;
    AfterOne(t, p, Arrive(sidecar));
    t := t + [(p, Arrive(sidecar))];
    AfterOne(t, p, Load);
    t := t + [(p, Load)];
    AfterOne(t, p, Merge);
    t := t + [(p, Merge)];
    AfterOne(t, p, Commit);
    t := t + [(p, Commit)];
    AfterOne(t, p, Leave(true));
  }

  /** Otherwise the file stays as it is; the process returns it, or an error if its sidecar cannot be read. */
  lemma LoneProcessLoads(moves: seq<(Pid, Move)>, p: Pid, sidecar: Sidecar)
    requires After(moves).file.Some? && p !in After(moves).procs && !IsNew(sidecar, After(moves).file.value)
    ensures var s := After(moves + [(p, Arrive(sidecar))] + [(p, Load)] + [(p, Merge)] + [(p, Leave(true))]);
            && s.file == After(moves).file && p in s.procs && s.lock == After(moves).lock
            && s.procs[p].stage == Returned(if sidecar.Unreadable? then Error else Ok(After(moves).file.value, false))
  {
    hide After;
    var t := moves;
    AfterOne(t, p, Arrive(sidecar));
    t := t + [(p, Arrive(sidecar))];
    AfterOne(t, p, Load);
    t := t + [(p, Load)];
    AfterOne(t, p, Merge);
    t := t + [(p, Merge)];
    AfterOne(t, p, Leave(true));
  }

  /** A process that gets the lock and finds a file does not create: it merges into what is there and frees the lock. */
  lemma LateProcessMerges(moves: seq<(Pid, Move)>, p: Pid)
    requires p in After(moves).procs && After(moves).procs[p].stage.Waiting? && After(moves).file.Some? && !After(moves).lock
    ensures var before := After(moves).file.value;
            var sidecar := After(moves).procs[p].sidecar;
            var loaded := moves + [(p, TakeLock)] + [(p, Load)] + [(p, Merge)];
            if IsNew(sidecar, before) then
              var s := After(loaded + [(p, Commit)] + [(p, Leave(true))]);
              var merged := Settings(before.secret, sidecar.channel, sidecar.stamp);
              !s.lock && s.file == Some(merged) && p in s.procs && s.procs[p].stage == Returned(Ok(merged, false))
            else
              var s := After(loaded + [(p, Leave(true))]);
              && !s.lock && s.file == Some(before) && p in s.procs
              && s.procs[p].stage == Returned(if sidecar.Unreadable? then Error else Ok(before, false))
  {
    hide After;
    var t := moves;
    AfterOne(t, p, TakeLock);
    t := t + [(p, TakeLock)];
    AfterOne(t, p, Load);
    t := t + [(p, Load)];
    AfterOne(t, p, Merge);
    t := t + [(p, Merge)];
    AfterOne(t, p, Commit);
    AfterOne(t + [(p, Commit)], p, Leave(true));
    AfterOne(t, p, Leave(true));
  }

  /** A lock that cannot be taken, now or ever, is an error unless the file is there by then, which is loaded without the lock. */
  lemma RefusedLock(moves: seq<(Pid, Move)>, p: Pid)
    requires p in After(moves).procs && After(moves).procs[p].stage.Waiting?
    ensures var s := After(moves);
            var s' := After(moves + [(p, LockFails(false))] + [(p, Load)]);
            && s'.lock == s.lock && s'.file == s.file && p in s'.procs
            && s'.procs[p].stage == (if s.file.Some? then Merging(s.file.value, false) else Leaving(Error, false))
    ensures var s := After(moves);
            var s' := After(moves + [(p, LockFails(true))] + [(p, Load)]);
            && s'.lock == s.lock && s'.file == s.file && p in s'.procs
            && s'.procs[p].stage == (if s.file.Some? then Merging(s.file.value, false) else Waiting)
  {
    hide After;
    AfterOne(moves, p, LockFails(false));
    AfterOne(moves + [(p, LockFails(false))], p, Load);
    AfterOne(moves, p, LockFails(true));
    AfterOne(moves + [(p, LockFails(true))], p, Load);
  }

  // ---- What failures lead to ----

  /** Where a failed or empty load leads: back to waiting if it may be tried again, to an error if not; under the lock it holds on to it. */
  lemma FailedLoads(s: System, p: Pid, failure: Failure, retry: bool)
    requires p in s.procs
    ensures s.procs[p].stage == Loading ==>
              Next(s, p, LoadFails(failure)) == Some(To(s, p, if failure == Transient then Waiting else Leaving(Error, false)))
    ensures s.procs[p].stage == Blocked(retry) ==>
              Next(s, p, LoadFails(failure)) == Some(To(s, p, if retry && failure == Transient then Waiting else Leaving(Error, false)))
    ensures s.procs[p].stage == Blocked(retry) && s.file.None? ==>
              Next(s, p, Load) == Some(To(s, p, if retry then Waiting else Leaving(Error, false)))
    ensures s.procs[p].stage == Holding ==>
              Next(s, p, LoadFails(failure)) == Some(To(s, p, if failure == Transient then Holding else Leaving(Error, true)))
  {
  }

  /** A fatal load under the lock, a timeout or a failed save ends in an error, and the lock is freed. */
  lemma OwnersErrorFrees(moves: seq<(Pid, Move)>, p: Pid, m: Move)
    requires p in After(moves).procs && OwnsLock(After(moves).procs[p].stage)
    requires var stage := After(moves).procs[p].stage;
             || (stage.Holding? && (m == LoadFails(Fatal) || m == TimeOut))
             || (stage.Saving? && stage.locked && m == SaveFails)
    ensures var s := After(moves + [(p, m)] + [(p, Leave(true))]);
            && !s.lock && s.file == After(moves).file && p in s.procs && s.procs[p].stage == Returned(Error)
  {
    hide After;
    AfterOne(moves, p, m);
    AfterOne(moves + [(p, m)], p, Leave(true));
  }

  // ---- Exactly when creation is blocked ----

  /** There is no file, and the lock belongs to nobody who could still remove it. */
  ghost predicate Abandoned(s: System) {
    s.file.None? && s.lock && forall p :: p in s.procs && OwnsLock(s.procs[p].stage) ==> s.procs[p].stage.Died?
  }

  lemma StaysAbandoned(s: System, p: Pid, m: Move)
    requires Inv(s) && Abandoned(s)
    ensures Next(s, p, m).Some? ==> Abandoned(Next(s, p, m).value)
  {
    hide ApplySidecar;
    if p in s.procs { assert Agrees(s, p); }
  }

  lemma {:induction false} AbandonedForGood(moves: seq<(Pid, Move)>, more: seq<(Pid, Move)>)
    requires Abandoned(After(moves))
    ensures Abandoned(After(moves + more))
    decreases |more|
  {
    hide Next, Inv, Abandoned;
    if more == [] {
      assert moves + more == moves;
    } else {
      var n := |more| - 1;
      AbandonedForGood(moves, more[..n]);
      assert (moves + more)[..|moves + more| - 1] == moves + more[..n];
      Reachable(moves + more[..n]);
      StaysAbandoned(After(moves + more[..n]), more[n].0, more[n].1);
    }
  }

  lemma NewPid(procs: map<Pid, Proc>) returns (p: Pid)
    ensures p !in procs
  {
    p := Bound(procs.Keys);
  }

  ghost function Bound(pids: set<Pid>): (b: nat)
    ensures forall p :: p in pids ==> p < b
  {
    if pids == {} then 0
    else
      var p :| p in pids;
      var rest := Bound(pids - {p});
      assert forall q :: q in pids ==> q == p || q in pids - {p};
      if p < rest then rest else p + 1
  }

  /** With the lock free, somebody can create the file. */
  lemma FreeLockCreates(moves: seq<(Pid, Move)>) returns (more: seq<(Pid, Move)>)
    requires After(moves).file.None? && !After(moves).lock
    ensures After(moves + more).file.Some?
  {
    hide After;
    var p := NewPid(After(moves).procs);
    LoneProcessCreates(moves, p, NoSidecar, "");
    more := [(p, Arrive(NoSidecar)), (p, Load), (p, TakeLock), (p, Load), (p, DrawSecret("")), (p, Commit), (p, Leave(true))];
    assert moves + more == moves + [(p, Arrive(NoSidecar))] + [(p, Load)] + [(p, TakeLock)] + [(p, Load)]
                                 + [(p, DrawSecret(""))] + [(p, Commit)] + [(p, Leave(true))];
  }

  /** A live owner that is about to leave removes the lock, and then somebody can create the file. */
  lemma LeavingOwnerFrees(moves: seq<(Pid, Move)>, p: Pid) returns (more: seq<(Pid, Move)>)
    requires After(moves).file.None? && p in After(moves).procs
    requires After(moves).procs[p].stage.Leaving? && After(moves).procs[p].stage.locked
    ensures After(moves + more).file.Some?
  {
    hide After;
    AfterOne(moves, p, Leave(true));
    var rest := FreeLockCreates(moves + [(p, Leave(true))]);
    more := [(p, Leave(true))] + rest;
    assert moves + more == moves + [(p, Leave(true))] + rest;
  }

  /** Whatever a live owner is doing, there is a way on which a file appears. */
  lemma LiveOwnerCreates(moves: seq<(Pid, Move)>, p: Pid) returns (more: seq<(Pid, Move)>)
    requires After(moves).file.None? && p in After(moves).procs
    requires OwnsLock(After(moves).procs[p].stage) && !After(moves).procs[p].stage.Died?
    ensures After(moves + more).file.Some?
  {
    hide After, Inv;
    var s := After(moves);
    var stage := s.procs[p].stage;
    OwnerAgrees(moves, p);
    if stage.Leaving? {
      more := LeavingOwnerFrees(moves, p);
    } else if stage.Saving? {
      AfterOne(moves, p, Commit);
      more := [(p, Commit)];
    } else {
      var first := if stage.Holding? then TimeOut else DrawSecret("");
      AfterOne(moves, p, first);
      var next := After(moves + [(p, first)]);
      var rest;
      if next.procs[p].stage.Saving? {
        AfterOne(moves + [(p, first)], p, Commit);
        rest := [(p, Commit)];
      } else {
        rest := LeavingOwnerFrees(moves + [(p, first)], p);
      }
      more := [(p, first)] + rest;
      assert moves + more == moves + [(p, first)] + rest;
    }
  }

  lemma OwnerAgrees(moves: seq<(Pid, Move)>, p: Pid)
    requires p in After(moves).procs && After(moves).file.None?
    ensures !After(moves).procs[p].stage.Merging?
  {
    hide After;
    Reachable(moves);
    assert Agrees(After(moves), p);
  }

  /**
    Creation is blocked for good, on every continuation, if and only if there is no file
    and the lock is there without a live owner: its owner died before the save, or left
    without being able to remove it.
   */
  lemma BlockedIsExact(moves: seq<(Pid, Move)>)
    ensures (forall more :: After(moves + more).file.None?) <==> Abandoned(After(moves))
  {
    hide After;
    var s := After(moves);
    if Abandoned(s) {
      forall more ensures After(moves + more).file.None? { AbandonedForGood(moves, more); }
    } else {
      var more;
      if s.file.Some? {
        more := [];
        assert moves + more == moves;
      } else if !s.lock {
        more := FreeLockCreates(moves);
      } else {
        var p :| p in s.procs && OwnsLock(s.procs[p].stage) && !s.procs[p].stage.Died?;
        more := LiveOwnerCreates(moves, p);
      }
      assert After(moves + more).file.Some?;
    }
  }

  /** A lock that could not be removed after a failed save blocks creation without any death. */
  lemma LockLeftBehind(p: Pid, secret: string)
    ensures var moves := [(p, Arrive(NoSidecar))] + [(p, Load)] + [(p, TakeLock)] + [(p, Load)]
                         + [(p, DrawSecret(secret))] + [(p, SaveFails)] + [(p, Leave(false))];
            Abandoned(After(moves)) && p in After(moves).procs && After(moves).procs[p].stage == Returned(Error)
  {
    hide After;
    NothingYet();
    var t: seq<(Pid, Move)> := [];
    AfterOne(t, p, Arrive(NoSidecar));
    t := t + [(p, Arrive(NoSidecar))];
    AfterOne(t, p, Load);
    t := t + [(p, Load)];
    AfterOne(t, p, TakeLock);
    t := t + [(p, TakeLock)];
    AfterOne(t, p, Load);
    t := t + [(p, Load)];
    AfterOne(t, p, DrawSecret(secret));
    t := t + [(p, DrawSecret(secret))];
    AfterOne(t, p, SaveFails);
    t := t + [(p, SaveFails)];
    AfterOne(t, p, Leave(false));
    assert [] + [(p, Arrive(NoSidecar))] == [(p, Arrive(NoSidecar))];
  }

  lemma NothingYet()
    ensures After([]) == System(None, false, map[], {})
  {
  }
}
