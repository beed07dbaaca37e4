/**
  Safety of the validation handshake in every interleaving of installers, recoveries
  and children, any of which may die at any moment.
 */
module ValidationSafety {
  import opened Options
  import opened InstallJournal
  import opened ValidationHandshake

  /** Not named by the launch record of its transaction, a child cannot enter its run. */
  ghost predicate Unnamed(s: System, x: Process) {
    && x in s.children && !s.children[x].stage.InRun? && !s.children[x].ran
    && (s.children[x].native.tx in s.launches ==> s.launches[s.children[x].native.tx].child != x)
  }

  ghost predicate Attended(s: System, x: Process) {
    s.owner.Some? && StageChild(s.owner.value.stage) == x
  }

  /** Its installer is gone, and the stored documents still lead recovery to it. */
  ghost predicate Orphan(s: System, x: Process) {
    && x in s.children
    && (s.owner.None? || s.owner.value.stage.Recovering?)
    && s.journal.Some? && s.journal.value.tx == s.children[x].native.tx
    && !ValidationOver(s.journal.value)
    && s.journal.value.tx in s.launches
    && s.launches[s.journal.value.tx].child == x
    && LaunchLoads(s.launches[s.journal.value.tx], s.journal.value)
  }

  ghost predicate Known(s: System) {
    && (forall x :: x in s.children ==> ValidStart(x) && x in s.processes && s.children[x].native.tx in s.transactions)
    && (s.journal.Some? ==> s.journal.value.tx in s.transactions)
    && s.launches.Keys <= s.transactions && s.readies.Keys <= s.transactions
    && s.emptyReads <= s.transactions && s.activations.Keys <= s.transactions
    && (s.owner.Some? ==> ValidStart(s.owner.value.self))
  }

  /** A transaction starts one child, and its launch record names that one or nobody. */
  ghost predicate OneChild(s: System) {
    && (forall x, y :: x in s.children && y in s.children && s.children[x].native.tx == s.children[y].native.tx ==> x == y)
    && (forall t :: t in s.launches ==>
          s.launches[t].child == NOBODY
          || (s.launches[t].child in s.children && s.children[s.launches[t].child].native.tx == t))
  }

  ghost predicate RanNamed(s: System, x: Process)
    requires x in s.children
  {
    var c := s.children[x];
    && (c.stage.InRun? ==> c.ran && c.stage.journal.tx == c.native.tx)
    && (c.stage.Loaded? ==> c.stage.journal.tx == c.native.tx)
    && (c.ran ==> c.native.tx in s.launches && s.launches[c.native.tx].child == x)
  }

  /** A child that entered its run is the one its launch record names. */
  ghost predicate OnlyNamedRan(s: System) {
    forall x {:trigger RanNamed(s, x)} {:trigger x in s.children} :: x in s.children ==> RanNamed(s, x)
  }

  /** Every live child is unnamed, attended by its installer, or found by recovery. */
  ghost predicate Accounted(s: System) {
    forall x :: x in s.children && !s.children[x].stage.Exited? ==> Unnamed(s, x) || Attended(s, x) || Orphan(s, x)
  }

  ghost predicate Fresh(s: System, tx: string) {
    && (forall x :: x in s.children ==> s.children[x].native.tx != tx)
    && tx !in s.readies && tx !in s.emptyReads && tx !in s.activations
  }

  /** The stored documents are those of the owner's validation, and name `named`. */
  ghost predicate Documents(s: System, o: Owner, named: Process) {
    && s.journal.Some?
    && var j := s.journal.value;
    && j.phase.DefinitionCommitted? && PendingNonce(j.actions) == HashOf(o.nonce) && !ValidationOver(j)
    && j.tx in s.launches && s.launches[j.tx] == LaunchOf(o, j, named)
    && j.tx !in s.emptyReads && j.tx !in s.activations
  }

  ghost predicate OwnChild(s: System, o: Owner, x: Process) {
    s.journal.Some? && x in s.children && s.children[x].native.tx == s.journal.value.tx && s.children[x].native.parent == o.self
  }

  ghost predicate AtPreparing(s: System) {
    s.journal.Some? && Fresh(s, s.journal.value.tx) && s.journal.value.tx !in s.launches && s.journal.value.actions == []
  }

  ghost predicate AtIntended(s: System, o: Owner) {
    && s.journal.Some? && Fresh(s, s.journal.value.tx) && s.journal.value.tx !in s.launches
    && s.journal.value.phase.DefinitionCommitted? && PendingNonce(s.journal.value.actions) == HashOf(o.nonce)
    && !ValidationOver(s.journal.value)
  }

  ghost predicate AtLaunched(s: System, o: Owner) { Documents(s, o, NOBODY) && Fresh(s, s.journal.value.tx) }

  /** A journal the child has read is the one still stored. */
  ghost predicate AtSpawned(s: System, o: Owner, x: Process, named: Process) {
    && Documents(s, o, named) && OwnChild(s, o, x)
    && (s.children[x].stage.Loaded? ==> s.children[x].stage.journal == s.journal.value)
  }

  ghost predicate AtMatched(s: System, o: Owner, x: Process) {
    Documents(s, o, x) && OwnChild(s, o, x) && Vouched(s, x, s.journal.value)
  }

  ghost predicate AtReaped(s: System, x: Process) {
    && s.journal.Some? && s.journal.value.tx !in s.activations
    && Vouched(s, x, s.journal.value) && s.children[x].stage == Exited(true)
  }

  ghost predicate AtFailing(s: System, o: Owner, x: Process) {
    x in s.children && !s.children[x].stage.Exited? && !Unnamed(s, x) ==>
      && s.journal.Some? && s.children[x].native.tx == s.journal.value.tx && !ValidationOver(s.journal.value)
      && s.journal.value.tx in s.launches && s.launches[s.journal.value.tx] == LaunchOf(o, s.journal.value, x)
  }

  /** What the lock holder may rely on. */
  ghost predicate StageHolds(s: System, o: Owner) {
    match o.stage
    case Recovering | Rolling | Settled | Committed => true
    case Preparing => AtPreparing(s)
    case Intended => AtIntended(s, o)
    case Launched => AtLaunched(s, o)
    case Spawned(x) => AtSpawned(s, o, x, NOBODY)
    case Named(x) => AtSpawned(s, o, x, x)
    case Framed(x) => AtSpawned(s, o, x, x)
    case Matched(x) => AtMatched(s, o, x)
    case Reaped(x) => AtReaped(s, x)
    case Finished(x) => AtReaped(s, x)
    case Failing(x) => AtFailing(s, o, x)
  }

  ghost predicate AtStage(s: System) { s.owner.Some? ==> StageHolds(s, s.owner.value) }

  /** The child's own ready document vouches for this transaction's candidate. */
  ghost predicate Vouched(s: System, x: Process, j: View) {
    && j.tx in s.readies && ReadyMatches(j, s.readies[j.tx]) && s.readies[j.tx].daemon == x
    && x in s.children && s.children[x].native.tx == j.tx && s.children[x].ran
  }

  ghost predicate ReadyIsReal(s: System) {
    forall t :: t in s.readies ==>
      && s.readies[t].tx == t && s.readies[t].daemon in s.children
      && s.children[s.readies[t].daemon].native.tx == t && s.children[s.readies[t].daemon].ran
  }

  /** Recovery that read an empty child name was right: none of that transaction ever ran. */
  ghost predicate EmptyIsTrue(s: System) {
    forall t :: t in s.emptyReads ==>
      && (t in s.launches ==> s.launches[t].child == NOBODY)
      && (forall x :: x in s.children && s.children[x].native.tx == t ==> !s.children[x].ran)
  }

  ghost predicate ActivatedAreValidated(s: System) {
    forall t :: t in s.activations ==>
      && s.activations[t].tx == t && t in s.readies
      && Vouched(s, s.readies[t].daemon, s.activations[t]) && s.children[s.readies[t].daemon].stage == Exited(true)
  }

  /** The part of the invariant that does not depend on who holds the lock. */
  ghost predicate Records(s: System) {
    && Known(s) && OneChild(s) && OnlyNamedRan(s) && ReadyIsReal(s) && EmptyIsTrue(s) && ActivatedAreValidated(s)
  }

  ghost predicate Inv(s: System) { Records(s) && Accounted(s) && AtStage(s) }

  lemma InitialHolds()
    ensures Inv(Initial())
  {
  }

  // ---- Steps that change one child ----

  function Updated(s: System, x: Process, c: Child): System { s.(children := s.children[x := c]) }

  /** A child only moves on: it keeps its identity, an exit is final, and it runs only if named. */
  ghost predicate MovesOn(s: System, x: Process, c: Child) {
    && x in s.children && c.native == s.children[x].native
    && (s.children[x].stage.Exited? ==> c.stage == s.children[x].stage)
    && (s.children[x].ran ==> c.ran)
    && (c.ran ==> c.native.tx in s.launches && s.launches[c.native.tx].child == x)
    && (c.stage.InRun? ==> c.ran && c.stage.journal.tx == c.native.tx)
    && (c.stage.Loaded? ==> c.stage.journal.tx == c.native.tx)
  }

  lemma UpdateNamed(s: System, x: Process, c: Child)
    requires Known(s) && OneChild(s) && OnlyNamedRan(s) && MovesOn(s, x, c)
    ensures Known(Updated(s, x, c)) && OneChild(Updated(s, x, c)) && OnlyNamedRan(Updated(s, x, c))
  {
    var s' := Updated(s, x, c);
    forall y | y in s'.children ensures RanNamed(s', y) { assert RanNamed(s, y); }
  }

  lemma UpdateClaims(s: System, x: Process, c: Child)
    requires Known(s) && ReadyIsReal(s) && EmptyIsTrue(s) && MovesOn(s, x, c)
    ensures ReadyIsReal(Updated(s, x, c)) && EmptyIsTrue(Updated(s, x, c))
  {
    var s' := Updated(s, x, c);
    forall t | t in s'.emptyReads
      ensures forall y :: y in s'.children && s'.children[y].native.tx == t ==> !s'.children[y].ran
    {
      assert t in s.launches ==> s.launches[t].child == NOBODY;
    }
  }

  lemma UpdateActivated(s: System, x: Process, c: Child)
    requires ActivatedAreValidated(s) && MovesOn(s, x, c)
    ensures ActivatedAreValidated(Updated(s, x, c))
  {
  }

  lemma UpdateRecords(s: System, x: Process, c: Child)
    requires Records(s) && MovesOn(s, x, c)
    ensures Records(Updated(s, x, c))
  {
    hide Known, OneChild, OnlyNamedRan, ReadyIsReal, EmptyIsTrue, ActivatedAreValidated, MovesOn, Updated;
    UpdateNamed(s, x, c);
    UpdateClaims(s, x, c);
    UpdateActivated(s, x, c);
  }

  lemma UpdateAccounted(s: System, x: Process, c: Child)
    requires Accounted(s) && MovesOn(s, x, c)
    requires c.stage.Exited? || (Unnamed(s, x) && !c.ran && !c.stage.InRun?) || Attended(s, x) || Orphan(s, x)
    ensures Accounted(Updated(s, x, c))
  {
    var s' := Updated(s, x, c);
    forall y | y in s'.children && !s'.children[y].stage.Exited?
      ensures Unnamed(s', y) || Attended(s', y) || Orphan(s', y)
    {
      if y != x { assert Unnamed(s, y) || Attended(s, y) || Orphan(s, y); }
    }
  }

  lemma UpdateElsewhere(s: System, x: Process, c: Child)
    requires AtStage(s) && x in s.children && c.native == s.children[x].native && !Attended(s, x)
    ensures AtStage(Updated(s, x, c))
  {
    hide ReadyMatches, ValidationOver, PendingNonce;
  }

  /** The child the owner attends moves on. */
  lemma UpdateAttended(s: System, x: Process, c: Child)
    requires AtStage(s) && Attended(s, x) && MovesOn(s, x, c)
    requires c.stage.Exited? || !s.children[x].stage.Exited?
    requires Unnamed(s, x) ==> !c.ran && !c.stage.InRun?
    requires c.stage.Loaded? ==> Some(c.stage.journal) == s.journal || c.stage == s.children[x].stage
    ensures AtStage(Updated(s, x, c))
  {
    hide ReadyMatches, ValidationOver, PendingNonce;
  }

  lemma KillKeeps(s: System, x: Process, clean: bool)
    requires Inv(s)
    ensures Inv(Kill(s, x, clean))
  {
    hide Records, Accounted, AtStage;
    if x in s.children && !s.children[x].stage.Exited? {
      var c := s.children[x].(stage := Exited(clean));
      assert MovesOn(s, x, c) by { RecordsOf(s, x); }
      UpdateRecords(s, x, c);
      UpdateAccounted(s, x, c);
      if Attended(s, x) { UpdateAttended(s, x, c); } else { UpdateElsewhere(s, x, c); }
    }
  }

  lemma RecordsOf(s: System, x: Process)
    requires Records(s) && x in s.children
    ensures RanNamed(s, x) && ValidStart(x)
  {
  }

  // ---- Steps of the children ----

  /** A step of a child that does not enter its run, or is named when it does. */
  lemma ChildMoves(s: System, x: Process, c: Child)
    requires Inv(s) && MovesOn(s, x, c) && !s.children[x].stage.Exited? && !c.stage.Exited?
    requires Unnamed(s, x) ==> !c.ran && !c.stage.InRun?
    requires c.stage.Loaded? ==> Some(c.stage.journal) == s.journal || c.stage == s.children[x].stage
    ensures Inv(Updated(s, x, c))
  {
    hide Records, AtStage, MovesOn;
    MovesKeepNative(s, x, c);
    UpdateRecords(s, x, c);
    UpdateAccounted(s, x, c);
    if Attended(s, x) { UpdateAttended(s, x, c); } else { UpdateElsewhere(s, x, c); }
  }

  lemma MovesKeepNative(s: System, x: Process, c: Child)
    requires MovesOn(s, x, c)
    ensures x in s.children && c.native == s.children[x].native
  {
  }

  lemma ChildKeeps(s: System, l: Label)
    requires Inv(s) && (l.Receive? || l.LoadJournal? || l.Enter? || l.Exit?) && NextChild(s, l).Some?
    ensures Inv(NextChild(s, l).value)
  {
    hide Records, Accounted, AtStage, JournalAdmits;
    var x := l.who;
    var c := s.children[x];
    RecordsOf(s, x);
    match l
    case Receive(_) => ChildMoves(s, x, c.(stage := Received(c.inbox.value)));
    case LoadJournal(_) =>
      if s.journal.None? || !JournalAdmits(c.native, x, s.journal.value) {
        KillKeeps(s, x, false);
      } else {
        AdmitsSameTransaction(c.native, x, s.journal.value);
        ChildMoves(s, x, c.(stage := Loaded(c.stage.frame, s.journal.value)));
      }
    case Enter(_) =>
      var j := c.stage.journal;
      if j.tx !in s.launches || !LaunchAdmits(c.native, x, j, s.launches[j.tx]) || !FrameAdmits(c.native, j, c.stage.frame) {
        KillKeeps(s, x, false);
      } else {
        ChildMoves(s, x, c.(stage := InRun(j), ran := true, admitted := Some(c.stage.frame)));
      }
    case Exit(_, clean) => KillKeeps(s, x, clean);
  }

  lemma AdmitsSameTransaction(n: Native, self: Process, j: View)
    requires JournalAdmits(n, self, j)
    ensures j.tx == n.tx
  {
  }

  /** Whatever is written to a child's pipe changes nothing the invariant depends on. */
  lemma ForgeKeeps(s: System, l: Label)
    requires Inv(s) && l.Forge? && NextChild(s, l).Some?
    ensures Inv(NextChild(s, l).value)
  {
    hide Records, Accounted, AtStage;
    var x := l.who;
    var c := s.children[x].(inbox := Some(l.frame));
    RecordsOf(s, x);
    NobodyIsNoChild(s);
    MailKeeps(s, x, c);
    GuessesDoNotMatter(Updated(s, x, c), s.guesses + {l.frame.nonce});
  }

  lemma MailKeeps(s: System, x: Process, c: Child)
    requires Inv(s) && x in s.children && c == s.children[x].(inbox := c.inbox)
    ensures Inv(Updated(s, x, c))
  {
    hide Records, AtStage;
    RecordsOf(s, x);
    UpdateRecords(s, x, c);
    UpdateAccounted(s, x, c);
    if Attended(s, x) { UpdateAttended(s, x, c); } else { UpdateElsewhere(s, x, c); }
  }

  lemma GuessesDoNotMatter(s: System, guesses: set<string>)
    requires Inv(s)
    ensures Inv(s.(guesses := guesses))
  {
    hide Records, ReadyMatches, ValidationOver, PendingNonce;
    var s' := s.(guesses := guesses);
    NobodyIsNoChild(s);
    GrowsRecords(s, s');
    ControlAccounted(s, s');
  }

  function Announced(s: System, r: Ready): System { s.(readies := s.readies[r.tx := r]) }

  lemma PublishRecords(s: System, x: Process, r: Ready)
    requires Known(s) && OneChild(s) && OnlyNamedRan(s) && EmptyIsTrue(s) && x in s.children && s.children[x].native.tx == r.tx
    ensures var s' := Announced(s, r); Known(s') && OneChild(s') && OnlyNamedRan(s') && EmptyIsTrue(s')
  {
    var s' := Announced(s, r);
    forall y | y in s'.children ensures RanNamed(s', y) { assert RanNamed(s, y); }
  }

  lemma PublishClaims(s: System, x: Process, r: Ready)
    requires ReadyIsReal(s) && ActivatedAreValidated(s)
    requires x in s.children && s.children[x].native.tx == r.tx && s.children[x].ran && r.daemon == x && r.tx !in s.readies
    ensures ReadyIsReal(Announced(s, r)) && ActivatedAreValidated(Announced(s, r))
  {
  }

  lemma PublishControl(s: System, x: Process, r: Ready)
    requires Accounted(s) && AtStage(s) && r.tx !in s.readies && x in s.children && s.children[x].native.tx == r.tx
    ensures Accounted(Announced(s, r)) && AtStage(Announced(s, r))
  {
    hide ReadyMatches, ValidationOver, PendingNonce;
    var s' := Announced(s, r);
    forall y | y in s'.children && !s'.children[y].stage.Exited?
      ensures Unnamed(s', y) || Attended(s', y) || Orphan(s', y)
    {
      assert Unnamed(s, y) || Attended(s, y) || Orphan(s, y);
    }
  }

  lemma PublishKeeps(s: System, l: Label)
    requires Inv(s) && l.Publish? && NextChild(s, l).Some?
    ensures Inv(NextChild(s, l).value)
  {
    hide Accounted, AtStage, Known, OneChild, EmptyIsTrue, OnlyNamedRan, ReadyIsReal, ActivatedAreValidated;
    var j := s.children[l.who].stage.journal;
    var r := Ready(j.tx, l.who, j.candidate, j.layout, l.ok);
    RecordsOf(s, l.who);
    PublishRecords(s, l.who, r);
    PublishClaims(s, l.who, r);
    PublishControl(s, l.who, r);
  }

  // ---- Steps of the lock holder ----

  /** The lock, the journal and new identities leave the records as they are. */
  lemma GrowsRecords(s: System, s': System)
    requires Records(s) && s.processes <= s'.processes && s.transactions <= s'.transactions
    requires s' == s.(owner := s'.owner, journal := s'.journal, processes := s'.processes, transactions := s'.transactions,
                       told := s'.told, nonces := s'.nonces, guesses := s'.guesses)
    requires s'.journal.Some? ==> s'.journal.value.tx in s'.transactions
    requires s'.owner.Some? ==> ValidStart(s'.owner.value.self)
    ensures Records(s')
  {
    forall y | y in s'.children ensures RanNamed(s', y) { assert RanNamed(s, y); }
  }

  /** Every live child that is named is still accounted for. */
  lemma ControlAccounted(s: System, s': System)
    requires Accounted(s) && s'.children == s.children
    requires forall x :: x in s.children && !s.children[x].stage.Exited? && (Unnamed(s, x) || Attended(s, x) || Orphan(s, x))
               ==> Unnamed(s', x) || Attended(s', x) || Orphan(s', x)
    ensures Accounted(s')
  {
  }

  lemma NobodyIsNoChild(s: System)
    requires Records(s)
    ensures NOBODY !in s.children
    ensures s.owner.Some? ==> ValidStart(s.owner.value.self)
    ensures s.journal.Some? ==> s.journal.value.tx in s.transactions
  {
  }

  /** A child that its launch record does not name has not run. */
  lemma NotNamed(s: System)
    requires Records(s)
    ensures forall x :: x in s.children && (s.children[x].native.tx in s.launches ==> s.launches[s.children[x].native.tx].child != x)
              ==> Unnamed(s, x)
  {
    forall x | x in s.children && (s.children[x].native.tx in s.launches ==> s.launches[s.children[x].native.tx].child != x)
      ensures Unnamed(s, x)
    {
      assert RanNamed(s, x);
    }
  }

  lemma ReleaseKeeps(s: System, l: Label)
    requires Inv(s) && (l.Unlock? || l.Crash?) && NextLock(s, l).Some?
    ensures Inv(NextLock(s, l).value)
  {
    hide Records, ReadyMatches, ValidationOver, PendingNonce;
    NobodyIsNoChild(s);
    NotNamed(s);
    var s' := s.(owner := None);
    GrowsRecords(s, s');
    ControlAccounted(s, s');
  }

  lemma RecoveryKeeps(s: System, l: Label)
    requires Inv(s) && (l.TakeLock? || l.RecordRestore? || l.FinishRecovery? || l.Begin? || l.Prepare?) && NextLock(s, l).Some?
    ensures Inv(NextLock(s, l).value)
  {
    hide Records;
    NobodyIsNoChild(s);
    var s' := NextLock(s, l).value;
    GrowsRecords(s, s');
    if l.Begin? { NewIsFresh(s, l.tx); }
    ControlAccounted(s, s');
  }

  lemma NewIsFresh(s: System, tx: string)
    requires Records(s) && tx !in s.transactions
    ensures Fresh(s, tx) && tx !in s.launches
  {
  }

  /** Recovery leaves no child that could still run. */
  lemma RecoverDisarms(s: System)
    requires Inv(s) && s.owner.Some? && s.owner.value.stage.Recovering? && RecoverValidation(s).Some?
    ensures var s' := RecoverValidation(s).value;
            forall x :: x in s'.children && !s'.children[x].stage.Exited? ==> Unnamed(s', x)
  {
    hide Records, AtStage, ValidationOver;
    NobodyIsNoChild(s);
    var s' := RecoverValidation(s).value;
    forall x | x in s'.children && !s'.children[x].stage.Exited? ensures Unnamed(s', x) {
      assert x in s.children && s.children[x] == s'.children[x];
      assert Unnamed(s, x) || Attended(s, x) || Orphan(s, x);
    }
  }

  lemma RecoverRecords(s: System)
    requires Inv(s) && s.owner.Some? && RecoverValidation(s).Some?
    ensures Records(RecoverValidation(s).value)
  {
    hide Records, AtStage, Accounted, ValidationOver, LaunchLoads;
    NobodyIsNoChild(s);
    var s' := RecoverValidation(s).value;
    if s.journal.Some? && s'.emptyReads != s.emptyReads {
      var t := s.journal.value.tx;
      EmptyReadRecords(s, t);
      GrowsRecords(s.(emptyReads := s.emptyReads + {t}), s');
    } else if s'.children != s.children {
      var x := s.launches[s.journal.value.tx].child;
      KillKeeps(s, x, false);
      GrowsRecords(Kill(s, x, false), s');
    } else {
      GrowsRecords(s, s');
    }
  }

  lemma RecoverKeeps(s: System, l: Label)
    requires Inv(s) && l.Recover? && NextLock(s, l).Some?
    ensures Inv(NextLock(s, l).value)
  {
    hide Records, AtStage, ValidationOver, LaunchLoads, Unnamed;
    RecoverDisarms(s);
    RecoverRecords(s);
    RestsSafely(NextLock(s, l).value);
  }

  lemma EmptyReadRecords(s: System, t: string)
    requires Records(s) && t in s.launches && s.launches[t].child == NOBODY
    ensures Records(s.(emptyReads := s.emptyReads + {t}))
  {
    var s' := s.(emptyReads := s.emptyReads + {t});
    forall x | x in s'.children && s'.children[x].native.tx == t ensures !s'.children[x].ran { assert RanNamed(s, x); }
    forall y | y in s'.children ensures RanNamed(s', y) { assert RanNamed(s, y); }
  }

  lemma RestsSafely(s: System)
    requires s.owner.Some? ==> s.owner.value.stage.Rolling? || s.owner.value.stage.Settled? || s.owner.value.stage.Committed?
    ensures AtStage(s)
  {
  }

  // ---- Steps of the installer ----

  lemma FirstIntent(j: View, hash: string)
    requires j.actions == [ValidationAction(ValidationStart, 1, hash, Status.Intent)]
    ensures PendingNonce(j.actions) == hash && !ValidationOver(j)
  {
    assert j.actions[..|j.actions| - 1] == [];
    assert !HasDone([], ValidationStop) && !HasDone([], RestoreValidation);
    assert !HasDone(j.actions, ValidationStop) && !HasDone(j.actions, RestoreValidation);
  }

  lemma IntendKeeps(s: System, l: Label)
    requires Inv(s) && l.Intend? && NextInstaller(s, l).Some?
    ensures Inv(NextInstaller(s, l).value)
  {
    hide Records, PendingNonce, ValidationOver;
    NobodyIsNoChild(s);
    var s' := NextInstaller(s, l).value;
    FirstIntent(s'.journal.value, HashOf(l.nonce));
    GrowsRecords(s, s');
    ControlAccounted(s, s');
  }

  function Saved(s: System, l: Launch): System { s.(launches := s.launches[l.tx := l]) }

  /** A launch record may name the transaction's own child as long as it has not run. */
  lemma LaunchRecords(s: System, l: Launch)
    requires Records(s) && l.tx in s.transactions && l.tx !in s.emptyReads
    requires forall x :: x in s.children && s.children[x].native.tx == l.tx ==> !s.children[x].ran
    requires l.child == NOBODY || (l.child in s.children && s.children[l.child].native.tx == l.tx)
    ensures Records(Saved(s, l))
  {
    var s' := Saved(s, l);
    forall y | y in s'.children ensures RanNamed(s', y) { assert RanNamed(s, y); }
  }

  lemma SaveLaunchKeeps(s: System, l: Label)
    requires Inv(s) && l.SaveLaunch? && NextInstaller(s, l).Some?
    ensures Inv(NextInstaller(s, l).value)
  {
    hide Records, ValidationOver, PendingNonce;
    NobodyIsNoChild(s);
    var s' := NextInstaller(s, l).value;
    var launch := LaunchOf(s.owner.value, s.journal.value, NOBODY);
    LaunchRecords(s, launch);
    GrowsRecords(if l.published then Saved(s, launch) else s, s');
    ControlAccounted(s, s');
  }

  lemma SpawnRecords(s: System, x: Process, c: Child)
    requires Records(s) && x !in s.children && ValidStart(x) && c.native.tx in s.transactions && c.stage.Waiting? && !c.ran
    requires forall y :: y in s.children ==> s.children[y].native.tx != c.native.tx
    ensures Records(s.(children := s.children[x := c], processes := s.processes + {x}))
  {
    hide Records;
    SpawnNamed(s, x, c);
    SpawnClaims(s, x, c);
    RecordsSplit(s.(children := s.children[x := c], processes := s.processes + {x}));
  }

  lemma RecordsSplit(s: System)
    requires Known(s) && OneChild(s) && OnlyNamedRan(s) && ReadyIsReal(s) && EmptyIsTrue(s) && ActivatedAreValidated(s)
    ensures Records(s)
  {
  }

  lemma SpawnNamed(s: System, x: Process, c: Child)
    requires Records(s) && x !in s.children && ValidStart(x) && c.native.tx in s.transactions && c.stage.Waiting? && !c.ran
    requires forall y :: y in s.children ==> s.children[y].native.tx != c.native.tx
    ensures var s' := s.(children := s.children[x := c], processes := s.processes + {x});
            Known(s') && OneChild(s') && OnlyNamedRan(s')
  {
    var s' := s.(children := s.children[x := c], processes := s.processes + {x});
    forall y | y in s'.children ensures RanNamed(s', y) { if y != x { assert RanNamed(s, y); } }
  }

  lemma SpawnReadies(s: System, x: Process, c: Child)
    requires ReadyIsReal(s) && x !in s.children
    ensures ReadyIsReal(s.(children := s.children[x := c], processes := s.processes + {x}))
  {
  }

  lemma SpawnEmpties(s: System, x: Process, c: Child)
    requires EmptyIsTrue(s) && x !in s.children && !c.ran
    ensures EmptyIsTrue(s.(children := s.children[x := c], processes := s.processes + {x}))
  {
  }

  lemma SpawnActivations(s: System, x: Process, c: Child)
    requires ActivatedAreValidated(s) && x !in s.children
    ensures ActivatedAreValidated(s.(children := s.children[x := c], processes := s.processes + {x}))
  {
    hide ReadyMatches;
  }

  lemma SpawnClaims(s: System, x: Process, c: Child)
    requires Records(s) && x !in s.children && c.stage.Waiting? && !c.ran
    ensures var s' := s.(children := s.children[x := c], processes := s.processes + {x});
            ReadyIsReal(s') && EmptyIsTrue(s') && ActivatedAreValidated(s')
  {
    hide Known, OneChild, OnlyNamedRan, ReadyIsReal, EmptyIsTrue, ActivatedAreValidated;
    SpawnReadies(s, x, c);
    SpawnEmpties(s, x, c);
    SpawnActivations(s, x, c);
  }

  lemma SpawnKeeps(s: System, l: Label)
    requires Inv(s) && l.Spawn? && NextInstaller(s, l).Some?
    ensures Inv(NextInstaller(s, l).value)
  {
    hide Records, ValidationOver, PendingNonce;
    NobodyIsNoChild(s);
    NotYetAChild(s, l.child);
    var s' := NextInstaller(s, l).value;
    var c := Child(l.native, Waiting, None, false, None);
    SpawnRecords(s, l.child, c);
    GrowsRecords(s.(children := s.children[l.child := c], processes := s.processes + {l.child}), s');
    forall y | y in s'.children && !s'.children[y].stage.Exited?
      ensures Unnamed(s', y) || Attended(s', y) || Orphan(s', y)
    {
      if y != l.child { assert Unnamed(s, y) || Attended(s, y) || Orphan(s, y); }
    }
  }

  lemma NotYetAChild(s: System, x: Process)
    requires Records(s) && x !in s.processes
    ensures x !in s.children
  {
  }

  lemma SaveNameKeeps(s: System, l: Label)
    requires Inv(s) && l.SaveName? && NextInstaller(s, l).Some?
    ensures Inv(NextInstaller(s, l).value)
  {
    hide Records, ValidationOver, PendingNonce;
    NobodyIsNoChild(s);
    var s' := NextInstaller(s, l).value;
    var x := s.owner.value.stage.child;
    var launch := LaunchOf(s.owner.value, s.journal.value, x);
    OnlyChild(s, x);
    NotNamed(s);
    LaunchRecords(s, launch);
    GrowsRecords(if l.published then Saved(s, launch) else s, s');
    ControlAccounted(s, s');
  }

  lemma OnlyChild(s: System, x: Process)
    requires Records(s) && x in s.children
    ensures forall y :: y in s.children && s.children[y].native.tx == s.children[x].native.tx ==> y == x
  {
  }

  lemma SendKeeps(s: System, l: Label)
    requires Inv(s) && l.Send? && NextInstaller(s, l).Some?
    ensures Inv(NextInstaller(s, l).value)
  {
    hide Records, ReadyMatches, ValidationOver, PendingNonce;
    var s' := NextInstaller(s, l).value;
    var x := s.owner.value.stage.child;
    var c := s.children[x].(inbox := Some(FrameOf(s.owner.value, s.journal.value)));
    MailKeeps(s, x, c);
    NobodyIsNoChild(Updated(s, x, c));
    GrowsRecords(Updated(s, x, c), s');
    ControlAccounted(Updated(s, x, c), s');
  }

  lemma MatchKeeps(s: System, l: Label)
    requires Inv(s) && (l.Match? || l.Fail?) && NextInstaller(s, l).Some?
    ensures Inv(NextInstaller(s, l).value)
  {
    hide Records, ValidationOver, PendingNonce;
    NobodyIsNoChild(s);
    var s' := NextInstaller(s, l).value;
    NotNamed(s);
    if l.Match? { ReadyRan(s, s.journal.value.tx); }
    GrowsRecords(s, s');
    ControlAccounted(s, s');
  }

  lemma ReadyRan(s: System, t: string)
    requires Records(s) && t in s.readies
    ensures s.readies[t].tx == t && s.readies[t].daemon in s.children
    ensures s.children[s.readies[t].daemon].native.tx == t && s.children[s.readies[t].daemon].ran
  {
  }

  lemma ReapKeeps(s: System, l: Label)
    requires Inv(s) && l.Reap? && NextInstaller(s, l).Some?
    ensures Inv(NextInstaller(s, l).value)
  {
    hide Records, Documents;
    var s' := NextInstaller(s, l).value;
    var x := s.owner.value.stage.child;
    KillKeeps(s, x, l.clean);
    var s1 := Kill(s, x, l.clean);
    NobodyIsNoChild(s1);
    GrowsRecords(s1, s');
    DocumentsOf(s1);
    ControlAccounted(s1, s');
  }

  lemma DocumentsOf(s: System)
    requires AtStage(s) && s.owner.Some? && s.owner.value.stage.Matched?
    ensures s.journal.Some? && s.journal.value.tx !in s.activations
  {
  }

  lemma CleanUpKeeps(s: System, l: Label)
    requires Inv(s) && l.CleanUp? && NextInstaller(s, l).Some?
    ensures Inv(NextInstaller(s, l).value)
  {
    hide Records, Documents, StageHolds;
    var s' := NextInstaller(s, l).value;
    var x := s.owner.value.stage.child;
    KillKeeps(s, x, false);
    var s1 := Kill(s, x, false);
    NobodyIsNoChild(s1);
    GrowsRecords(s1, s');
    ControlAccounted(s1, s');
  }

  lemma RecordStopKeeps(s: System, l: Label)
    requires Inv(s) && l.RecordStop? && NextInstaller(s, l).Some?
    ensures Inv(NextInstaller(s, l).value)
  {
    hide Records, ValidationOver, PendingNonce;
    NobodyIsNoChild(s);
    var s' := NextInstaller(s, l).value;
    GrowsRecords(s, s');
    ControlAccounted(s, s');
  }

  lemma ActivateKeeps(s: System, l: Label)
    requires Inv(s) && l.Activate? && NextInstaller(s, l).Some?
    ensures Inv(NextInstaller(s, l).value)
  {
    hide Records, ValidationOver, PendingNonce;
    NobodyIsNoChild(s);
    var s' := NextInstaller(s, l).value;
    var j := s.journal.value;
    ActivationRecords(s, j);
    GrowsRecords(s.(activations := s.activations[j.tx := j]), s');
    ControlAccounted(s, s');
  }

  lemma ActivationClaims(s: System, j: View)
    requires ActivatedAreValidated(s) && j.tx in s.readies
    requires Vouched(s, s.readies[j.tx].daemon, j) && s.children[s.readies[j.tx].daemon].stage == Exited(true)
    ensures ActivatedAreValidated(s.(activations := s.activations[j.tx := j]))
  {
    hide ReadyMatches;
  }

  lemma ActivationRecords(s: System, j: View)
    requires Records(s) && j.tx in s.transactions && j.tx in s.readies
    requires Vouched(s, s.readies[j.tx].daemon, j) && s.children[s.readies[j.tx].daemon].stage == Exited(true)
    ensures Records(s.(activations := s.activations[j.tx := j]))
  {
    hide ActivatedAreValidated, Vouched;
    var s' := s.(activations := s.activations[j.tx := j]);
    ActivationClaims(s, j);
    forall y | y in s'.children ensures RanNamed(s', y) { assert RanNamed(s, y); }
  }

  lemma StepKeeps(s: System, l: Label)
    requires Inv(s) && Next(s, l).Some?
    ensures Inv(Next(s, l).value)
  {
    hide Inv, NextLock, NextInstaller, NextChild;
    match l
    case TakeLock(_) | RecordRestore | FinishRecovery | Begin(_, _, _) | Prepare(_) => RecoveryKeeps(s, l);
    case Unlock | Crash => ReleaseKeeps(s, l);
    case Recover => RecoverKeeps(s, l);
    case Receive(_) | LoadJournal(_) | Enter(_) | Exit(_, _) => ChildKeeps(s, l);
    case Publish(_, _) => PublishKeeps(s, l);
    case Forge(_, _) => ForgeKeeps(s, l);
    case Intend(_, _) => IntendKeeps(s, l);
    case SaveLaunch(_, _) => SaveLaunchKeeps(s, l);
    case Spawn(_, _) => SpawnKeeps(s, l);
    case SaveName(_, _) => SaveNameKeeps(s, l);
    case Send => SendKeeps(s, l);
    case Match | Fail => MatchKeeps(s, l);
    case Reap(_) => ReapKeeps(s, l);
    case CleanUp => CleanUpKeeps(s, l);
    case RecordStop => RecordStopKeeps(s, l);
    case Activate => ActivateKeeps(s, l);
  }

  lemma {:induction false} Reachable(labels: seq<Label>)
    ensures Inv(After(labels))
  {
    hide Inv, Next;
    if labels == [] {
      InitialHolds();
    } else {
      Reachable(labels[..|labels| - 1]);
      var s := After(labels[..|labels| - 1]);
      if Next(s, labels[|labels| - 1]).Some? { StepKeeps(s, labels[|labels| - 1]); }
    }
  }

  // ---- The theorems ----

  /** In every interleaving, a child in its run is exactly the one its published launch record names. */
  lemma LaunchSafety(labels: seq<Label>, x: Process)
    requires x in After(labels).children && (After(labels).children[x].stage.InRun? || After(labels).children[x].ran)
    ensures var s := After(labels);
            var t := s.children[x].native.tx;
            t in s.launches && s.launches[t].child == x
  {
    hide Accounted, AtStage, After;
    Reachable(labels);
    assert RanNamed(After(labels), x);
  }

  /**
    Recovery that read an empty child name was right for good: no child of that
    transaction has run, whatever happened before and whatever happens later.
   */
  lemma EmptyReadIsFinal(labels: seq<Label>, more: seq<Label>, t: string, x: Process)
    requires t in After(labels).emptyReads
    requires x in After(labels + more).children && After(labels + more).children[x].native.tx == t
    ensures !After(labels + more).children[x].ran && !After(labels + more).children[x].stage.InRun?
  {
    hide Accounted, AtStage, After;
    EmptyReadsGrow(labels, more);
    Reachable(labels + more);
    var s := After(labels + more);
    assert RanNamed(s, x);
  }

  lemma {:induction false} EmptyReadsGrow(labels: seq<Label>, more: seq<Label>)
    ensures After(labels).emptyReads <= After(labels + more).emptyReads
    decreases |more|
  {
    hide Next;
    if more == [] {
      assert labels + more == labels;
    } else {
      var n := |more| - 1;
      EmptyReadsGrow(labels, more[..n]);
      assert (labels + more)[..|labels + more| - 1] == labels + more[..n];
      KeepsEmptyReads(After(labels + more[..n]), more[n]);
    }
  }

  lemma KeepsEmptyReads(s: System, l: Label)
    ensures Next(s, l).Some? ==> s.emptyReads <= Next(s, l).value.emptyReads
  {
  }

  /** The lock holder is at work on data itself, outside a validation. */
  predicate WorksOnData(stage: Stage) {
    stage.Rolling? || stage.Settled? || stage.Preparing? || stage.Intended? || stage.Launched?
    || stage.Reaped? || stage.Finished? || stage.Committed?
  }

  /** Data has one user: while the lock holder works on it, no validation child of any transaction runs. */
  lemma OneUserOfData(labels: seq<Label>, x: Process)
    requires After(labels).owner.Some? && WorksOnData(After(labels).owner.value.stage)
    requires x in After(labels).children
    ensures !After(labels).children[x].stage.InRun?
  {
    hide Records, Documents, After;
    Reachable(labels);
    var s := After(labels);
    NobodyIsNoChild(s);
    if !s.children[x].stage.Exited? {
      assert Unnamed(s, x) || Attended(s, x) || Orphan(s, x);
    }
  }

  /**
    Activation implies validation: the activated transaction has a ready document that reports
    success, about this transaction, its candidate and its layout, written by the child its
    launch record names, which ran and has exited without error.
   */
  lemma ActivationImpliesValidation(labels: seq<Label>, t: string)
    requires t in After(labels).activations
    ensures var s := After(labels);
            var j := s.activations[t];
            && j.tx == t && t in s.readies && t in s.launches
            && s.readies[t].ok && s.readies[t].tx == t && s.readies[t].binary == j.candidate && s.readies[t].layout == j.layout
            && var x := s.readies[t].daemon;
            && x.pid > 0 && x.boot != ""
            && x in s.children && s.launches[t].child == x && s.children[x].native.tx == t
            && s.children[x].ran && s.children[x].stage == Exited(true)
  {
    hide Accounted, AtStage, After;
    Reachable(labels);
    var s := After(labels);
    assert RanNamed(s, s.readies[t].daemon);
  }

  /** A ready document is never replaced. */
  lemma {:induction false} ReadyIsFinal(labels: seq<Label>, more: seq<Label>, t: string)
    requires t in After(labels).readies
    ensures t in After(labels + more).readies && After(labels + more).readies[t] == After(labels).readies[t]
    decreases |more|
  {
    hide Next;
    if more == [] {
      assert labels + more == labels;
    } else {
      var n := |more| - 1;
      ReadyIsFinal(labels, more[..n], t);
      assert (labels + more)[..|labels + more| - 1] == labels + more[..n];
      KeepsReadies(After(labels + more[..n]), more[n], t);
    }
  }

  lemma KeepsReadies(s: System, l: Label, t: string)
    requires t in s.readies
    ensures Next(s, l).Some? ==> t in Next(s, l).value.readies && Next(s, l).value.readies[t] == s.readies[t]
  {
    hide NextChild, NextLock, NextInstaller;
    if l.Receive? || l.LoadJournal? || l.Enter? || l.Publish? || l.Exit? || l.Forge? {
      ChildKeepsReadies(s, l, t);
    } else {
      OwnerKeepsReadies(s, l);
    }
  }

  lemma OwnerKeepsReadies(s: System, l: Label)
    ensures NextLock(s, l).Some? ==> NextLock(s, l).value.readies == s.readies
    ensures NextInstaller(s, l).Some? ==> NextInstaller(s, l).value.readies == s.readies
  {
    hide ReadyMatches, LaunchLoads, ValidationOver, PendingNonce, HashOf, SameStart, ValidStart, LaunchOf, FrameOf, ValidationAction, Pending;
  }

  lemma ChildKeepsReadies(s: System, l: Label, t: string)
    requires t in s.readies && (l.Receive? || l.LoadJournal? || l.Enter? || l.Publish? || l.Exit? || l.Forge?)
    ensures NextChild(s, l).Some? ==> t in NextChild(s, l).value.readies && NextChild(s, l).value.readies[t] == s.readies[t]
  {
    hide JournalAdmits, LaunchAdmits, FrameAdmits;
  }

  /** A validation that reported a failure is never followed by an activation, whatever happens. */
  lemma FailureIsFinal(labels: seq<Label>, more: seq<Label>, t: string)
    requires t in After(labels).readies && !After(labels).readies[t].ok
    ensures t !in After(labels + more).activations
  {
    hide After;
    ReadyIsFinal(labels, more, t);
    if t in After(labels + more).activations { ActivationImpliesValidation(labels + more, t); }
  }

  /**
    What lets a child into its run, exactly: the launch record names this child and its own
    parent, candidate, layout and the hash of the pending validation, and the frame brings the
    nonce behind that hash and names the same things.
   */
  lemma AdmissionIsExact(s: System, x: Process)
    requires x in s.children && s.children[x].stage.Loaded? && ValidStart(x)
    ensures var c := s.children[x];
            var j := c.stage.journal;
            var f := c.stage.frame;
            var hash := PendingNonce(j.actions);
            var s' := Next(s, Enter(x)).value;
            && Next(s, Enter(x)).Some? && x in s'.children
            && (s'.children[x].stage.InRun? <==>
                  && j.tx in s.launches && s.launches[j.tx] == Launch(j.tx, hash, c.native.parent, x, j.candidate, j.layout)
                  && |hash| > 0 && hash[0] == '#'
                  && c.native.parent.pid > 0 && c.native.parent.startUnix > 0 && c.native.parent.boot != ""
                  && f.nonceHash == hash && HashOf(f.nonce) == hash
                  && f.tx == j.tx && f.candidate == j.candidate && f.parent == c.native.parent
                  && (j.layout == "" || f.layout == j.layout))
            && (s'.children[x].stage.InRun? ==> s'.children[x].stage.journal == j && s'.children[x].ran && s'.children[x].admitted == Some(f))
            && (!s'.children[x].stage.InRun? ==> s'.children[x].stage == Exited(false))
  {
    hide PendingNonce, HashOf;
  }

  /**
    What makes the installer believe its child, exactly: the stored document is about this
    transaction, its candidate and its layout, reports success, and was written by this child.
   */
  lemma MatchIsExact(s: System)
    requires s.owner.Some? && s.journal.Some? && s.owner.value.stage.Framed?
    ensures var j := s.journal.value;
            var x := s.owner.value.stage.child;
            && (Next(s, Match).Some? <==>
                  && j.tx in s.readies && s.readies[j.tx] == Ready(j.tx, x, j.candidate, j.layout, true) && x.pid > 0 && x.boot != "")
            && (Next(s, Match).Some? ==> Next(s, Match).value == At(s, Matched(x)))
  {
  }

  /**
    What recovery does about a validation, exactly: nothing if its stop is recorded or no launch
    was; otherwise the launch record must be about this journal, and the child it names is killed.
   */
  lemma RecoverIsExact(s: System)
    requires s.owner.Some? && s.owner.value.stage.Recovering? && s.journal.Some?
    ensures var j := s.journal.value;
            var over := HasDone(j.actions, ValidationStop) || HasDone(j.actions, RestoreValidation);
            && (over || j.tx !in s.launches ==> Next(s, Label.Recover) == Some(At(s, Rolling)))
            && (!over && j.tx in s.launches ==>
                  var l := s.launches[j.tx];
                  && (Next(s, Label.Recover).Some? <==>
                        && l.tx == j.tx && l.binary == j.candidate && l.layout == j.layout && |l.nonceHash| > 0 && l.nonceHash[0] == '#'
                        && l.parent.pid > 0 && l.parent.boot != "" && l.parent.startUnix > 0
                        && (l.child == NOBODY || (l.child.pid > 0 && l.child.boot != "" && l.child.startUnix > 0)))
                  && (Next(s, Label.Recover).Some? && l.child == NOBODY ==>
                        Next(s, Label.Recover).value == At(s.(emptyReads := s.emptyReads + {j.tx}), Rolling))
                  && (Next(s, Label.Recover).Some? && l.child != NOBODY ==>
                        Next(s, Label.Recover).value == At(Kill(s, l.child, false), Rolling)))
  {
    hide HasDone;
  }

  /** Which journal a child accepts, exactly: its own transaction, binary and layout, in the phase of the validation. */
  lemma LoadingIsExact(s: System, x: Process)
    requires x in s.children && s.children[x].stage.Received?
    ensures var c := s.children[x];
            var s' := Next(s, LoadJournal(x)).value;
            && Next(s, LoadJournal(x)).Some? && x in s'.children
            && (s'.children[x].stage.Loaded? <==>
                  && s.journal.Some?
                  && var j := s.journal.value;
                  && j.tx == c.native.tx && j.phase == DefinitionCommitted && j.candidate == c.native.binary && j.layout == c.native.layout
                  && x.pid > 0 && x.startUnix > 0 && x.boot != ""
                  && c.native.parent.pid > 0 && c.native.parent.startUnix > 0 && c.native.parent.boot != ""
                  && |PendingNonce(j.actions)| > 0 && PendingNonce(j.actions)[0] == '#')
            && (s'.children[x].stage.Loaded? ==> s'.children[x].stage == Loaded(c.stage.frame, s.journal.value))
            && (!s'.children[x].stage.Loaded? ==> s'.children[x].stage == Exited(false))
  {
    hide PendingNonce;
  }

  /** The order of the two writes pays off: a child that reads its installer's frame passes every check. */
  lemma HandshakeSucceeds(labels: seq<Label>, x: Process)
    requires var s := After(labels);
             && x in s.children && s.owner.Some? && s.owner.value.stage == Framed(x)
             && s.journal.Some? && s.children[x].native.binary == s.journal.value.candidate
             && s.children[x].native.layout == s.journal.value.layout
    ensures var s := After(labels);
            var c := s.children[x];
            && (c.stage.Received? ==> JournalAdmits(c.native, x, s.journal.value))
            && (c.stage.Loaded? && c.stage.frame == FrameOf(s.owner.value, s.journal.value) ==>
                  && c.stage.journal.tx in s.launches
                  && LaunchAdmits(c.native, x, c.stage.journal, s.launches[c.stage.journal.tx])
                  && FrameAdmits(c.native, c.stage.journal, c.stage.frame))
  {
    hide Records, Accounted, AtStage, After;
    Reachable(labels);
    FramedPasses(After(labels), x);
  }

  lemma FramedPasses(s: System, x: Process)
    requires Records(s) && AtStage(s) && x in s.children && s.owner.Some? && s.owner.value.stage == Framed(x)
    requires s.journal.Some? && s.children[x].native.binary == s.journal.value.candidate
    requires s.children[x].native.layout == s.journal.value.layout
    ensures var c := s.children[x];
            && (c.stage.Received? ==> JournalAdmits(c.native, x, s.journal.value))
            && (c.stage.Loaded? && c.stage.frame == FrameOf(s.owner.value, s.journal.value) ==>
                  && c.stage.journal.tx in s.launches
                  && LaunchAdmits(c.native, x, c.stage.journal, s.launches[c.stage.journal.tx])
                  && FrameAdmits(c.native, c.stage.journal, c.stage.frame))
  {
    hide Records, HashOf, ValidHash, PendingNonce, ValidationOver;
    NobodyIsNoChild(s);
    RecordsOf(s, x);
    HashIsValid(s.owner.value.nonce);
  }

  lemma HashIsValid(nonce: string)
    ensures ValidHash(HashOf(nonce))
  {
  }
}
