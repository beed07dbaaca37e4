/**
  What the nonce is for: whatever else is written to a child's pipe, the child enters
  its run only on the frame that its own installer sent.
 */
module ValidationSecrecy {
  import opened Options
  import opened InstallJournal
  import opened ValidationHandshake

  /** A frame is a guess, or the very one that the installer sent to this child. */
  ghost predicate Sent(s: System, x: Process, f: Frame) { f.nonce in s.guesses || (x, f) in s.told }

  /** The hash recorded for a running validation is that of a nonce an installer drew. */
  ghost predicate Drawn(s: System, j: View) {
    ValidHash(PendingNonce(j.actions)) ==> exists nonce :: nonce in s.nonces && PendingNonce(j.actions) == HashOf(nonce)
  }

  ghost predicate Honest(s: System, x: Process, c: Child) {
    && (c.inbox.Some? ==> Sent(s, x, c.inbox.value))
    && (c.stage.Received? ==> Sent(s, x, c.stage.frame))
    && (c.stage.Loaded? ==> Sent(s, x, c.stage.frame) && Drawn(s, c.stage.journal))
    && (c.ran ==> c.admitted.Some? && (x, c.admitted.value) in s.told)
  }

  ghost predicate Secrets(s: System) {
    && s.nonces !! s.guesses
    && (s.journal.Some? ==> Drawn(s, s.journal.value))
    && forall x {:trigger s.children[x]} :: x in s.children ==> Honest(s, x, s.children[x])
  }

  /** Nothing known is forgotten. */
  ghost predicate Learns(s: System, s': System) {
    s.nonces <= s'.nonces && s.guesses <= s'.guesses && s.told <= s'.told
  }

  lemma HonestStays(s: System, s': System, x: Process, c: Child)
    requires Learns(s, s') && Honest(s, x, c)
    ensures Honest(s', x, c)
  {
    hide PendingNonce;
  }

  /** Only the child `x` changed, if any. */
  lemma SecretsStay(s: System, s': System, x: Process)
    requires Secrets(s) && Learns(s, s') && s'.nonces !! s'.guesses
    requires s'.journal.Some? ==> s'.journal == s.journal || Drawn(s', s'.journal.value)
    requires forall y :: y in s'.children && y != x ==> y in s.children && s'.children[y] == s.children[y]
    requires x in s'.children ==> Honest(s', x, s'.children[x])
    ensures Secrets(s')
  {
    hide PendingNonce, Honest;
    forall y | y in s'.children ensures Honest(s', y, s'.children[y]) {
      if y != x { HonestStays(s, s', y, s.children[y]); }
    }
  }

  lemma KillIsHonest(s: System, x: Process, clean: bool)
    requires Secrets(s)
    ensures Secrets(Kill(s, x, clean))
  {
    hide PendingNonce, Drawn;
    if x in s.children { SecretsStay(s, Kill(s, x, clean), x); }
  }

  lemma AppendScan(actions: seq<Action>, a: Action)
    ensures PendingNonce(actions + [a]) ==
            if a.kind.ValidationStart? then a.candidate else if a.kind.ValidationStop? then "" else PendingNonce(actions)
  {
    assert (actions + [a])[..|actions|] == actions;
  }

  lemma LockKeeps(s: System, l: Label)
    requires Secrets(s) && NextLock(s, l).Some?
    ensures Secrets(NextLock(s, l).value)
  {
    hide PendingNonce, Drawn, Honest, ValidationOver, LaunchLoads;
    var s' := NextLock(s, l).value;
    match l {
      case Recover =>
        if s'.children != s.children {
          var x := s.launches[s.journal.value.tx].child;
          KillIsHonest(s, x, false);
          Unchanged(Kill(s, x, false), s');
        } else {
          Unchanged(s, s');
        }
      case RecordRestore =>
        StillDrawn(s, s.journal.value, s'.journal.value);
        Unchanged(s, s');
      case Begin(_, _, _) =>
        NothingPending(s', s'.journal.value);
        Unchanged(s, s');
      case FinishRecovery =>
        SameActionsDrawn(s, s.journal.value, s'.journal.value);
        Unchanged(s, s');
      case Prepare(_) =>
        SameActionsDrawn(s, s.journal.value, s'.journal.value);
        Unchanged(s, s');
      case _ => Unchanged(s, s');
    }
  }

  lemma KeepsNobody(s: System, s': System)
    requires Secrets(s) && s'.children == s.children && Learns(s, s')
    ensures NOBODY in s'.children ==> Honest(s', NOBODY, s'.children[NOBODY])
  {
    hide PendingNonce;
    if NOBODY in s.children { HonestStays(s, s', NOBODY, s.children[NOBODY]); }
  }

  lemma NothingPending(s: System, j: View)
    requires j.actions == []
    ensures Drawn(s, j)
  {
  }

  lemma SameActionsDrawn(s: System, j: View, j': View)
    requires Drawn(s, j) && j'.actions == j.actions
    ensures forall s' :: Learns(s, s') ==> Drawn(s', j')
  {
    hide PendingNonce;
  }

  /** An action that neither starts nor stops a validation leaves the pending hash. */
  lemma StillDrawn(s: System, j: View, j': View)
    requires Drawn(s, j) && |j'.actions| == |j.actions| + 1 && j'.actions == j.actions + [j'.actions[|j.actions|]]
    requires !j'.actions[|j.actions|].kind.ValidationStart?
    ensures forall s' :: Learns(s, s') ==> Drawn(s', j')
  {
    AppendScan(j.actions, j'.actions[|j.actions|]);
  }

  lemma Unchanged(s: System, s': System)
    requires Secrets(s) && Learns(s, s') && s'.nonces !! s'.guesses && s'.children == s.children
    requires s'.journal.Some? ==> s'.journal == s.journal || Drawn(s', s'.journal.value)
    ensures Secrets(s')
  {
    hide PendingNonce, Honest;
    KeepsNobody(s, s');
    SecretsStay(s, s', NOBODY);
  }

  lemma IntentDrawn(s: System, j: View, nonce: string)
    requires nonce in s.nonces && j.actions != [] && j.actions[|j.actions| - 1].kind.ValidationStart?
    requires j.actions[|j.actions| - 1].candidate == HashOf(nonce)
    ensures Drawn(s, j)
  {
  }

  lemma InstallerKeeps(s: System, l: Label)
    requires Secrets(s) && NextInstaller(s, l).Some?
    ensures Secrets(NextInstaller(s, l).value)
  {
    hide PendingNonce, Drawn, Honest, ReadyMatches, HashOf;
    var s' := NextInstaller(s, l).value;
    var j := s.journal.value;
    match l {
      case Intend(nonce, _) =>
        IntentDrawn(s', s'.journal.value, nonce);
        Unchanged(s, s');
      case RecordStop =>
        StillDrawn(s, j, s'.journal.value);
        Unchanged(s, s');
      case Activate =>
        SameActionsDrawn(s, j, s'.journal.value);
        Unchanged(s, s');
      case Spawn(x, native) =>
        NewIsHonest(s', x, s'.children[x]);
        SecretsStay(s, s', x);
      case Send =>
        TellIsHonest(s, s', s.owner.value.stage.child);
      case Reap(clean) =>
        KillIsHonest(s, s.owner.value.stage.child, clean);
        Unchanged(Kill(s, s.owner.value.stage.child, clean), s');
      case CleanUp =>
        KillIsHonest(s, s.owner.value.stage.child, false);
        Unchanged(Kill(s, s.owner.value.stage.child, false), s');
      case _ => Unchanged(s, s');
    }
  }

  lemma NewIsHonest(s: System, x: Process, c: Child)
    requires c.stage.Waiting? && c.inbox.None? && !c.ran
    ensures Honest(s, x, c)
  {
  }

  lemma TellIsHonest(s: System, s': System, x: Process)
    requires Secrets(s) && x in s.children && x in s'.children && s'.children[x].inbox.Some?
    requires s'.told == s.told + {(x, s'.children[x].inbox.value)} && s'.nonces == s.nonces && s'.guesses == s.guesses
    requires s'.journal == s.journal
    requires s'.children == s.children[x := s.children[x].(inbox := s'.children[x].inbox)]
    ensures Secrets(s')
  {
    hide PendingNonce;
    HonestStays(s, s', x, s.children[x]);
    SecretsStay(s, s', x);
  }

  /** The one step at which the nonce is compared. */
  lemma EnterIsHonest(s: System, x: Process)
    requires Secrets(s) && x in s.children && s.children[x].stage.Loaded?
    requires var c := s.children[x]; FrameAdmits(c.native, c.stage.journal, c.stage.frame)
    ensures (x, s.children[x].stage.frame) in s.told
  {
    hide PendingNonce;
    var c := s.children[x];
    assert Honest(s, x, c);
    assert ValidHash(HashOf(c.stage.frame.nonce));
    var nonce :| nonce in s.nonces && PendingNonce(c.stage.journal.actions) == HashOf(nonce);
    SameHash(nonce, c.stage.frame.nonce);
  }

  lemma SameHash(a: string, b: string)
    requires HashOf(a) == HashOf(b)
    ensures a == b
  {
    assert HashOf(a)[1..] == a && HashOf(b)[1..] == b;
  }

  lemma ChildKeeps(s: System, l: Label)
    requires Secrets(s) && (l.Receive? || l.LoadJournal? || l.Enter? || l.Publish? || l.Exit? || l.Forge?) && NextChild(s, l).Some?
    ensures Secrets(NextChild(s, l).value)
  {
    hide PendingNonce, JournalAdmits, LaunchAdmits, FrameAdmits, Drawn;
    var s' := NextChild(s, l).value;
    var x := l.who;
    var c := s.children[x];
    assert Honest(s, x, c);
    match l
    case Enter(_) =>
      if s'.children[x].stage.InRun? {
        EnterIsHonest(s, x);
        SecretsStay(s, s', x);
      } else {
        KillIsHonest(s, x, false);
      }
    case Publish(_, _) => Unchanged(s, s');
    case Exit(_, clean) => KillIsHonest(s, x, clean);
    case Forge(_, _) =>
      HonestStays(s, s', x, c);
      SecretsStay(s, s', x);
    case Receive(_) => LoadIsHonest(s, s', x);
    case LoadJournal(_) =>
      if s'.children[x].stage.Exited? { KillIsHonest(s, x, false); } else { LoadIsHonest(s, s', x); }
  }

  lemma LoadIsHonest(s: System, s': System, x: Process)
    requires Secrets(s) && x in s.children && s' == s.(children := s'.children) && x in s'.children
    requires s'.children == s.children[x := s'.children[x]]
    requires Honest(s, x, s'.children[x])
    ensures Secrets(s')
  {
    hide PendingNonce;
    HonestStays(s, s', x, s'.children[x]);
    SecretsStay(s, s', x);
  }

  lemma {:induction false} Reachable(labels: seq<Label>)
    ensures Secrets(After(labels))
  {
    hide Secrets, NextLock, NextInstaller, NextChild;
    if labels == [] {
      InitiallySecret();
    } else {
      Reachable(labels[..|labels| - 1]);
      var s := After(labels[..|labels| - 1]);
      var l := labels[|labels| - 1];
      if Next(s, l).Some? {
        match l
        case TakeLock(_) | Unlock | Crash | Recover | RecordRestore | FinishRecovery | Begin(_, _, _) | Prepare(_) => LockKeeps(s, l);
        case Receive(_) | LoadJournal(_) | Enter(_) | Publish(_, _) | Exit(_, _) | Forge(_, _) => ChildKeeps(s, l);
        case _ => InstallerKeeps(s, l);
      }
    }
  }

  lemma InitiallySecret()
    ensures Secrets(Initial())
  {
  }

  /** A child that ever entered its run did so on the very frame that its installer sent to it. */
  lemma FrameIsGenuine(labels: seq<Label>, x: Process)
    requires x in After(labels).children && After(labels).children[x].ran
    ensures var c := After(labels).children[x];
            c.admitted.Some? && (x, c.admitted.value) in After(labels).told
  {
    hide After, PendingNonce;
    Reachable(labels);
    assert Honest(After(labels), x, After(labels).children[x]);
  }
}
