/**
  The allowlist of generated files and the walker that checks a tree against it. What
  a single file name may look like is a parameter, so the results hold for any such
  tests.
 */
module UninstallFiles {
  import opened Options
  import opened RetainedCleanup

  datatype Target = DataTarget | BaseTarget | LogsTarget | ProgramTarget | ControlTarget | CommandTarget

  /** The tests on one name. */
  datatype NameClass =
    | Scratch | Hex32 | EndpointName | EndpointLock | CoreHomeFile | WorkingFile | ProviderFile | CacheFile
    | LogName | LogExport | PanelStagingDirectory | PanelStagingZip | StagedConfig | OldCore
    | AtomicTemp(base: string) | TempName(prefix: string, suffix: string)

  type NameTest = (NameClass, string) -> bool

  predicate AllowedData(named: NameTest, parts: seq<string>, isDir: bool)
    requires parts != []
    decreases |parts|, 1
  {
    DataScratch(named, parts, isDir) || AllowedDataPlain(named, parts, isDir)
  }

  /** A scratch file may lie wherever a directory is allowed. */
  predicate DataScratch(named: NameTest, parts: seq<string>, isDir: bool)
    requires parts != []
    decreases |parts|, 0
  {
    && !isDir && named(Scratch, parts[|parts| - 1])
    && (|parts| == 1 || AllowedData(named, parts[..|parts| - 1], true))
  }

  predicate AllowedDataPlain(named: NameTest, parts: seq<string>, isDir: bool)
    requires parts != []
  {
    if |parts| == 1 then AllowedDataRoot(named, parts[0], isDir)
    else
      var rest := parts[1..];
      match parts[0]
      case "bin" => AllowedBin(named, rest, isDir)
      case "runtime" => AllowedRuntime(named, rest, isDir)
      case "subscriptions" => AllowedSubscriptions(named, rest, isDir)
      case "geoip" => AllowedGeoIP(rest, isDir)
      case "preferences" => |rest| == 1 && !isDir && (rest[0] == "tui.json" || named(AtomicTemp("tui.json"), rest[0]))
      case "providers" => |rest| == 1 && !isDir && named(ProviderFile, rest[0])
      case "web" => AllowedWeb(named, rest, isDir)
      case "ruleset" => AllowedRuleset(rest, isDir)
      case "logs" => AllowedLogs(named, parts, isDir)
      case "logs-export" => AllowedLogs(named, parts, isDir)
      case "staging" => AllowedStaging(named, rest, isDir)
      case "locks" => |rest| == 1 && !isDir && rest[0] == "install-data-id"
      case "install-control" => AllowedControl(rest, isDir)
      case _ => false
  }

  const DATA_DIRECTORIES: set<string> :=
    {"bin", "runtime", "subscriptions", "geoip", "preferences", "providers", "web", "logs", "logs-export", "staging",
     "locks", "install-control", "ruleset"}

  predicate AllowedDataRoot(named: NameTest, name: string, isDir: bool) {
    if isDir then name in DATA_DIRECTORIES
    else
      || named(EndpointName, name) || named(EndpointLock, name)
      || name in {"mihari.yaml", "onboarding.json", "control.token", "daemon.lock", "mihari.yaml.lock", "control.sock",
                  "mihari-channel", "install.lock"}
      || named(CoreHomeFile, name) || named(WorkingFile, name)
      || named(AtomicTemp("mihari.yaml"), name) || named(AtomicTemp("onboarding.json"), name)
  }

  predicate AllowedBin(named: NameTest, parts: seq<string>, isDir: bool) {
    && |parts| == 1 && !isDir
    && (parts[0] in {"mihomo", "mihomo.exe", "mihomo.provenance.json", "core-channel"} || named(OldCore, parts[0]))
  }

  predicate AllowedRuntime(named: NameTest, parts: seq<string>, isDir: bool)
    requires parts != []
  {
    if |parts| == 1 then
      (isDir && parts[0] == "core-home") || (!isDir && (parts[0] == "config.yaml" || named(AtomicTemp("config.yaml"), parts[0])))
    else parts[0] == "core-home" && AllowedCoreHome(named, parts[1..], isDir)
  }

  predicate AllowedCoreHome(named: NameTest, parts: seq<string>, isDir: bool)
    requires parts != []
  {
    if |parts| == 1 then
      if isDir then parts[0] in {"providers", "ruleset", "tmp"} else named(CoreHomeFile, parts[0]) || named(WorkingFile, parts[0])
    else if parts[0] == "providers" then |parts| == 2 && !isDir && named(ProviderFile, parts[1])
    else parts[0] == "ruleset" && AllowedRuleset(parts[1..], isDir)
  }

  predicate AllowedSubscriptions(named: NameTest, parts: seq<string>, isDir: bool)
    requires parts != []
  {
    if |parts| == 1 then
      (isDir && parts[0] == "cache") || (!isDir && (parts[0] == "catalog.yaml" || named(AtomicTemp("catalog.yaml"), parts[0])))
    else |parts| == 2 && parts[0] == "cache" && !isDir && named(CacheFile, parts[1])
  }

  predicate AllowedGeoIP(parts: seq<string>, isDir: bool) {
    && |parts| == 1 && !isDir
    && parts[0] in {"GeoLite2-Country.mmdb", "GeoLite2-Country.mmdb.previous", "GeoLite2-ASN.mmdb", "GeoLite2-ASN.mmdb.previous"}
  }

  predicate PanelDirectory(name: string) { name == "zashboard" || name == "metacubexd" }

  predicate PlainName(name: string) { name != "" && name != "." && name != ".." }

  /** A panel may hold anything. */
  predicate AllowedWeb(named: NameTest, parts: seq<string>, isDir: bool)
    requires parts != []
  {
    if |parts| == 1 then
      if isDir then PanelDirectory(parts[0])
      else parts[0] == "active.json" || parts[0] == "credential" || named(AtomicTemp("active.json"), parts[0])
    else PanelDirectory(parts[0]) && forall i :: 1 <= i < |parts| ==> PlainName(parts[i])
  }

  predicate AllowedRuleset(parts: seq<string>, isDir: bool) { |parts| == 1 && !isDir && PlainName(parts[0]) }

  predicate AllowedLogs(named: NameTest, parts: seq<string>, isDir: bool)
    requires parts != []
  {
    if |parts| == 1 then isDir && (parts[0] == "logs" || parts[0] == "logs-export")
    else
      && |parts| == 2 && !isDir
      && ((parts[0] == "logs" && named(LogName, parts[1])) || (parts[0] == "logs-export" && named(LogExport, parts[1])))
  }

  predicate AllowedStaging(named: NameTest, parts: seq<string>, isDir: bool)
    requires parts != []
  {
    if |parts| == 1 then
      || (isDir && parts[0] in {"core", "providers", "geoip", "panels", "subscriptions"})
      || (!isDir && (named(TempName(".mihomo-download-", ""), parts[0]) || named(TempName(".mihomo-candidate-", ""), parts[0])))
    else
      match parts[0]
      case "core" => AllowedCoreStaging(named, parts[1..], isDir)
      case "providers" => AllowedProviderStaging(named, parts[1..], isDir)
      case "geoip" => |parts| == 2 && !isDir && named(TempName(".candidate-", ".mmdb"), parts[1])
      case "panels" =>
        |parts| == 2 && ((isDir && named(PanelStagingDirectory, parts[1])) || (!isDir && named(PanelStagingZip, parts[1])))
      case "subscriptions" => |parts| == 2 && !isDir && named(StagedConfig, parts[1])
      case _ => false
  }

  predicate AllowedCoreStaging(named: NameTest, parts: seq<string>, isDir: bool)
    requires parts != []
  {
    if |parts| == 1 then (!isDir && parts[0] == "provenance-commit.json") || (isDir && named(Hex32, parts[0]))
    else
      && |parts| == 2 && named(Hex32, parts[0]) && !isDir
      && parts[1] in {"candidate-binary", "candidate-receipt.json", "backup-binary", "backup-receipt.json",
                      "restore-binary", "restore-receipt.json", "quarantine-binary", "quarantine-receipt.json", "transaction-id"}
  }

  predicate AllowedProviderStaging(named: NameTest, parts: seq<string>, isDir: bool)
    requires parts != []
  {
    if |parts| == 1 then
      (!isDir && (parts[0] == "commit.json" || parts[0] == "activation.json")) || (isDir && named(Hex32, parts[0]))
    else |parts| == 2 && named(Hex32, parts[0]) && !isDir && parts[1] in {"candidate", "source", "transaction-id"}
  }

  predicate AllowedControl(parts: seq<string>, isDir: bool) {
    && !isDir && |parts| == 1
    && parts[0] in {"state.json", "previous-state.json", "operation.lock", "startup.lock"}
  }

  predicate AllowedJournal(named: NameTest, parts: seq<string>, isDir: bool)
    requires parts != []
  {
    if |parts| == 1 then isDir && named(Hex32, parts[0])
    else
      && |parts| == 2 && !isDir && named(Hex32, parts[0])
      && parts[1] in {"transaction-id", "unit", "unit-bootstrap", "ready.json", "validation-launch.json"}
  }

  predicate AllowedBase(named: NameTest, parts: seq<string>, isDir: bool)
    requires parts != []
  {
    if |parts| == 1 then
      if parts[0] in {"transactions", "data", "install-control"} then isDir
      else
        && !isDir
        && (parts[0] in {"install-transaction.json", "control.sock", "control.token", "mihari-channel", "install.lock"}
            || named(EndpointName, parts[0]) || named(EndpointLock, parts[0]))
    else
      match parts[0]
      case "transactions" => AllowedJournal(named, parts[1..], isDir)
      case "data" => AllowedData(named, parts[1..], isDir)
      case "install-control" => AllowedControl(parts[1..], isDir)
      case _ => false
  }

  predicate Allowed(named: NameTest, target: Target, parts: seq<string>, isDir: bool)
    requires parts != []
  {
    match target
    case DataTarget => AllowedData(named, parts, isDir)
    case BaseTarget => AllowedBase(named, parts, isDir)
    case LogsTarget => AllowedLogs(named, parts, isDir)
    case ProgramTarget => !isDir && |parts| == 1 && parts[0] in {"mihari", "mihari.exe", ".mihari-binary.lock"}
    case ControlTarget => AllowedControl(parts, isDir)
    case CommandTarget => false
  }

  // ---- Prefix closure ----

  function Parent(parts: seq<string>): seq<string>
    requires parts != []
  {
    parts[..|parts| - 1]
  }

  lemma ParentOfTail(parts: seq<string>)
    requires |parts| >= 2
    ensures Parent(parts)[0] == parts[0] && Parent(parts)[1..] == Parent(parts[1..])
  {
  }

  lemma WebParent(named: NameTest, parts: seq<string>, isDir: bool)
    requires |parts| >= 2 && AllowedWeb(named, parts, isDir)
    ensures AllowedWeb(named, Parent(parts), true)
  {
  }

  lemma RuntimeParent(named: NameTest, parts: seq<string>, isDir: bool)
    requires |parts| >= 2 && AllowedRuntime(named, parts, isDir)
    ensures AllowedRuntime(named, Parent(parts), true)
  {
    ParentOfTail(parts);
  }

  lemma StagingParent(named: NameTest, parts: seq<string>, isDir: bool)
    requires |parts| >= 2 && AllowedStaging(named, parts, isDir)
    ensures AllowedStaging(named, Parent(parts), true)
  {
    ParentOfTail(parts);
  }

  lemma DataParent(named: NameTest, parts: seq<string>, isDir: bool)
    requires |parts| >= 2 && AllowedData(named, parts, isDir)
    ensures AllowedData(named, Parent(parts), true)
  {
    hide AllowedWeb, AllowedRuntime, AllowedStaging;
    if !DataScratch(named, parts, isDir) {
      ParentOfTail(parts);
      if |parts| >= 3 {
        match parts[0]
        case "runtime" => RuntimeParent(named, parts[1..], isDir);
        case "web" => WebParent(named, parts[1..], isDir);
        case "staging" => StagingParent(named, parts[1..], isDir);
        case _ =>
      }
    }
  }

  lemma ParentAllowed(named: NameTest, target: Target, parts: seq<string>, isDir: bool)
    requires |parts| >= 2 && Allowed(named, target, parts, isDir)
    ensures Allowed(named, target, Parent(parts), true)
  {
    hide AllowedData;
    ParentOfTail(parts);
    match target
    case DataTarget => DataParent(named, parts, isDir);
    case BaseTarget =>
      if parts[0] == "data" && |parts| >= 3 { DataParent(named, parts[1..], isDir); }
    case _ =>
  }

  /** Every directory above an allowed entry is allowed as a directory, at any depth. */
  lemma {:induction false} PrefixClosed(named: NameTest, target: Target, parts: seq<string>, isDir: bool, k: nat)
    requires parts != [] && Allowed(named, target, parts, isDir) && 0 < k < |parts|
    ensures Allowed(named, target, parts[..k], true)
    decreases |parts|
  {
    ParentAllowed(named, target, parts, isDir);
    if k < |parts| - 1 {
      PrefixClosed(named, target, Parent(parts), true, k);
      assert Parent(parts)[..k] == parts[..k];
    }
  }

  // ---- The walker ----

  /** The exact regular command on the search path is exempt, and nothing around it. */
  predicate Accepted(named: NameTest, target: Target, root: Path, command: Option<Path>, q: Path, kind: Kind)
    requires root <= q && root != q
  {
    && !kind.Link?
    && ((command == Some(q) && kind.File?) || Allowed(named, target, q[|root|..], kind.Directory?))
  }

  /** Every entry below a directory is accepted. */
  ghost predicate AllAccepted(nodes: Nodes, named: NameTest, target: Target, root: Path, command: Option<Path>, directory: Path)
    requires root <= directory
  {
    forall q {:trigger q in nodes} :: q in nodes && directory <= q && directory != q ==>
      Accepted(named, target, root, command, q, nodes[q])
  }

  /** An entry below a directory is one of its own entries, or lies below one that is a directory. */
  lemma BelowAnEntry(nodes: Nodes, directory: Path, q: Path) returns (name: string)
    requires WellFormed(nodes) && q in nodes && directory <= q && directory != q
    ensures name in Names(nodes, directory) && directory + [name] in nodes && directory + [name] <= q
    ensures q != directory + [name] ==> nodes[directory + [name]].Directory?
  {
    name := q[|directory|];
    AncestorsExist(nodes, q, |directory| + 1);
    assert q[..|directory| + 1] == directory + [name];
  }

  /** One directory is accepted exactly if its entries are, and everything below them. */
  lemma AcceptedByEntries(nodes: Nodes, named: NameTest, target: Target, root: Path, command: Option<Path>, directory: Path)
    requires WellFormed(nodes) && root <= directory
    requires forall name :: name in Names(nodes, directory) ==>
               EntryAccepted(nodes, named, target, root, command, directory, name)
    ensures AllAccepted(nodes, named, target, root, command, directory)
  {
    hide Accepted, WellFormed, Names;
    forall q | q in nodes && directory <= q && directory != q ensures Accepted(named, target, root, command, q, nodes[q]) {
      var name := BelowAnEntry(nodes, directory, q);
      assert EntryAccepted(nodes, named, target, root, command, directory, name);
    }
  }

  ghost predicate EntryAccepted(nodes: Nodes, named: NameTest, target: Target, root: Path, command: Option<Path>, directory: Path, name: string)
    requires root <= directory
  {
    var path := directory + [name];
    && path in nodes && Accepted(named, target, root, command, path, nodes[path])
    && (nodes[path].Directory? ==> AllAccepted(nodes, named, target, root, command, path))
  }

  lemma AcceptedEntry(nodes: Nodes, named: NameTest, target: Target, root: Path, command: Option<Path>, directory: Path, name: string)
    requires root <= directory && AllAccepted(nodes, named, target, root, command, directory) && directory + [name] in nodes
    ensures EntryAccepted(nodes, named, target, root, command, directory, name)
  {
    hide Accepted;
    var path := directory + [name];
    forall q | q in nodes && path <= q && path != q ensures Accepted(named, target, root, command, q, nodes[q]) {
      assert directory <= q && directory != q;
    }
  }

  lemma NameIsEntry(nodes: Nodes, directory: Path, name: string)
    requires name in Names(nodes, directory)
    ensures directory + [name] in nodes
  {
    var q :| q in nodes && |q| == |directory| + 1 && directory <= q && q[|directory|] == name;
    assert q == directory + [name];
  }

  lemma EntryByTests(named: NameTest, target: Target, root: Path, command: Option<Path>, q: Path, kind: Kind)
    requires root <= q && root != q
    ensures Accepted(named, target, root, command, q, kind) <==>
              !kind.Link? && ((command == Some(q) && kind.File?) || Allowed(named, target, q[|root|..], kind.Directory?))
  {
    hide Allowed;
  }

  /** The walker accepts a tree exactly if every entry in it is acceptable on its own. */
  method CheckDirectory(nodes: Nodes, named: NameTest, target: Target, root: Path, command: Option<Path>, directory: Path, ghost depth: nat)
    returns (ok: bool)
    requires WellFormed(nodes) && root <= directory && directory in nodes && forall q :: q in nodes ==> |q| <= depth
    ensures ok <==> AllAccepted(nodes, named, target, root, command, directory)
    decreases depth - |directory|
  {
    hide Accepted, WellFormed, Names, AllAccepted, Allowed;
    var todo := Names(nodes, directory);
    while todo != {}
      invariant todo <= Names(nodes, directory)
      invariant forall name :: name in Names(nodes, directory) && name !in todo ==>
                  EntryAccepted(nodes, named, target, root, command, directory, name)
      decreases todo
    {
      var name :| name in todo;
      var path := directory + [name];
      NameIsEntry(nodes, directory, name);
      ghost var whole := AllAccepted(nodes, named, target, root, command, directory);
      if whole { AcceptedEntry(nodes, named, target, root, command, directory, name); }
      EntryByTests(named, target, root, command, path, nodes[path]);
      if nodes[path].Link? {
        return false;
      }
      if command != Some(path) || !nodes[path].File? {
        if !Allowed(named, target, path[|root|..], nodes[path].Directory?) {
          return false;
        }
        if nodes[path].Directory? {
          var below := CheckDirectory(nodes, named, target, root, command, path, depth);
          if !below {
            return false;
          }
        }
      }
      todo := todo - {name};
    }
    AcceptedByEntries(nodes, named, target, root, command, directory);
    ok := true;
  }

  ghost function Depth(nodes: Nodes): nat
    ensures forall q :: q in nodes ==> |q| <= Depth(nodes)
  {
    if nodes == map[] then 0
    else
      var q :| q in nodes;
      var rest := Depth(nodes - {q});
      assert forall p :: p in nodes && p != q ==> p in nodes - {q};
      if |q| > rest then |q| else rest
  }

  /** A whole target: a missing root is fine, a link or a file in its place is not. */
  method CheckTarget(nodes: Nodes, named: NameTest, target: Target, root: Path, command: Option<Path>) returns (ok: bool)
    requires WellFormed(nodes)
    ensures ok <==> target.CommandTarget? || root !in nodes
                    || (nodes[root].Directory? && AllAccepted(nodes, named, target, root, command, root))
  {
    if target.CommandTarget? || root !in nodes {
      return true;
    }
    if !nodes[root].Directory? {
      return false;
    }
    ok := CheckDirectory(nodes, named, target, root, command, root, Depth(nodes));
  }
}
