/**
  The allowlist of generated files as a table of path patterns, and the proof that the
  nested tests of the uninstaller accept exactly what the table lists.
 */
module UninstallTable {
  import opened Options
  import opened UninstallFiles
  import Trees = RetainedCleanup

  /** What one component of a path may be. */
  datatype Part = OneOf(names: set<string>) | Like(test: NameClass) | Except(names: set<string>, test: NameClass) | Plain

  /** A path pattern for a directory, for a file, or for anything at any depth below it. */
  datatype Row = Folder(parts: seq<Part>) | File(parts: seq<Part>) | Below(parts: seq<Part>)

  type Table = set<Row>

  predicate PartFits(named: NameTest, part: Part, name: string) {
    match part
    case OneOf(names) => name in names
    case Like(test) => named(test, name)
    case Except(names, test) => name !in names && named(test, name)
    case Plain => name != "" && name != "." && name != ".."
  }

  predicate PartsFit(named: NameTest, pattern: seq<Part>, parts: seq<string>) {
    |pattern| == |parts| && forall i :: 0 <= i < |parts| ==> PartFits(named, pattern[i], parts[i])
  }

  predicate RowFits(named: NameTest, row: Row, parts: seq<string>, isDir: bool) {
    match row
    case Folder(pattern) => isDir && PartsFit(named, pattern, parts)
    case File(pattern) => !isDir && PartsFit(named, pattern, parts)
    case Below(pattern) =>
      && |parts| > |pattern| && PartsFit(named, pattern, parts[..|pattern|])
      && forall i :: |pattern| <= i < |parts| ==> PartFits(named, Plain, parts[i])
  }

  ghost predicate Lists(named: NameTest, table: Table, parts: seq<string>, isDir: bool) {
    exists row :: row in table && RowFits(named, row, parts, isDir)
  }

  function Deeper(name: string, row: Row): Row {
    match row
    case Folder(parts) => Folder([OneOf({name})] + parts)
    case File(parts) => File([OneOf({name})] + parts)
    case Below(parts) => Below([OneOf({name})] + parts)
  }

  /** The table of a directory, as seen from above it. */
  ghost function Under(name: string, table: Table): Table { set row | row in table :: Deeper(name, row) }

  // ---- The table ----

  ghost const BIN: Table := {File([OneOf({"mihomo", "mihomo.exe", "mihomo.provenance.json", "core-channel"})]), File([Like(OldCore)])}

  ghost const RULESET: Table := {File([Plain])}

  ghost const CORE_HOME: Table :=
    {Folder([OneOf({"providers", "ruleset", "tmp"})]), File([Like(CoreHomeFile)]), File([Like(WorkingFile)]),
     File([OneOf({"providers"}), Like(ProviderFile)]), File([OneOf({"ruleset"}), Plain])}

  ghost const RUNTIME: Table :=
    {Folder([OneOf({"core-home"})]), File([OneOf({"config.yaml"})]), File([Like(AtomicTemp("config.yaml"))])} + Under("core-home", CORE_HOME)

  ghost const SUBSCRIPTIONS: Table :=
    {Folder([OneOf({"cache"})]), File([OneOf({"catalog.yaml"})]), File([Like(AtomicTemp("catalog.yaml"))]), File([OneOf({"cache"}), Like(CacheFile)])}

  ghost const GEOIP: Table :=
    {File([OneOf({"GeoLite2-Country.mmdb", "GeoLite2-Country.mmdb.previous", "GeoLite2-ASN.mmdb", "GeoLite2-ASN.mmdb.previous"})])}

  ghost const PREFERENCES: Table := {File([OneOf({"tui.json"})]), File([Like(AtomicTemp("tui.json"))])}

  ghost const PROVIDERS: Table := {File([Like(ProviderFile)])}

  ghost const WEB: Table :=
    {Folder([OneOf({"zashboard", "metacubexd"})]), File([OneOf({"active.json", "credential"})]), File([Like(AtomicTemp("active.json"))]),
     Below([OneOf({"zashboard", "metacubexd"})])}

  ghost const LOGS: Table :=
    {Folder([OneOf({"logs", "logs-export"})]), File([OneOf({"logs"}), Like(LogName)]), File([OneOf({"logs-export"}), Like(LogExport)])}

  ghost const CORE_STAGING: Table :=
    {File([OneOf({"provenance-commit.json"})]), Folder([Like(Hex32)]),
     File([Like(Hex32), OneOf({"candidate-binary", "candidate-receipt.json", "backup-binary", "backup-receipt.json",
                               "restore-binary", "restore-receipt.json", "quarantine-binary", "quarantine-receipt.json", "transaction-id"})])}

  ghost const PROVIDER_STAGING: Table :=
    {File([OneOf({"commit.json", "activation.json"})]), Folder([Like(Hex32)]), File([Like(Hex32), OneOf({"candidate", "source", "transaction-id"})])}

  ghost const STAGING_ROOT: Table :=
    {Folder([OneOf({"core", "providers", "geoip", "panels", "subscriptions"})]),
     File([Like(TempName(".mihomo-download-", ""))]), File([Like(TempName(".mihomo-candidate-", ""))]),
     File([OneOf({"geoip"}), Like(TempName(".candidate-", ".mmdb"))]),
     Folder([OneOf({"panels"}), Like(PanelStagingDirectory)]), File([OneOf({"panels"}), Like(PanelStagingZip)]),
     File([OneOf({"subscriptions"}), Like(StagedConfig)])}

  ghost const STAGING: Table := STAGING_ROOT + Under("core", CORE_STAGING) + Under("providers", PROVIDER_STAGING)

  ghost const LOCKS: Table := {File([OneOf({"install-data-id"})])}

  ghost const CONTROL: Table := {File([OneOf({"state.json", "previous-state.json", "operation.lock", "startup.lock"})])}

  ghost const DATA_ROOT: Table :=
    {Folder([OneOf({"bin", "runtime", "subscriptions", "geoip", "preferences", "providers", "web", "logs", "logs-export", "staging",
                    "locks", "install-control", "ruleset"})]),
     File([OneOf({"mihari.yaml", "onboarding.json", "control.token", "daemon.lock", "mihari.yaml.lock", "control.sock",
                  "mihari-channel", "install.lock"})]),
     File([Like(EndpointName)]), File([Like(EndpointLock)]), File([Like(CoreHomeFile)]), File([Like(WorkingFile)]),
     File([Like(AtomicTemp("mihari.yaml"))]), File([Like(AtomicTemp("onboarding.json"))])}

  ghost const DATA: Table :=
    DATA_ROOT + Under("bin", BIN) + Under("runtime", RUNTIME) + Under("subscriptions", SUBSCRIPTIONS) + Under("geoip", GEOIP)
    + Under("preferences", PREFERENCES) + Under("providers", PROVIDERS) + Under("web", WEB) + Under("ruleset", RULESET)
    + LOGS + Under("staging", STAGING) + Under("locks", LOCKS) + Under("install-control", CONTROL)

  ghost const JOURNAL: Table :=
    {Folder([Like(Hex32)]), File([Like(Hex32), OneOf({"transaction-id", "unit", "unit-bootstrap", "ready.json", "validation-launch.json"})])}

  ghost const BASE_ROOT: Table :=
    {Folder([OneOf({"transactions", "data", "install-control"})]),
     File([OneOf({"install-transaction.json", "control.sock", "control.token", "mihari-channel", "install.lock"})]),
     File([Except({"transactions", "data", "install-control"}, EndpointName)]),
     File([Except({"transactions", "data", "install-control"}, EndpointLock)])}

  ghost const BASE: Table := BASE_ROOT + Under("transactions", JOURNAL) + Under("install-control", CONTROL)

  ghost const PROGRAM: Table := {File([OneOf({"mihari", "mihari.exe", ".mihari-binary.lock"})])}

  /** The data root: what the table lists, and a scratch file in it or in any directory the table lists. */
  ghost predicate ListedData(named: NameTest, parts: seq<string>, isDir: bool)
    requires parts != []
  {
    || Lists(named, DATA, parts, isDir)
    || (!isDir && named(Scratch, parts[|parts| - 1]) && (|parts| == 1 || Lists(named, DATA, parts[..|parts| - 1], true)))
  }

  ghost predicate Listed(named: NameTest, target: Target, parts: seq<string>, isDir: bool)
    requires parts != []
  {
    match target
    case DataTarget => ListedData(named, parts, isDir)
    case BaseTarget => Lists(named, BASE, parts, isDir) || (parts[0] == "data" && |parts| > 1 && ListedData(named, parts[1..], isDir))
    case LogsTarget => Lists(named, LOGS, parts, isDir)
    case ProgramTarget => Lists(named, PROGRAM, parts, isDir)
    case ControlTarget => Lists(named, CONTROL, parts, isDir)
    case CommandTarget => false
  }

  // ---- Tables in parts ----

  lemma OneFits(named: NameTest, part: Part, parts: seq<string>)
    ensures PartsFit(named, [part], parts) <==> |parts| == 1 && PartFits(named, part, parts[0])
  {
  }

  lemma TwoFit(named: NameTest, a: Part, b: Part, parts: seq<string>)
    ensures PartsFit(named, [a, b], parts) <==> |parts| == 2 && PartFits(named, a, parts[0]) && PartFits(named, b, parts[1])
  {
  }

  lemma DeeperFits(named: NameTest, name: string, row: Row, parts: seq<string>, isDir: bool)
    ensures RowFits(named, Deeper(name, row), parts, isDir) <==> parts != [] && parts[0] == name && RowFits(named, row, parts[1..], isDir)
  {
    var pattern := [OneOf({name})] + row.parts;
    if parts != [] {
      PatternDeeper(named, name, row.parts, parts);
      if row.Below? && |parts| > |pattern| {
        PatternDeeper(named, name, row.parts, parts[..|pattern|]);
        assert parts[..|pattern|][1..] == parts[1..][..|row.parts|];
        assert forall i :: |row.parts| <= i < |parts[1..]| ==> parts[1..][i] == parts[i + 1];
        if forall i :: |row.parts| <= i < |parts[1..]| ==> PartFits(named, Plain, parts[1..][i]) {
          forall i | |pattern| <= i < |parts| ensures PartFits(named, Plain, parts[i]) { assert parts[i] == parts[1..][i - 1]; }
        }
      }
    }
  }

  lemma PatternDeeper(named: NameTest, name: string, pattern: seq<Part>, parts: seq<string>)
    requires parts != []
    ensures PartsFit(named, [OneOf({name})] + pattern, parts) <==> parts[0] == name && PartsFit(named, pattern, parts[1..])
  {
    var all := [OneOf({name})] + pattern;
    assert all[0] == OneOf({name});
    if PartsFit(named, all, parts) {
      forall i | 0 <= i < |parts[1..]| ensures PartFits(named, pattern[i], parts[1..][i]) { assert all[i + 1] == pattern[i]; }
    }
  }

  lemma UnderLists(named: NameTest, name: string, table: Table, parts: seq<string>, isDir: bool)
    ensures Lists(named, Under(name, table), parts, isDir) <==> parts != [] && parts[0] == name && Lists(named, table, parts[1..], isDir)
  {
    hide RowFits, Deeper;
    if Lists(named, Under(name, table), parts, isDir) {
      var row :| row in Under(name, table) && RowFits(named, row, parts, isDir);
      var inner :| inner in table && row == Deeper(name, inner);
      DeeperFits(named, name, inner, parts, isDir);
    }
    if parts != [] && parts[0] == name && Lists(named, table, parts[1..], isDir) {
      var inner :| inner in table && RowFits(named, inner, parts[1..], isDir);
      DeeperFits(named, name, inner, parts, isDir);
      assert Deeper(name, inner) in Under(name, table);
    }
  }

  lemma BothList(named: NameTest, a: Table, b: Table, parts: seq<string>, isDir: bool)
    ensures Lists(named, a + b, parts, isDir) <==> Lists(named, a, parts, isDir) || Lists(named, b, parts, isDir)
  {
    hide RowFits;
  }

  /** A table of one row. */
  lemma OneLists(named: NameTest, row: Row, parts: seq<string>, isDir: bool)
    ensures Lists(named, {row}, parts, isDir) <==> RowFits(named, row, parts, isDir)
  {
    hide RowFits;
    assert row in {row};
  }

  lemma OneMoreRow(named: NameTest, row: Row, table: Table, parts: seq<string>, isDir: bool)
    ensures Lists(named, {row} + table, parts, isDir) <==> RowFits(named, row, parts, isDir) || Lists(named, table, parts, isDir)
  {
    hide RowFits;
    BothList(named, {row}, table, parts, isDir);
    OneLists(named, row, parts, isDir);
  }

  lemma PatternsFit(named: NameTest, parts: seq<string>)
    ensures forall p :: PartsFit(named, [p], parts) <==> |parts| == 1 && PartFits(named, p, parts[0])
    ensures forall p, q :: PartsFit(named, [p, q], parts) <==> |parts| == 2 && PartFits(named, p, parts[0]) && PartFits(named, q, parts[1])
  {
    forall p ensures PartsFit(named, [p], parts) <==> |parts| == 1 && PartFits(named, p, parts[0]) { OneFits(named, p, parts); }
    forall p, q ensures PartsFit(named, [p, q], parts) <==> |parts| == 2 && PartFits(named, p, parts[0]) && PartFits(named, q, parts[1]) {
      TwoFit(named, p, q, parts);
    }
  }

  /** Up to four rows, spelled out. */
  lemma FewRows(named: NameTest, a: Row, b: Row, c: Row, d: Row, parts: seq<string>, isDir: bool)
    ensures Lists(named, {a, b, c, d}, parts, isDir) <==>
            RowFits(named, a, parts, isDir) || RowFits(named, b, parts, isDir) || RowFits(named, c, parts, isDir) || RowFits(named, d, parts, isDir)
  {
    hide RowFits;
    assert a in {a, b, c, d} && b in {a, b, c, d} && c in {a, b, c, d} && d in {a, b, c, d};
  }

  // ---- Each directory ----

  lemma BinIsListed(named: NameTest, parts: seq<string>, isDir: bool)
    ensures AllowedBin(named, parts, isDir) <==> Lists(named, BIN, parts, isDir)
  {
    var a, b := File([OneOf({"mihomo", "mihomo.exe", "mihomo.provenance.json", "core-channel"})]), File([Like(OldCore)]);
    assert BIN == {a, b, b, b};
    FewRows(named, a, b, b, b, parts, isDir);
    PatternsFit(named, parts);
  }

  lemma RulesetIsListed(named: NameTest, parts: seq<string>, isDir: bool)
    ensures AllowedRuleset(parts, isDir) <==> Lists(named, RULESET, parts, isDir)
  {
    OneLists(named, File([Plain]), parts, isDir);
    PatternsFit(named, parts);
  }

  lemma CoreHomeIsListed(named: NameTest, parts: seq<string>, isDir: bool)
    requires parts != []
    ensures AllowedCoreHome(named, parts, isDir) <==> Lists(named, CORE_HOME, parts, isDir)
  {
    var a, b, c := Folder([OneOf({"providers", "ruleset", "tmp"})]), File([Like(CoreHomeFile)]), File([Like(WorkingFile)]);
    var d, e := File([OneOf({"providers"}), Like(ProviderFile)]), File([OneOf({"ruleset"}), Plain]);
    assert CORE_HOME == {e} + {a, b, c, d};
    FewRows(named, a, b, c, d, parts, isDir);
    OneMoreRow(named, e, {a, b, c, d}, parts, isDir);
    PatternsFit(named, parts);
  }

  lemma RuntimeIsListed(named: NameTest, parts: seq<string>, isDir: bool)
    requires parts != []
    ensures AllowedRuntime(named, parts, isDir) <==> Lists(named, RUNTIME, parts, isDir)
  {
    hide AllowedCoreHome;
    var a, b, c := Folder([OneOf({"core-home"})]), File([OneOf({"config.yaml"})]), File([Like(AtomicTemp("config.yaml"))]);
    assert {a, b, c, c} == {a, b, c};
    FewRows(named, a, b, c, c, parts, isDir);
    BothList(named, {a, b, c}, Under("core-home", CORE_HOME), parts, isDir);
    UnderLists(named, "core-home", CORE_HOME, parts, isDir);
    if |parts| > 1 { CoreHomeIsListed(named, parts[1..], isDir); } else { NothingInside(named, CORE_HOME, isDir); }
    PatternsFit(named, parts);
  }

  /** No table lists the directory it is the table of. */
  lemma NothingInside(named: NameTest, table: Table, isDir: bool)
    requires forall row :: row in table ==> row.parts != []
    ensures !Lists(named, table, [], isDir)
  {
  }

  lemma SubscriptionsAreListed(named: NameTest, parts: seq<string>, isDir: bool)
    requires parts != []
    ensures AllowedSubscriptions(named, parts, isDir) <==> Lists(named, SUBSCRIPTIONS, parts, isDir)
  {
    var a, b, c, d :=
      Folder([OneOf({"cache"})]), File([OneOf({"catalog.yaml"})]), File([Like(AtomicTemp("catalog.yaml"))]), File([OneOf({"cache"}), Like(CacheFile)]);
    FewRows(named, a, b, c, d, parts, isDir);
    PatternsFit(named, parts);
  }

  lemma GeoIPIsListed(named: NameTest, parts: seq<string>, isDir: bool)
    ensures AllowedGeoIP(parts, isDir) <==> Lists(named, GEOIP, parts, isDir)
  {
    OneLists(named, File([OneOf({"GeoLite2-Country.mmdb", "GeoLite2-Country.mmdb.previous", "GeoLite2-ASN.mmdb", "GeoLite2-ASN.mmdb.previous"})]), parts, isDir);
    PatternsFit(named, parts);
  }

  lemma ControlIsListed(named: NameTest, parts: seq<string>, isDir: bool)
    ensures AllowedControl(parts, isDir) <==> Lists(named, CONTROL, parts, isDir)
  {
    OneLists(named, File([OneOf({"state.json", "previous-state.json", "operation.lock", "startup.lock"})]), parts, isDir);
    PatternsFit(named, parts);
  }

  lemma WebIsListed(named: NameTest, parts: seq<string>, isDir: bool)
    requires parts != []
    ensures AllowedWeb(named, parts, isDir) <==> Lists(named, WEB, parts, isDir)
  {
    var panels := OneOf({"zashboard", "metacubexd"});
    var a, b, c, d := Folder([panels]), File([OneOf({"active.json", "credential"})]), File([Like(AtomicTemp("active.json"))]), Below([panels]);
    FewRows(named, a, b, c, d, parts, isDir);
    PatternsFit(named, parts);
    OneFits(named, panels, parts[..1]);
  }

  lemma LogsAreListed(named: NameTest, parts: seq<string>, isDir: bool)
    requires parts != []
    ensures AllowedLogs(named, parts, isDir) <==> Lists(named, LOGS, parts, isDir)
  {
    var a, b, c := Folder([OneOf({"logs", "logs-export"})]), File([OneOf({"logs"}), Like(LogName)]), File([OneOf({"logs-export"}), Like(LogExport)]);
    assert LOGS == {a, b, c, c};
    FewRows(named, a, b, c, c, parts, isDir);
    PatternsFit(named, parts);
  }

  lemma CoreStagingIsListed(named: NameTest, parts: seq<string>, isDir: bool)
    requires parts != []
    ensures AllowedCoreStaging(named, parts, isDir) <==> Lists(named, CORE_STAGING, parts, isDir)
  {
    var a, b := File([OneOf({"provenance-commit.json"})]), Folder([Like(Hex32)]);
    var c := File([Like(Hex32), OneOf({"candidate-binary", "candidate-receipt.json", "backup-binary", "backup-receipt.json",
                                       "restore-binary", "restore-receipt.json", "quarantine-binary", "quarantine-receipt.json", "transaction-id"})]);
    assert CORE_STAGING == {a, b, c, c};
    FewRows(named, a, b, c, c, parts, isDir);
    PatternsFit(named, parts);
  }

  lemma ProviderStagingIsListed(named: NameTest, parts: seq<string>, isDir: bool)
    requires parts != []
    ensures AllowedProviderStaging(named, parts, isDir) <==> Lists(named, PROVIDER_STAGING, parts, isDir)
  {
    var a, b, c :=
      File([OneOf({"commit.json", "activation.json"})]), Folder([Like(Hex32)]), File([Like(Hex32), OneOf({"candidate", "source", "transaction-id"})]);
    assert PROVIDER_STAGING == {a, b, c, c};
    FewRows(named, a, b, c, c, parts, isDir);
    PatternsFit(named, parts);
  }

  lemma StagingRootIsListed(named: NameTest, parts: seq<string>, isDir: bool)
    requires parts != []
    ensures Lists(named, STAGING_ROOT, parts, isDir) <==>
            || (|parts| == 1 && isDir && parts[0] in {"core", "providers", "geoip", "panels", "subscriptions"})
            || (|parts| == 1 && !isDir && (named(TempName(".mihomo-download-", ""), parts[0]) || named(TempName(".mihomo-candidate-", ""), parts[0])))
            || (|parts| == 2 && parts[0] == "geoip" && !isDir && named(TempName(".candidate-", ".mmdb"), parts[1]))
            || (|parts| == 2 && parts[0] == "panels"
                && ((isDir && named(PanelStagingDirectory, parts[1])) || (!isDir && named(PanelStagingZip, parts[1]))))
            || (|parts| == 2 && parts[0] == "subscriptions" && !isDir && named(StagedConfig, parts[1]))
  {
    var a := Folder([OneOf({"core", "providers", "geoip", "panels", "subscriptions"})]);
    var b, c := File([Like(TempName(".mihomo-download-", ""))]), File([Like(TempName(".mihomo-candidate-", ""))]);
    var d, e := File([OneOf({"geoip"}), Like(TempName(".candidate-", ".mmdb"))]), Folder([OneOf({"panels"}), Like(PanelStagingDirectory)]);
    var f, g := File([OneOf({"panels"}), Like(PanelStagingZip)]), File([OneOf({"subscriptions"}), Like(StagedConfig)]);
    assert STAGING_ROOT == {a, b, c, d} + {e, f, g, g};
    FewRows(named, a, b, c, d, parts, isDir);
    FewRows(named, e, f, g, g, parts, isDir);
    BothList(named, {a, b, c, d}, {e, f, g, g}, parts, isDir);
    PatternsFit(named, parts);
  }

  lemma StagingIsListed(named: NameTest, parts: seq<string>, isDir: bool)
    requires parts != []
    ensures AllowedStaging(named, parts, isDir) <==> Lists(named, STAGING, parts, isDir)
  {
    hide AllowedCoreStaging, AllowedProviderStaging, Lists, Under;
    StagingRootIsListed(named, parts, isDir);
    BothList(named, STAGING_ROOT, Under("core", CORE_STAGING), parts, isDir);
    BothList(named, STAGING_ROOT + Under("core", CORE_STAGING), Under("providers", PROVIDER_STAGING), parts, isDir);
    UnderLists(named, "core", CORE_STAGING, parts, isDir);
    UnderLists(named, "providers", PROVIDER_STAGING, parts, isDir);
    if |parts| > 1 {
      CoreStagingIsListed(named, parts[1..], isDir);
      ProviderStagingIsListed(named, parts[1..], isDir);
    } else {
      assert parts[1..] == [];
      NothingInside(named, CORE_STAGING, isDir);
      NothingInside(named, PROVIDER_STAGING, isDir);
    }
  }

  lemma JournalIsListed(named: NameTest, parts: seq<string>, isDir: bool)
    requires parts != []
    ensures AllowedJournal(named, parts, isDir) <==> Lists(named, JOURNAL, parts, isDir)
  {
    var a, b :=
      Folder([Like(Hex32)]), File([Like(Hex32), OneOf({"transaction-id", "unit", "unit-bootstrap", "ready.json", "validation-launch.json"})]);
    assert JOURNAL == {a, b, b, b};
    FewRows(named, a, b, b, b, parts, isDir);
    PatternsFit(named, parts);
  }

  // ---- The data root ----

  lemma RootIsListed(named: NameTest, parts: seq<string>, isDir: bool)
    ensures Lists(named, DATA_ROOT, parts, isDir) <==> |parts| == 1 && AllowedDataRoot(named, parts[0], isDir)
  {
    var a := Folder([OneOf({"bin", "runtime", "subscriptions", "geoip", "preferences", "providers", "web", "logs", "logs-export", "staging",
                            "locks", "install-control", "ruleset"})]);
    var b := File([OneOf({"mihari.yaml", "onboarding.json", "control.token", "daemon.lock", "mihari.yaml.lock", "control.sock",
                          "mihari-channel", "install.lock"})]);
    var c, d, e, f := File([Like(EndpointName)]), File([Like(EndpointLock)]), File([Like(CoreHomeFile)]), File([Like(WorkingFile)]);
    var g, h := File([Like(AtomicTemp("mihari.yaml"))]), File([Like(AtomicTemp("onboarding.json"))]);
    assert DATA_ROOT == {a, b, c, d} + {e, f, g, h};
    FewRows(named, a, b, c, d, parts, isDir);
    FewRows(named, e, f, g, h, parts, isDir);
    BothList(named, {a, b, c, d}, {e, f, g, h}, parts, isDir);
    PatternsFit(named, parts);
  }

  /** The small directories of the data root. */
  lemma SmallAreListed(named: NameTest, parts: seq<string>, isDir: bool)
    ensures Lists(named, PREFERENCES, parts, isDir) <==>
            |parts| == 1 && !isDir && (parts[0] == "tui.json" || named(AtomicTemp("tui.json"), parts[0]))
    ensures Lists(named, PROVIDERS, parts, isDir) <==> |parts| == 1 && !isDir && named(ProviderFile, parts[0])
    ensures Lists(named, LOCKS, parts, isDir) <==> |parts| == 1 && !isDir && parts[0] == "install-data-id"
  {
    var a, b := File([OneOf({"tui.json"})]), File([Like(AtomicTemp("tui.json"))]);
    assert PREFERENCES == {a, b, b, b};
    FewRows(named, a, b, b, b, parts, isDir);
    OneLists(named, File([Like(ProviderFile)]), parts, isDir);
    OneLists(named, File([OneOf({"install-data-id"})]), parts, isDir);
    PatternsFit(named, parts);
  }

  lemma DataTableParts(named: NameTest, parts: seq<string>, isDir: bool)
    ensures Lists(named, DATA, parts, isDir) <==>
            || Lists(named, DATA_ROOT, parts, isDir) || Lists(named, Under("bin", BIN), parts, isDir)
            || Lists(named, Under("runtime", RUNTIME), parts, isDir) || Lists(named, Under("subscriptions", SUBSCRIPTIONS), parts, isDir)
            || Lists(named, Under("geoip", GEOIP), parts, isDir) || Lists(named, Under("preferences", PREFERENCES), parts, isDir)
            || Lists(named, Under("providers", PROVIDERS), parts, isDir) || Lists(named, Under("web", WEB), parts, isDir)
            || Lists(named, Under("ruleset", RULESET), parts, isDir) || Lists(named, LOGS, parts, isDir)
            || Lists(named, Under("staging", STAGING), parts, isDir) || Lists(named, Under("locks", LOCKS), parts, isDir)
            || Lists(named, Under("install-control", CONTROL), parts, isDir)
  {
    hide Lists, Under;
    var t := DATA_ROOT;
    BothList(named, t, Under("bin", BIN), parts, isDir); t := t + Under("bin", BIN);
    BothList(named, t, Under("runtime", RUNTIME), parts, isDir); t := t + Under("runtime", RUNTIME);
    BothList(named, t, Under("subscriptions", SUBSCRIPTIONS), parts, isDir); t := t + Under("subscriptions", SUBSCRIPTIONS);
    BothList(named, t, Under("geoip", GEOIP), parts, isDir); t := t + Under("geoip", GEOIP);
    BothList(named, t, Under("preferences", PREFERENCES), parts, isDir); t := t + Under("preferences", PREFERENCES);
    BothList(named, t, Under("providers", PROVIDERS), parts, isDir); t := t + Under("providers", PROVIDERS);
    BothList(named, t, Under("web", WEB), parts, isDir); t := t + Under("web", WEB);
    BothList(named, t, Under("ruleset", RULESET), parts, isDir); t := t + Under("ruleset", RULESET);
    BothList(named, t, LOGS, parts, isDir); t := t + LOGS;
    BothList(named, t, Under("staging", STAGING), parts, isDir); t := t + Under("staging", STAGING);
    BothList(named, t, Under("locks", LOCKS), parts, isDir); t := t + Under("locks", LOCKS);
    BothList(named, t, Under("install-control", CONTROL), parts, isDir);
  }

  lemma InsideIsListed(named: NameTest, rest: seq<string>, isDir: bool)
    ensures AllowedBin(named, rest, isDir) <==> Lists(named, BIN, rest, isDir)
    ensures rest != [] ==> (AllowedRuntime(named, rest, isDir) <==> Lists(named, RUNTIME, rest, isDir))
    ensures rest != [] ==> (AllowedSubscriptions(named, rest, isDir) <==> Lists(named, SUBSCRIPTIONS, rest, isDir))
    ensures AllowedGeoIP(rest, isDir) <==> Lists(named, GEOIP, rest, isDir)
    ensures rest != [] ==> (AllowedWeb(named, rest, isDir) <==> Lists(named, WEB, rest, isDir))
    ensures AllowedRuleset(rest, isDir) <==> Lists(named, RULESET, rest, isDir)
    ensures rest != [] ==> (AllowedStaging(named, rest, isDir) <==> Lists(named, STAGING, rest, isDir))
    ensures AllowedControl(rest, isDir) <==> Lists(named, CONTROL, rest, isDir)
  {
    hide AllowedBin, AllowedRuntime, AllowedSubscriptions, AllowedGeoIP, AllowedWeb, AllowedRuleset, AllowedStaging, AllowedControl, Lists;
    BinIsListed(named, rest, isDir);
    GeoIPIsListed(named, rest, isDir);
    RulesetIsListed(named, rest, isDir);
    ControlIsListed(named, rest, isDir);
    if rest != [] {
      RuntimeIsListed(named, rest, isDir);
      SubscriptionsAreListed(named, rest, isDir);
      WebIsListed(named, rest, isDir);
      StagingIsListed(named, rest, isDir);
    }
  }

  lemma NothingUnder(named: NameTest, a: Table, name: string, b: Table, isDir: bool)
    requires !Lists(named, a, [], isDir)
    ensures !Lists(named, a + Under(name, b), [], isDir)
  {
    hide Lists;
    BothList(named, a, Under(name, b), [], isDir);
    UnderLists(named, name, b, [], isDir);
  }

  lemma TablesAreNotEmpty(named: NameTest, isDir: bool)
    ensures !Lists(named, BIN, [], isDir) && !Lists(named, RUNTIME, [], isDir) && !Lists(named, SUBSCRIPTIONS, [], isDir)
    ensures !Lists(named, GEOIP, [], isDir) && !Lists(named, WEB, [], isDir) && !Lists(named, RULESET, [], isDir)
    ensures !Lists(named, STAGING, [], isDir) && !Lists(named, CONTROL, [], isDir)
  {
    hide Lists, Under;
    NothingInside(named, BIN, isDir);
    NothingInside(named, {Folder([OneOf({"core-home"})]), File([OneOf({"config.yaml"})]), File([Like(AtomicTemp("config.yaml"))])}, isDir);
    NothingUnder(named, {Folder([OneOf({"core-home"})]), File([OneOf({"config.yaml"})]), File([Like(AtomicTemp("config.yaml"))])},
                 "core-home", CORE_HOME, isDir);
    NothingInside(named, SUBSCRIPTIONS, isDir);
    NothingInside(named, GEOIP, isDir);
    NothingInside(named, WEB, isDir);
    NothingInside(named, RULESET, isDir);
    NothingInside(named, STAGING_ROOT, isDir);
    NothingUnder(named, STAGING_ROOT, "core", CORE_STAGING, isDir);
    NothingUnder(named, STAGING_ROOT + Under("core", CORE_STAGING), "providers", PROVIDER_STAGING, isDir);
    NothingInside(named, CONTROL, isDir);
  }

  lemma DataIsListed(named: NameTest, parts: seq<string>, isDir: bool)
    requires parts != []
    ensures AllowedDataPlain(named, parts, isDir) <==> Lists(named, DATA, parts, isDir)
  {
    hide AllowedBin, AllowedRuntime, AllowedSubscriptions, AllowedGeoIP, AllowedWeb, AllowedRuleset, AllowedStaging, AllowedControl, Lists, Under,
         AllowedDataRoot;
    DataTableParts(named, parts, isDir);
    RootIsListed(named, parts, isDir);
    LogsAreListed(named, parts, isDir);
    var rest := parts[1..];
    UnderLists(named, "bin", BIN, parts, isDir);
    UnderLists(named, "runtime", RUNTIME, parts, isDir);
    UnderLists(named, "subscriptions", SUBSCRIPTIONS, parts, isDir);
    UnderLists(named, "geoip", GEOIP, parts, isDir);
    UnderLists(named, "preferences", PREFERENCES, parts, isDir);
    UnderLists(named, "providers", PROVIDERS, parts, isDir);
    UnderLists(named, "web", WEB, parts, isDir);
    UnderLists(named, "ruleset", RULESET, parts, isDir);
    UnderLists(named, "staging", STAGING, parts, isDir);
    UnderLists(named, "locks", LOCKS, parts, isDir);
    UnderLists(named, "install-control", CONTROL, parts, isDir);
    SmallAreListed(named, rest, isDir);
    InsideIsListed(named, rest, isDir);
    if |parts| == 1 {
      assert rest == [];
      TablesAreNotEmpty(named, isDir);
      LogsAtRoot(named, parts[0], isDir);
    }
  }

  lemma LogsAtRoot(named: NameTest, name: string, isDir: bool)
    ensures AllowedLogs(named, [name], isDir) ==> AllowedDataRoot(named, name, isDir)
  {
  }

  /** Scratch files lie in listed directories, never below one another. */
  lemma ScratchIsLast(named: NameTest, parts: seq<string>, isDir: bool)
    requires parts != []
    ensures AllowedData(named, parts, isDir) <==>
            || AllowedDataPlain(named, parts, isDir)
            || (!isDir && named(Scratch, parts[|parts| - 1]) && (|parts| == 1 || AllowedDataPlain(named, parts[..|parts| - 1], true)))
  {
    hide AllowedDataPlain;
    if |parts| > 1 {
      var parent := parts[..|parts| - 1];
      assert AllowedData(named, parent, true) <==> AllowedDataPlain(named, parent, true);
    }
  }

  lemma AllDataIsListed(named: NameTest, parts: seq<string>, isDir: bool)
    requires parts != []
    ensures AllowedData(named, parts, isDir) <==> ListedData(named, parts, isDir)
  {
    hide AllowedDataPlain, AllowedData, Lists;
    ScratchIsLast(named, parts, isDir);
    DataIsListed(named, parts, isDir);
    if |parts| > 1 { DataIsListed(named, parts[..|parts| - 1], true); }
  }

  lemma BaseRootIsListed(named: NameTest, parts: seq<string>, isDir: bool)
    ensures Lists(named, BASE_ROOT, parts, isDir) <==>
            && |parts| == 1
            && if isDir then parts[0] in {"transactions", "data", "install-control"}
               else
                 || parts[0] in {"install-transaction.json", "control.sock", "control.token", "mihari-channel", "install.lock"}
                 || (parts[0] !in {"transactions", "data", "install-control"} && (named(EndpointName, parts[0]) || named(EndpointLock, parts[0])))
  {
    var a, b := Folder([OneOf({"transactions", "data", "install-control"})]),
                File([OneOf({"install-transaction.json", "control.sock", "control.token", "mihari-channel", "install.lock"})]);
    var c, d := File([Except({"transactions", "data", "install-control"}, EndpointName)]),
                File([Except({"transactions", "data", "install-control"}, EndpointLock)]);
    FewRows(named, a, b, c, d, parts, isDir);
    PatternsFit(named, parts);
  }

  lemma BaseIsListed(named: NameTest, parts: seq<string>, isDir: bool)
    requires parts != []
    ensures AllowedBase(named, parts, isDir) <==> Listed(named, BaseTarget, parts, isDir)
  {
    hide AllowedData, ListedData, AllowedJournal, AllowedControl, Lists, Under;
    BaseRootIsListed(named, parts, isDir);
    BothList(named, BASE_ROOT, Under("transactions", JOURNAL), parts, isDir);
    BothList(named, BASE_ROOT + Under("transactions", JOURNAL), Under("install-control", CONTROL), parts, isDir);
    UnderLists(named, "transactions", JOURNAL, parts, isDir);
    UnderLists(named, "install-control", CONTROL, parts, isDir);
    if |parts| > 1 {
      JournalIsListed(named, parts[1..], isDir);
      ControlIsListed(named, parts[1..], isDir);
      AllDataIsListed(named, parts[1..], isDir);
    } else {
      assert parts[1..] == [];
      NothingInside(named, JOURNAL, isDir);
      NothingInside(named, CONTROL, isDir);
    }
  }

  /** The uninstaller's tests accept exactly the entries that the table lists. */
  lemma AllowedIsListed(named: NameTest, target: Target, parts: seq<string>, isDir: bool)
    requires parts != []
    ensures Allowed(named, target, parts, isDir) <==> Listed(named, target, parts, isDir)
  {
    hide AllowedData, AllowedBase, AllowedLogs, AllowedControl, ListedData;
    match target
    case DataTarget => AllDataIsListed(named, parts, isDir);
    case BaseTarget => BaseIsListed(named, parts, isDir);
    case LogsTarget => LogsAreListed(named, parts, isDir);
    case ControlTarget => ControlIsListed(named, parts, isDir);
    case ProgramTarget =>
      OneLists(named, File([OneOf({"mihari", "mihari.exe", ".mihari-binary.lock"})]), parts, isDir);
      PatternsFit(named, parts);
    case CommandTarget =>
  }

  /**
    A tree passes the walker if and only if no entry in it is a link and each is the exempt
    command, as a regular file, or listed under its path from the root.
   */
  lemma TreeIsListed(nodes: Trees.Nodes, named: NameTest, target: Target, root: seq<string>, command: Option<seq<string>>)
    ensures AllAccepted(nodes, named, target, root, command, root) <==>
              forall rest {:trigger root + rest} :: rest != [] && root + rest in nodes ==>
                && nodes[root + rest] != Trees.Link
                && ((command == Some(root + rest) && nodes[root + rest] == Trees.File)
                    || Listed(named, target, rest, nodes[root + rest] == Trees.Directory))
  {
    hide Allowed, Listed;
    forall rest: seq<string> {:trigger root + rest} | rest != []
      ensures (root + rest)[|root|..] == rest
      ensures forall isDir :: Allowed(named, target, rest, isDir) <==> Listed(named, target, rest, isDir)
    {
      AllowedIsListed(named, target, rest, true);
      AllowedIsListed(named, target, rest, false);
    }
    forall q | q in nodes && root <= q && root != q ensures root + q[|root|..] == q && q[|root|..] != [] {}
  }
}
