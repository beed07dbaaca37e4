/** Which entries of a data directory a reset deletes, and which it preserves. */
module InstallationReset {
  import opened Options
  import opened InstallationRecords

  predicate ValidName(name: string) {
    name != "" && name != "." && name != ".." && '/' !in name && '\\' !in name && '\0' !in name
  }

  /** A path as text, which is what the preview is ordered by. */
  function Text(p: Path): string { if p == [] then "" else Text(p[..|p| - 1]) + "/" + p[|p| - 1] }

  predicate ValidPath(p: Path) { |Text(p)| <= 4096 && '\0' !in Text(p) }

  /** The index of the reset entry with this name, or the number of entries. */
  function ManagedAt(name: string, from: nat := 0): (i: nat)
    requires from <= |RESET_ENTRIES|
    ensures from <= i <= |RESET_ENTRIES| && (i < |RESET_ENTRIES| ==> RESET_ENTRIES[i].0 == name)
    ensures forall k :: from <= k < i ==> RESET_ENTRIES[k].0 != name
    decreases |RESET_ENTRIES| - from
  {
    if from == |RESET_ENTRIES| || RESET_ENTRIES[from].0 == name then from else ManagedAt(name, from + 1)
  }

  predicate Managed(name: string) { ManagedAt(name) < |RESET_ENTRIES| }

  function CategoryOf(name: string): string { if Managed(name) then RESET_ENTRIES[ManagedAt(name)].1 else "unknown" }

  function Deletions(root: Path): (d: seq<Entry>)
    ensures |d| == |RESET_ENTRIES|
    ensures forall i :: 0 <= i < |d| ==> d[i] == Entry(root + [RESET_ENTRIES[i].0], RESET_ENTRIES[i].1)
  {
    seq(|RESET_ENTRIES|, i requires 0 <= i < |RESET_ENTRIES| => Entry(root + [RESET_ENTRIES[i].0], RESET_ENTRIES[i].1))
  }

  /** A reset must not reach into the source of a migration. */
  predicate SourceApart(mode: Mode, m: Manifest, source: Option<Scope>) {
    mode.Fresh? && source.Some? ==>
      && !Overlap(m.dataRoot, source.value.dataRoot)
      && m.root != Some(source.value.identity) && m.parent != Some(source.value.identity)
  }

  predicate CredentialApart(mode: Mode, m: Manifest) {
    mode.Fresh? ==> forall i :: 0 <= i < |RESET_ENTRIES| ==> !Overlap(m.dataRoot + [RESET_ENTRIES[i].0], m.credential)
  }

  /** A child that is listed by its own name. */
  predicate Listed(mode: Mode, m: Manifest, name: string) {
    !(mode.Fresh? && Managed(name)) && m.dataRoot + [name] != m.credential
  }

  predicate ChildrenFit(mode: Mode, m: Manifest, children: seq<string>) {
    && (forall i :: 0 <= i < |children| ==> ValidName(children[i]) && ValidPath(m.dataRoot + [children[i]]))
    && (forall i, k :: 0 <= i < k < |children| && children[i] == children[k] ==> !Listed(mode, m, children[i]))
  }

  predicate Acceptable(mode: Mode, m: Manifest, source: Option<Scope>, children: seq<string>) {
    && !mode.Elsewhere? && m.dataRoot != [] && ValidPath(m.dataRoot) && m.credential != [] && ValidPath(m.credential)
    && SourceApart(mode, m, source) && CredentialApart(mode, m) && ChildrenFit(mode, m, children)
  }

  /** The preserved children in the order in which they were observed. */
  function Kept(mode: Mode, m: Manifest, children: seq<string>): seq<Entry> {
    if children == [] then []
    else
      var name := children[|children| - 1];
      Kept(mode, m, children[..|children| - 1])
      + if Listed(mode, m, name) then [Entry(m.dataRoot + [name], CategoryOf(name))] else []
  }

  // ---- The order of the preview ----

  predicate Before(a: string, b: string) {
    b != [] && (a == [] || a[0] < b[0] || (a[0] == b[0] && Before(a[1..], b[1..])))
  }

  lemma {:induction false} BeforeTransitive(a: string, b: string, c: string)
    requires !Before(b, a) && !Before(c, b)
    ensures !Before(c, a)
  {
    if a != [] && b != [] && c != [] && c[0] == a[0] && b[0] == a[0] { BeforeTransitive(a[1..], b[1..], c[1..]); }
  }

  lemma {:induction false} BeforeAsymmetric(a: string, b: string)
    requires Before(a, b)
    ensures !Before(b, a)
  {
    if a != [] && a[0] == b[0] { BeforeAsymmetric(a[1..], b[1..]); }
  }

  predicate InOrder(a: Entry, b: Entry) { !Before(Text(b.path), Text(a.path)) }

  predicate Sorted(entries: seq<Entry>) {
    forall i, k :: 0 <= i < k < |entries| ==> InOrder(entries[i], entries[k])
  }

  /** Puts `e` behind every entry it is not before. */
  method Insert(entries: seq<Entry>, e: Entry) returns (result: seq<Entry>)
    requires Sorted(entries)
    ensures Sorted(result) && multiset(result) == multiset(entries) + multiset{e}
  {
    hide Text, Before;
    var i := |entries|;
    while i > 0 && Before(Text(e.path), Text(entries[i - 1].path))
      invariant 0 <= i <= |entries|
      invariant forall k :: i <= k < |entries| ==> Before(Text(e.path), Text(entries[k].path))
    {
      i := i - 1;
    }
    result := entries[..i] + [e] + entries[i..];
    InsertKeepsOrder(entries, e, i);
    InsertKeepsEntries(entries[..i], e, entries[i..]);
    assert entries == entries[..i] + entries[i..];
  }

  lemma InsertKeepsEntries(front: seq<Entry>, e: Entry, back: seq<Entry>)
    ensures multiset(front + [e] + back) == multiset(front + back) + multiset{e}
  {
  }

  lemma InsertKeepsOrder(entries: seq<Entry>, e: Entry, i: nat)
    requires Sorted(entries) && i <= |entries|
    requires i > 0 ==> InOrder(entries[i - 1], e)
    requires forall k :: i <= k < |entries| ==> Before(Text(e.path), Text(entries[k].path))
    ensures Sorted(entries[..i] + [e] + entries[i..])
  {
    hide Text, Before;
    var r := entries[..i] + [e] + entries[i..];
    forall a, b | 0 <= a < b < |r| ensures InOrder(r[a], r[b]) {
      if b == i {
        if a < i - 1 {
          assert InOrder(entries[a], entries[i - 1]);
          BeforeTransitive(Text(entries[a].path), Text(entries[i - 1].path), Text(e.path));
        }
      } else if a == i {
        BeforeAsymmetric(Text(e.path), Text(r[b].path));
      }
    }
  }

  method Sort(entries: seq<Entry>) returns (result: seq<Entry>)
    ensures Sorted(result) && multiset(result) == multiset(entries)
  {
    result := [];
    for i := 0 to |entries|
      invariant Sorted(result) && multiset(result) == multiset(entries[..i])
    {
      result := Insert(result, entries[i]);
      assert entries[..i + 1] == entries[..i] + [entries[i]];
    }
    assert entries[..|entries|] == entries;
  }

  /** Builds the preview, or refuses. */
  method DataEntries(mode: Mode, m: Manifest, source: Option<Scope>, children: seq<string>)
    returns (r: Option<(seq<Entry>, seq<Entry>)>)
    ensures r.Some? <==> Acceptable(mode, m, source, children)
    ensures r.Some? ==> r.value.1 == if mode.Fresh? then Deletions(m.dataRoot) else []
    ensures r.Some? ==>
              Sorted(r.value.0) && multiset(r.value.0) == multiset(Kept(mode, m, children) + [Entry(m.credential, "credential")])
  {
    hide Text, Before, ManagedAt;
    if mode.Elsewhere? || m.dataRoot == [] || !ValidPath(m.dataRoot) || m.credential == [] || !ValidPath(m.credential)
       || !SourceApart(mode, m, source) {
      return None;
    }
    var remove := [];
    if mode.Fresh? {
      for i := 0 to |RESET_ENTRIES|
        invariant remove == Deletions(m.dataRoot)[..i]
        invariant forall k :: 0 <= k < i ==> !Overlap(m.dataRoot + [RESET_ENTRIES[k].0], m.credential)
      {
        var path := m.dataRoot + [RESET_ENTRIES[i].0];
        if Overlap(path, m.credential) {
          return None;
        }
        remove := remove + [Entry(path, RESET_ENTRIES[i].1)];
      }
    }
    var kept := KeepChildren(mode, m, children);
    if kept.None? {
      return None;
    }
    var preserve := Sort(kept.value + [Entry(m.credential, "credential")]);
    r := Some((preserve, remove));
  }

  method KeepChildren(mode: Mode, m: Manifest, children: seq<string>) returns (kept: Option<seq<Entry>>)
    ensures kept.Some? <==> ChildrenFit(mode, m, children)
    ensures kept.Some? ==> kept.value == Kept(mode, m, children)
  {
    hide ChildrenFit, Kept, Listed, ValidPath, CategoryOf;
    var preserve := [];
    assert children[..0] == [];
    NothingKept(mode, m);
    for i := 0 to |children|
      invariant preserve == Kept(mode, m, children[..i]) && ChildrenFit(mode, m, children[..i])
    {
      var name := children[i];
      assert children[..i + 1] == children[..i] + [name];
      OneMoreChild(mode, m, children[..i], name);
      if !ValidName(name) || !ValidPath(m.dataRoot + [name]) {
        FitsOnlyWhole(mode, m, children, i + 1);
        return None;
      }
      if Listed(mode, m, name) {
        var repeated := Contains(preserve, m.dataRoot + [name]);
        if repeated {
          FitsOnlyWhole(mode, m, children, i + 1);
          return None;
        }
        preserve := preserve + [Entry(m.dataRoot + [name], CategoryOf(name))];
      }
    }
    assert children[..|children|] == children;
    kept := Some(preserve);
  }

  method Contains(entries: seq<Entry>, path: Path) returns (found: bool)
    ensures found <==> HasPath(entries, path)
  {
    for k := 0 to |entries|
      invariant forall t :: 0 <= t < k ==> entries[t].path != path
    {
      if entries[k].path == path {
        return true;
      }
    }
    found := false;
  }

  predicate HasPath(entries: seq<Entry>, path: Path) { exists k :: 0 <= k < |entries| && entries[k].path == path }

  lemma NothingKept(mode: Mode, m: Manifest)
    ensures Kept(mode, m, []) == [] && ChildrenFit(mode, m, [])
  {
  }

  lemma FitsOnlyWhole(mode: Mode, m: Manifest, children: seq<string>, n: nat)
    requires n <= |children| && !ChildrenFit(mode, m, children[..n])
    ensures !ChildrenFit(mode, m, children)
  {
    hide Listed, ValidPath;
  }

  lemma SameName(root: Path, a: string, b: string)
    requires root + [a] == root + [b]
    ensures a == b
  {
    assert (root + [a])[|root|] == a && (root + [b])[|root|] == b;
  }

  /** One more child fits exactly if its name is valid and, when listed, not kept already. */
  lemma OneMoreChild(mode: Mode, m: Manifest, children: seq<string>, name: string)
    requires ChildrenFit(mode, m, children)
    ensures ChildrenFit(mode, m, children + [name]) <==>
              && ValidName(name) && ValidPath(m.dataRoot + [name])
              && (Listed(mode, m, name) ==> !HasPath(Kept(mode, m, children), m.dataRoot + [name]))
    ensures Kept(mode, m, children + [name]) == Kept(mode, m, children)
            + if Listed(mode, m, name) then [Entry(m.dataRoot + [name], CategoryOf(name))] else []
  {
    hide Listed, ValidPath, ValidName, CategoryOf;
    var more := children + [name];
    assert more[..|children|] == children && more[|children|] == name;
    if Listed(mode, m, name) {
      assert HasPath(Kept(mode, m, children), m.dataRoot + [name]) <==> name in children by {
        if HasPath(Kept(mode, m, children), m.dataRoot + [name]) {
          var k :| 0 <= k < |Kept(mode, m, children)| && Kept(mode, m, children)[k].path == m.dataRoot + [name];
          var t := KeptFrom(mode, m, children, k);
          SameName(m.dataRoot, children[t], name);
        }
        if name in children {
          var t :| 0 <= t < |children| && children[t] == name;
          var k := KeptAt(mode, m, children, t);
        }
      }
    }
  }

  /** The child behind the `k`th kept entry. */
  lemma {:induction false} KeptFrom(mode: Mode, m: Manifest, children: seq<string>, k: nat) returns (t: nat)
    requires k < |Kept(mode, m, children)|
    ensures t < |children| && Listed(mode, m, children[t])
    ensures Kept(mode, m, children)[k] == Entry(m.dataRoot + [children[t]], CategoryOf(children[t]))
  {
    hide CategoryOf, Listed;
    var n := |children| - 1;
    if k < |Kept(mode, m, children[..n])| { t := KeptFrom(mode, m, children[..n], k); } else { t := n; }
  }

  /** Where a listed child is kept. */
  lemma {:induction false} KeptAt(mode: Mode, m: Manifest, children: seq<string>, t: nat) returns (k: nat)
    requires t < |children| && Listed(mode, m, children[t])
    ensures k < |Kept(mode, m, children)|
    ensures Kept(mode, m, children)[k] == Entry(m.dataRoot + [children[t]], CategoryOf(children[t]))
  {
    hide CategoryOf, Listed;
    var n := |children| - 1;
    if t < n { k := KeptAt(mode, m, children[..n], t); } else { k := |Kept(mode, m, children[..n])|; }
  }

  // ---- The partition ----

  lemma {:induction false} DistinctOccurs(s: seq<Entry>, e: Entry)
    requires DistinctPaths(s)
    ensures multiset(s)[e] <= 1
  {
    if s != [] {
      var n := |s| - 1;
      assert s == s[..n] + [s[n]];
      DistinctOccurs(s[..n], e);
      if s[n] == e { assert e !in s[..n]; }
    }
  }

  lemma TwiceOccurs(s: seq<Entry>, i: nat, k: nat)
    requires i < k < |s| && s[i] == s[k]
    ensures multiset(s)[s[i]] >= 2
  {
    assert s == s[..k] + [s[k]] + s[k + 1..];
    assert s[i] in s[..k];
    assert s[i] in multiset(s[..k]);
  }

  /** Sorting does not make two entries share a path. */
  lemma SortedStaysDistinct(s: seq<Entry>, t: seq<Entry>)
    requires DistinctPaths(s) && multiset(s) == multiset(t)
    ensures DistinctPaths(t)
  {
    forall i, k | 0 <= i < k < |t| ensures t[i].path != t[k].path {
      assert t[i] in multiset(t) && t[k] in multiset(t);
      var a :| 0 <= a < |s| && s[a] == t[i];
      var b :| 0 <= b < |s| && s[b] == t[k];
      if t[i].path == t[k].path {
        DistinctOccurs(s, t[i]);
        TwiceOccurs(t, i, k);
      }
    }
  }

  lemma {:induction false} KeptIsDistinct(mode: Mode, m: Manifest, children: seq<string>)
    requires ChildrenFit(mode, m, children)
    ensures DistinctPaths(Kept(mode, m, children)) && !HasPath(Kept(mode, m, children), m.credential)
  {
    hide ValidPath, CategoryOf;
    if children != [] {
      var n := |children| - 1;
      assert children == children[..n] + [children[n]];
      assert ChildrenFit(mode, m, children[..n]);
      OneMoreChild(mode, m, children[..n], children[n]);
      KeptIsDistinct(mode, m, children[..n]);
    }
  }

  ghost predicate Preview(mode: Mode, m: Manifest, children: seq<string>, preserve: seq<Entry>, delete: seq<Entry>) {
    && multiset(preserve) == multiset(Kept(mode, m, children) + [Entry(m.credential, "credential")])
    && delete == if mode.Fresh? then Deletions(m.dataRoot) else []
  }

  lemma InPreview(mode: Mode, m: Manifest, children: seq<string>, preserve: seq<Entry>, delete: seq<Entry>, path: Path)
    requires Preview(mode, m, children, preserve, delete)
    ensures HasPath(preserve, path) <==> path == m.credential || HasPath(Kept(mode, m, children), path)
  {
    var all := Kept(mode, m, children) + [Entry(m.credential, "credential")];
    SamePaths(preserve, all, path);
    if path == m.credential { assert all[|all| - 1].path == path; }
    if HasPath(Kept(mode, m, children), path) {
      var k :| 0 <= k < |Kept(mode, m, children)| && Kept(mode, m, children)[k].path == path;
      assert all[k].path == path;
    }
  }

  lemma SamePaths(s: seq<Entry>, t: seq<Entry>, path: Path)
    requires multiset(s) == multiset(t)
    ensures HasPath(s, path) <==> HasPath(t, path)
  {
    if HasPath(s, path) {
      var k :| 0 <= k < |s| && s[k].path == path;
      assert s[k] in multiset(t);
    }
    if HasPath(t, path) {
      var k :| 0 <= k < |t| && t[k].path == path;
      assert t[k] in multiset(s);
    }
  }

  lemma KeptIsListed(mode: Mode, m: Manifest, children: seq<string>, name: string)
    requires HasPath(Kept(mode, m, children), m.dataRoot + [name])
    ensures Listed(mode, m, name) && name in children
  {
    hide Listed;
    var k :| 0 <= k < |Kept(mode, m, children)| && Kept(mode, m, children)[k].path == m.dataRoot + [name];
    var t := KeptFrom(mode, m, children, k);
    SameName(m.dataRoot, children[t], name);
  }

  lemma DeletedAreManaged(m: Manifest, name: string)
    ensures HasPath(Deletions(m.dataRoot), m.dataRoot + [name]) <==> Managed(name)
  {
    hide ManagedAt;
    var d := Deletions(m.dataRoot);
    if Managed(name) { assert d[ManagedAt(name)].path == m.dataRoot + [name]; }
    if HasPath(d, m.dataRoot + [name]) {
      var k :| 0 <= k < |d| && d[k].path == m.dataRoot + [name];
      SameName(m.dataRoot, RESET_ENTRIES[k].0, name);
    }
  }

  /** Every observed child is deleted or preserved, and never both. */
  lemma EveryChildHasOnePlace(mode: Mode, m: Manifest, source: Option<Scope>, children: seq<string>,
                              preserve: seq<Entry>, delete: seq<Entry>, i: nat)
    requires Acceptable(mode, m, source, children) && Preview(mode, m, children, preserve, delete) && i < |children|
    ensures HasPath(preserve, m.dataRoot + [children[i]]) <==> !HasPath(delete, m.dataRoot + [children[i]])
    ensures HasPath(delete, m.dataRoot + [children[i]]) <==> mode.Fresh? && Managed(children[i])
  {
    hide Kept, ManagedAt, Deletions;
    var name := children[i];
    var path := m.dataRoot + [name];
    InPreview(mode, m, children, preserve, delete, path);
    DeletedAreManaged(m, name);
    if Listed(mode, m, name) { var k := KeptAt(mode, m, children, i); }
    if HasPath(Kept(mode, m, children), path) { KeptIsListed(mode, m, children, name); }
  }

  /** A deletion is a direct child of the data root, and never the credential. */
  lemma DeletionsApart(m: Manifest)
    requires CredentialApart(Fresh, m)
    ensures DistinctPaths(Deletions(m.dataRoot))
    ensures forall i :: 0 <= i < |RESET_ENTRIES| ==> !Overlap(Deletions(m.dataRoot)[i].path, m.credential)
  {
    var d := Deletions(m.dataRoot);
    forall i, k | 0 <= i < k < |d| ensures d[i].path != d[k].path {
      if d[i].path == d[k].path { SameName(m.dataRoot, RESET_ENTRIES[i].0, RESET_ENTRIES[k].0); }
    }
  }

  lemma PreserveMissesDelete(mode: Mode, m: Manifest, children: seq<string>, preserve: seq<Entry>, delete: seq<Entry>, k: nat)
    requires Preview(mode, m, children, preserve, delete) && CredentialApart(mode, m) && k < |delete|
    ensures !HasPath(preserve, delete[k].path)
  {
    hide Kept;
    var name := RESET_ENTRIES[k].0;
    InPreview(mode, m, children, preserve, delete, delete[k].path);
    DeletedAreManaged(m, name);
    if HasPath(Kept(mode, m, children), m.dataRoot + [name]) { KeptIsListed(mode, m, children, name); }
  }

  /**
    The preview lists no path twice, preserves the credential exactly once, deletes
    nothing that overlaps it, and passes the manager's own scope check.
   */
  lemma PreviewIsPartition(m: Manifest, children: seq<string>, input: PlanInput)
    requires Acceptable(input.mode, m, input.instance.scope, children)
    requires Preview(input.mode, m, children, input.preserve, input.delete)
    ensures DistinctPaths(input.preserve + input.delete)
    ensures Entry(m.credential, "credential") in input.preserve
    ensures forall k :: 0 <= k < |input.delete| ==> !Overlap(input.delete[k].path, m.credential)
    ensures ScopeFits(input, m)
  {
    hide Kept, Deletions, ManagedAt;
    var all := Kept(input.mode, m, children) + [Entry(m.credential, "credential")];
    KeptIsDistinct(input.mode, m, children);
    SortedStaysDistinct(all, input.preserve);
    assert all[|all| - 1] in multiset(input.preserve);
    if input.mode.Fresh? { DeletionsApart(m); }
    forall i, k | 0 <= i < |input.preserve| && 0 <= k < |input.delete| ensures input.preserve[i].path != input.delete[k].path {
      PreserveMissesDelete(input.mode, m, children, input.preserve, input.delete, k);
    }
  }

  // ---- The order, the categories and the paths, spelled out ----

  /** The order of texts is lexicographic: they agree up to some place, and there one ends or has the smaller character. */
  lemma {:induction false} BeforeIsLexicographic(a: string, b: string)
    ensures Before(a, b) <==> exists k :: 0 <= k <= |a| && k < |b| && a[..k] == b[..k] && (k == |a| || a[k] < b[k])
    decreases |a|
  {
    if a != [] && b != [] && a[0] == b[0] {
      BeforeIsLexicographic(a[1..], b[1..]);
      if k :| 0 <= k <= |a| && k < |b| && a[..k] == b[..k] && (k == |a| || a[k] < b[k]) {
        assert k > 0;
        assert a[1..][..k - 1] == a[..k][1..] && b[1..][..k - 1] == b[..k][1..];
      }
      if k :| 0 <= k <= |a[1..]| && k < |b[1..]| && a[1..][..k] == b[1..][..k] && (k == |a[1..]| || a[1..][k] < b[1..][k]) {
        assert a[..k + 1] == [a[0]] + a[1..][..k] && b[..k + 1] == [b[0]] + b[1..][..k];
      }
    } else {
      assert a[..0] == b[..0];
      forall k | 0 < k <= |a| && k < |b| && a[0] != b[0] ensures a[..k] != b[..k] {
        assert a[..k][0] == a[0] && b[..k][0] == b[0];
      }
    }
  }

  /** The category of a child: what it is listed under, or "unknown". */
  lemma CategoryIsListed(name: string)
    ensures CategoryOf(name) ==
            if name in {"mihari.yaml", "onboarding.json"} then "config"
            else if name in {"logs", "logs-export"} then "logs"
            else if name == "bin" then "binaries"
            else if name == "geoip" then "assets"
            else if name in {"subscriptions", "preferences", "runtime", "web", "staging"} then name
            else "unknown"
  {
    hide ManagedAt;
    var i := ManagedAt(name);
    if i == |RESET_ENTRIES| {
      assert forall k :: 0 <= k < |RESET_ENTRIES| ==> RESET_ENTRIES[k].0 != name;
      assert RESET_ENTRIES[0].0 != name && RESET_ENTRIES[1].0 != name && RESET_ENTRIES[2].0 != name && RESET_ENTRIES[3].0 != name
          && RESET_ENTRIES[4].0 != name && RESET_ENTRIES[5].0 != name && RESET_ENTRIES[6].0 != name && RESET_ENTRIES[7].0 != name
          && RESET_ENTRIES[8].0 != name && RESET_ENTRIES[9].0 != name && RESET_ENTRIES[10].0 != name;
    }
  }

  /** What a fresh installation deletes, in this order. */
  lemma DeletionsAreListed(root: Path)
    ensures Deletions(root) ==
            [Entry(root + ["mihari.yaml"], "config"), Entry(root + ["onboarding.json"], "config"),
             Entry(root + ["subscriptions"], "subscriptions"), Entry(root + ["preferences"], "preferences"),
             Entry(root + ["runtime"], "runtime"), Entry(root + ["logs"], "logs"), Entry(root + ["logs-export"], "logs"),
             Entry(root + ["bin"], "binaries"), Entry(root + ["geoip"], "assets"), Entry(root + ["web"], "web"),
             Entry(root + ["staging"], "staging")]
  {
  }

  /** A path as text is its components, each behind a slash. */
  lemma TextIsSlashed(p: Path, q: Path)
    ensures Text(p + q) == Text(p) + Text(q) && (|p| == 1 ==> Text(p) == "/" + p[0])
    decreases |q|
  {
    if |p| == 1 { assert p[..0] == [] && Text([]) == ""; }
    if q == [] {
      assert p + q == p;
    } else {
      var n := |q| - 1;
      assert (p + q)[..|p + q| - 1] == p + q[..n] && (p + q)[|p + q| - 1] == q[n];
      TextIsSlashed(p, q[..n]);
    }
  }

  /** Which names and paths are refused: empty ones, the two dots, separators, zero bytes, and texts over 4096 characters. */
  lemma RefusedNames(name: string, p: Path)
    ensures ValidName(name) <==> name !in {"", ".", ".."} && forall i :: 0 <= i < |name| ==> name[i] !in {'/', '\\', '\0'}
    ensures ValidPath(p) <==> |Text(p)| < 4097 && forall i :: 0 <= i < |Text(p)| ==> Text(p)[i] != '\0'
  {
  }
}
