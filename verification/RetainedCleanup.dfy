/** Uninstall cleanup that deletes a whole tree around one retained path. */
module RetainedCleanup {

  type Path = seq<string>

  /** `Special` is a socket or any other entry that is neither regular, a link nor a directory. */
  datatype Kind = File | Special | Link | Directory

  type Nodes = map<Path, Kind>

  /** Every entry lies in a directory, up to the root. */
  ghost predicate WellFormed(nodes: Nodes) {
    forall q :: q in nodes && q != [] ==> q[..|q| - 1] in nodes && nodes[q[..|q| - 1]].Directory?
  }

  /** On the way to the retained path, the retained path itself, or inside it. */
  predicate Spared(q: Path, retained: Path) { q <= retained || retained <= q }

  /** What cleaning `directory` leaves: everything elsewhere, and what is spared. */
  function Cleaned(nodes: Nodes, directory: Path, retained: Path): Nodes {
    map q | q in nodes && (Spared(q, retained) || !(directory <= q)) :: nodes[q]
  }

  /** Nothing appears, nothing changes, and nothing spared disappears. */
  ghost predicate OnlyRemoved(before: Nodes, after: Nodes, retained: Path) {
    && (forall q :: q in after ==> q in before && after[q] == before[q])
    && (forall q :: q in before && Spared(q, retained) ==> q in after)
  }

  /** The names in a directory. */
  function Names(nodes: Nodes, directory: Path): set<string> {
    set q | q in nodes && |q| == |directory| + 1 && directory <= q :: q[|directory|]
  }

  /** The tree while the names in `todo` have not been visited. */
  function Partly(nodes: Nodes, directory: Path, retained: Path, todo: set<string>): Nodes {
    map q | q in nodes && (Spared(q, retained) || !(directory <= q) || (|q| > |directory| && q[|directory|] in todo)) :: nodes[q]
  }

  lemma {:induction false} AncestorsExist(nodes: Nodes, q: Path, k: nat)
    requires WellFormed(nodes) && q in nodes && k <= |q|
    ensures q[..k] in nodes && (k < |q| ==> nodes[q[..k]].Directory?)
    decreases |q| - k
  {
    if k == |q| {
      assert q[..k] == q;
    } else {
      AncestorsExist(nodes, q, k + 1);
      assert q[..k + 1][..k] == q[..k];
    }
  }

  /** Before the first visit nothing is missing, after the last the directory is clean. */
  lemma PartlyEnds(nodes: Nodes, directory: Path, retained: Path)
    requires WellFormed(nodes) && directory <= retained
    ensures Partly(nodes, directory, retained, Names(nodes, directory)) == nodes
    ensures Partly(nodes, directory, retained, {}) == Cleaned(nodes, directory, retained)
  {
    forall q | q in nodes && directory <= q && |q| > |directory| ensures q[|directory|] in Names(nodes, directory) {
      AncestorsExist(nodes, q, |directory| + 1);
      assert q[..|directory| + 1][|directory|] == q[|directory|];
    }
    forall q | q in nodes && directory <= q && !(|q| > |directory|) ensures Spared(q, retained) {}
  }

  /** A subtree is what begins with its path. */
  lemma FirstName(q: Path, directory: Path, name: string)
    requires directory <= q && |q| > |directory|
    ensures directory + [name] <= q <==> q[|directory|] == name
  {
  }

  function Without(nodes: Nodes, path: Path): Nodes { map q | q in nodes && !(path <= q) :: nodes[q] }

  lemma WithoutIsWellFormed(nodes: Nodes, path: Path)
    requires WellFormed(nodes)
    ensures WellFormed(Without(nodes, path))
  {
    forall q | q in Without(nodes, path) && q != [] ensures !(path <= q[..|q| - 1]) {
      assert q[..|q| - 1] <= q;
    }
  }

  /** Below an entry off the way nothing is spared. */
  lemma NotSpared(path: Path, q: Path, retained: Path)
    requires path <= q && !(path <= retained) && |path| <= |retained|
    ensures !Spared(q, retained)
  {
    assert path == q[..|path|];
  }

  /** Removing an entry that is not spared finishes its name. */
  lemma RemoveFinishes(nodes: Nodes, directory: Path, retained: Path, todo: set<string>, name: string)
    requires directory <= retained && directory != retained && !(directory + [name] <= retained)
    ensures Without(Partly(nodes, directory, retained, todo), directory + [name])
            == Partly(nodes, directory, retained, todo - {name})
  {
    var path := directory + [name];
    forall q | q in nodes ensures q in Without(Partly(nodes, directory, retained, todo), path)
                                  <==> q in Partly(nodes, directory, retained, todo - {name})
    {
      if path <= q {
        assert directory <= q && q[|directory|] == name;
        NotSpared(path, q, retained);
      } else if directory <= q && |q| > |directory| {
        FirstName(q, directory, name);
      }
    }
  }

  /** Keeping the retained entry, or a non-directory on the way to it, finishes its name. */
  lemma KeepFinishes(nodes: Nodes, directory: Path, retained: Path, todo: set<string>, name: string)
    requires WellFormed(nodes) && directory <= retained
    requires directory + [name] == retained
             || (directory + [name] <= retained && directory + [name] in nodes && !nodes[directory + [name]].Directory?)
    ensures Partly(nodes, directory, retained, todo) == Partly(nodes, directory, retained, todo - {name})
  {
    var path := directory + [name];
    forall q | q in nodes && directory <= q && |q| > |directory| && q[|directory|] == name ensures Spared(q, retained) {
      FirstName(q, directory, name);
      if path != retained {
        assert q[..|path|] == path;
        AncestorsExist(nodes, q, |path|);
      }
    }
  }

  /** Cleaning a directory on the way finishes its name. */
  lemma DescendFinishes(nodes: Nodes, directory: Path, retained: Path, todo: set<string>, name: string)
    requires directory + [name] <= retained
    ensures Cleaned(Partly(nodes, directory, retained, todo), directory + [name], retained)
            == Partly(nodes, directory, retained, todo - {name})
  {
    var path := directory + [name];
    forall q | q in nodes ensures q in Cleaned(Partly(nodes, directory, retained, todo), path, retained)
                                  <==> q in Partly(nodes, directory, retained, todo - {name})
    {
      if directory <= q && |q| > |directory| { FirstName(q, directory, name); }
    }
  }

  /** How the next call turns out; a removal that fails leaves the ways to any `survivors`. */
  datatype Fate = Works | Fails(survivors: set<Path>)

  /** The tree after a removal that got stuck: part of what is below `path` is gone. */
  function Partial(nodes: Nodes, path: Path, survivors: set<Path>): Nodes {
    map q | q in nodes && (!(path <= q) || exists k :: k in survivors && q <= k) :: nodes[q]
  }

  lemma PartialIsWellFormed(nodes: Nodes, path: Path, survivors: set<Path>)
    requires WellFormed(nodes)
    ensures WellFormed(Partial(nodes, path, survivors))
  {
    forall q | q in Partial(nodes, path, survivors) && q != [] ensures q[..|q| - 1] in Partial(nodes, path, survivors) {
      var parent := q[..|q| - 1];
      if path <= parent {
        var k :| k in survivors && q <= k;
        assert parent <= k;
      }
    }
  }

  lemma PartialSpares(nodes: Nodes, path: Path, survivors: set<Path>, retained: Path)
    requires |path| <= |retained| && !(path <= retained)
    ensures OnlyRemoved(nodes, Partial(nodes, path, survivors), retained)
  {
    forall q | q in nodes && path <= q ensures !Spared(q, retained) { NotSpared(path, q, retained); }
  }

  class Tree {
    var nodes: Nodes
    var fates: seq<Fate>

    constructor (nodes: Nodes, fates: seq<Fate>)
      ensures this.nodes == nodes
    {
      this.nodes, this.fates := nodes, fates;
    }

    /** No call fails any more. */
    predicate Lucky()
      reads this
    {
      forall i :: 0 <= i < |fates| ==> fates[i].Works?
    }

    method NextFate() returns (fate: Fate)
      modifies this`fates
      ensures old(Lucky()) ==> fate.Works? && Lucky()
    {
      fate := Works;
      if fates != [] {
        fate, fates := fates[0], fates[1..];
      }
    }

    /** Removes an entry with everything below it, or fails anywhere on the way. */
    method RemoveAll(path: Path) returns (ok: bool, ghost survivors: set<Path>)
      modifies this
      ensures nodes == if ok then Without(old(nodes), path) else Partial(old(nodes), path, survivors)
      ensures old(Lucky()) ==> ok && Lucky()
    {
      var fate := NextFate();
      ok, survivors := fate.Works?, {};
      if ok {
        nodes := Without(nodes, path);
      } else {
        survivors := fate.survivors;
        nodes := Partial(nodes, path, fate.survivors);
      }
    }

    /**
      Success leaves exactly what is spared, and if no call fails a directory is cleaned with
      success. A failure may leave more, but at no moment is a spared entry missing.
     */
    method CleanRetainedDirectory(directory: Path, retained: Path) returns (ok: bool)
      requires WellFormed(nodes) && directory <= retained && directory != retained
      modifies this
      ensures WellFormed(nodes) && OnlyRemoved(old(nodes), nodes, retained)
      ensures ok ==> nodes == Cleaned(old(nodes), directory, retained)
      ensures old(Lucky()) ==> Lucky() && (ok <==> directory in old(nodes) && old(nodes)[directory].Directory?)
      decreases |retained| - |directory|, 1
    {
      hide WellFormed, OnlyRemoved, Cleaned, Partly, Names;
      RemovedNothing(nodes, retained);
      var fate := NextFate();
      if fate.Fails? || directory !in nodes || !nodes[directory].Directory? {
        return false;
      }
      ghost var before := nodes;
      var todo := Names(nodes, directory);
      PartlyEnds(nodes, directory, retained);
      while todo != {}
        invariant WellFormed(nodes) && OnlyRemoved(before, nodes, retained)
        invariant nodes == Partly(before, directory, retained, todo) && todo <= Names(before, directory)
        invariant old(Lucky()) ==> Lucky()
        decreases todo
      {
        var name :| name in todo;
        ghost var middle := nodes;
        StillThere(before, directory, retained, todo, name);
        ok := CleanEntry(directory, retained, name, before, todo);
        RemovedMore(before, middle, nodes, retained);
        if !ok { return; }
        todo := todo - {name};
      }
      ok := true;
    }

    /** Visits one name: spared, descended into, or removed. */
    method CleanEntry(directory: Path, retained: Path, name: string, ghost before: Nodes, ghost todo: set<string>) returns (ok: bool)
      requires WellFormed(nodes) && WellFormed(before) && directory <= retained && directory != retained
      requires nodes == Partly(before, directory, retained, todo)
      modifies this
      ensures WellFormed(nodes) && OnlyRemoved(old(nodes), nodes, retained)
      ensures ok ==> nodes == Partly(before, directory, retained, todo - {name})
      ensures old(Lucky()) && directory + [name] in old(nodes) ==> ok && Lucky()
      decreases |retained| - |directory|, 0
    {
      hide WellFormed, OnlyRemoved, Cleaned, Without, Partial;
      RemovedNothing(nodes, retained);
      var path := directory + [name];
      if path == retained {
        KeepFinishes(before, directory, retained, todo, name);
        return true;
      }
      var fate := NextFate();
      if fate.Fails? || path !in nodes { return false; }
      if !(path <= retained) {
        WithoutIsWellFormed(nodes, path);
        WithoutSpares(nodes, path, retained);
        RemoveFinishes(before, directory, retained, todo, name);
        ghost var whole := nodes;
        ghost var survivors;
        ok, survivors := RemoveAll(path);
        if !ok {
          PartialIsWellFormed(whole, path, survivors);
          PartialSpares(whole, path, survivors, retained);
        }
      } else if nodes[path].Directory? {
        DescendFinishes(before, directory, retained, todo, name);
        ok := CleanRetainedDirectory(path, retained);
      } else {
        KeepFinishes(before, directory, retained, todo, name);
        ok := true;
      }
    }
  }

  /** A name that has not been visited is still in its directory. */
  lemma StillThere(nodes: Nodes, directory: Path, retained: Path, todo: set<string>, name: string)
    requires name in todo && todo <= Names(nodes, directory)
    ensures directory + [name] in Partly(nodes, directory, retained, todo)
  {
    var q :| q in nodes && |q| == |directory| + 1 && directory <= q && q[|directory|] == name;
    assert q == directory + [name];
  }

  lemma RemovedNothing(nodes: Nodes, retained: Path)
    ensures OnlyRemoved(nodes, nodes, retained)
  {
  }

  lemma RemovedMore(a: Nodes, b: Nodes, c: Nodes, retained: Path)
    requires OnlyRemoved(a, b, retained) && OnlyRemoved(b, c, retained)
    ensures OnlyRemoved(a, c, retained)
  {
  }

  lemma WithoutSpares(nodes: Nodes, path: Path, retained: Path)
    requires |path| <= |retained| && !(path <= retained)
    ensures OnlyRemoved(nodes, Without(nodes, path), retained)
  {
    forall q | q in nodes && path <= q ensures !Spared(q, retained) { NotSpared(path, q, retained); }
  }

  /** Cleaning the whole tree leaves the retained subtree and the way to it, which is a tree again. */
  lemma CleanedIsSpared(nodes: Nodes, retained: Path)
    requires WellFormed(nodes)
    ensures WellFormed(Cleaned(nodes, [], retained))
    ensures forall q :: q in Cleaned(nodes, [], retained) <==> q in nodes && Spared(q, retained)
    ensures Cleaned(Cleaned(nodes, [], retained), [], retained) == Cleaned(nodes, [], retained)
    ensures retained in nodes ==> forall k :: 0 <= k <= |retained| ==> retained[..k] in Cleaned(nodes, [], retained)
  {
    forall q | q in nodes && q != [] && Spared(q, retained) ensures Spared(q[..|q| - 1], retained) {}
    if retained in nodes {
      forall k | 0 <= k <= |retained| ensures retained[..k] in nodes { AncestorsExist(nodes, retained, k); }
    }
  }

  /** A link on the way is kept, and the way ends there. */
  lemma StopsAtLink(nodes: Nodes, retained: Path, k: nat, q: Path)
    requires WellFormed(nodes) && k < |retained| && retained[..k] in nodes && !nodes[retained[..k]].Directory?
    ensures retained[..k] in Cleaned(nodes, [], retained)
    ensures q in Cleaned(nodes, [], retained) ==> q <= retained[..k]
  {
    if q in nodes && Spared(q, retained) && |q| > k {
      assert q[..k] == retained[..k];
      AncestorsExist(nodes, q, k);
    }
  }
}
