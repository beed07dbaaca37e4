/** The channel index: one latest release and one digest per platform, in any order of lines. */
module ChannelIndex {
  import opened Options

  /** The tests on a tag for the channel, on a digest, and on a platform key. */
  datatype Tests = Tests(canonical: string -> bool, digest: string -> bool, platform: string -> bool)

  // ---- The fields of a line ----

  /** White space as the splitting into fields understands it. */
  predicate IsSpace(c: char) {
    || c == ' ' || '\t' <= c <= '\r' || c == '\U{85}' || c == '\U{A0}' || c == '\U{1680}' || '\U{2000}' <= c <= '\U{200A}'
    || c == '\U{2028}' || c == '\U{2029}' || c == '\U{202F}' || c == '\U{205F}' || c == '\U{3000}'
  }

  function TrimRight(s: string): string { if s != "" && s[|s| - 1] == '\r' then TrimRight(s[..|s| - 1]) else s }

  function TrimLeft(s: string): string { if s != "" && (s[0] == ' ' || s[0] == '\t') then TrimLeft(s[1..]) else s }

  /** The length of the first run of characters that are no space. */
  function WordLength(s: string): (n: nat)
    ensures n <= |s|
  {
    if s == "" || IsSpace(s[0]) then 0 else 1 + WordLength(s[1..])
  }

  function Fields(s: string): seq<string>
    decreases |s|
  {
    if s == "" then []
    else if IsSpace(s[0]) then Fields(s[1..])
    else [s[..WordLength(s)]] + Fields(s[WordLength(s)..])
  }

  /** Blank lines and comments have no fields. */
  function IndexFields(line: string): seq<string> {
    var trimmed := TrimLeft(TrimRight(line));
    if trimmed == "" || trimmed[0] == '#' || "//" <= trimmed then [] else Fields(trimmed)
  }

  // ---- What a line is ----

  datatype Entry = Latest(tag: string) | Platform(key: string, fields: seq<string>) | Nothing

  function Read(t: Tests, want: string, line: string): Entry {
    var fields := IndexFields(line);
    if fields == [] then Nothing
    else if fields[0] == "latest" then Latest(if |fields| == 2 then fields[1] else "")
    else if fields[0] == want || t.platform(fields[0]) then Platform(fields[0], fields)
    else Nothing
  }

  /** A line that is fine on its own. */
  predicate Sound(t: Tests, e: Entry) {
    match e
    case Latest(tag) => t.canonical(tag)
    case Platform(_, fields) => |fields| == 3 && t.digest(fields[2])
    case Nothing => true
  }

  /** Two lines that may not both be there. */
  predicate Clash(a: Entry, b: Entry) {
    (a.Latest? && b.Latest?) || (a.Platform? && b.Platform? && a.key == b.key)
  }

  /** The meaning of an index: a property of its lines, without their order. */
  ghost predicate Means(t: Tests, want: string, lines: multiset<string>, latest: string, sum: string) {
    && (forall l :: l in lines ==> Sound(t, Read(t, want, l)))
    && (forall l, k :: l in lines && k in lines && Clash(Read(t, want, l), Read(t, want, k)) ==> l == k && lines[l] == 1)
    && (exists l :: l in lines && Read(t, want, l) == Latest(latest))
    && (exists l :: l in lines && Provides(Read(t, want, l), want, sum))
  }

  predicate Provides(e: Entry, want: string, sum: string) {
    e.Platform? && e.key == want && |e.fields| == 3 && e.fields[2] == sum
  }

  // ---- The parser ----

  function Entries(t: Tests, want: string, lines: seq<string>): (es: seq<Entry>)
    ensures |es| == |lines| && forall i :: 0 <= i < |es| ==> es[i] == Read(t, want, lines[i])
  {
    seq(|lines|, i requires 0 <= i < |lines| => Read(t, want, lines[i]))
  }

  /** Every line is sound, and no two clash. */
  ghost predicate Consistent(t: Tests, es: seq<Entry>) {
    && (forall i :: 0 <= i < |es| ==> Sound(t, es[i]))
    && (forall i, k :: 0 <= i < k < |es| ==> !Clash(es[i], es[k]))
  }

  ghost predicate LatestIs(es: seq<Entry>, latest: Option<string>) {
    if latest.Some? then Latest(latest.value) in es else forall i :: 0 <= i < |es| ==> !es[i].Latest?
  }

  /** The platform keys met so far. */
  ghost predicate SeenIs(es: seq<Entry>, seen: set<string>) {
    && (forall i :: 0 <= i < |es| && es[i].Platform? ==> es[i].key in seen)
    && (forall key :: key in seen ==> exists i :: 0 <= i < |es| && es[i].Platform? && es[i].key == key)
  }

  ghost predicate SumIs(es: seq<Entry>, want: string, sum: Option<string>) {
    if sum.Some? then exists i :: 0 <= i < |es| && Provides(es[i], want, sum.value)
    else forall i :: 0 <= i < |es| && es[i].Platform? ==> es[i].key != want
  }

  /** What the lines read so far say. */
  ghost predicate Reading(t: Tests, want: string, es: seq<Entry>, latest: Option<string>, sum: Option<string>, seen: set<string>) {
    Consistent(t, es) && LatestIs(es, latest) && SeenIs(es, seen) && SumIs(es, want, sum)
  }

  lemma {:induction false} Repeated(lines: seq<string>, i: nat, k: nat)
    requires i < k < |lines| && lines[i] == lines[k]
    ensures multiset(lines)[lines[i]] >= 2
  {
    assert lines == lines[..k] + [lines[k]] + lines[k + 1..];
    assert lines[i] in multiset(lines[..k]);
  }

  lemma {:induction false} OccursOnce(lines: seq<string>, l: string)
    requires forall i, k :: 0 <= i < k < |lines| && lines[i] == l ==> lines[k] != l
    ensures multiset(lines)[l] <= 1
  {
    if lines != [] {
      var n := |lines| - 1;
      assert lines == lines[..n] + [lines[n]];
      OccursOnce(lines[..n], l);
      if lines[n] == l { assert l !in lines[..n]; }
    }
  }

  /** Two clashing lines at different places contradict the meaning. */
  lemma ClashHasNoMeaning(t: Tests, want: string, lines: seq<string>, i: nat, k: nat, latest: string, sum: string)
    requires i < k < |lines| && Clash(Read(t, want, lines[i]), Read(t, want, lines[k]))
    ensures !Means(t, want, multiset(lines), latest, sum)
  {
    hide Read;
    assert lines[i] in multiset(lines) && lines[k] in multiset(lines);
    if lines[i] == lines[k] { Repeated(lines, i, k); }
  }

  lemma UnsoundHasNoMeaning(t: Tests, want: string, lines: seq<string>, i: nat, latest: string, sum: string)
    requires i < |lines| && !Sound(t, Read(t, want, lines[i]))
    ensures !Means(t, want, multiset(lines), latest, sum)
  {
    hide Read;
    assert lines[i] in multiset(lines);
  }

  lemma ReadingMeans(t: Tests, want: string, lines: seq<string>, latest: string, sum: string)
    requires Consistent(t, Entries(t, want, lines))
    requires LatestIs(Entries(t, want, lines), Some(latest)) && SumIs(Entries(t, want, lines), want, Some(sum))
    ensures Means(t, want, multiset(lines), latest, sum)
  {
    hide Read;
    var es := Entries(t, want, lines);
    forall l, k | l in multiset(lines) && k in multiset(lines) && Clash(Read(t, want, l), Read(t, want, k))
      ensures l == k && multiset(lines)[l] == 1
    {
      var a :| 0 <= a < |lines| && lines[a] == l;
      var b :| 0 <= b < |lines| && lines[b] == k;
      assert Clash(es[a], es[b]) && Clash(es[b], es[a]) && a == b;
      forall i, j | 0 <= i < j < |lines| && lines[i] == l ensures lines[j] != l { assert !Clash(es[i], es[j]); }
      OccursOnce(lines, l);
    }
    var i :| 0 <= i < |es| && es[i] == Latest(latest);
    var k :| 0 <= k < |es| && Provides(es[k], want, sum);
    assert lines[i] in multiset(lines) && lines[k] in multiset(lines);
  }

  lemma SeenOneMore(es: seq<Entry>, seen: set<string>, e: Entry)
    requires SeenIs(es, seen)
    ensures SeenIs(es + [e], if e.Platform? then seen + {e.key} else seen)
  {
    var more := es + [e];
    assert more[|es|] == e;
    forall key | key in seen ensures exists i :: 0 <= i < |more| && more[i].Platform? && more[i].key == key {
      var i :| 0 <= i < |es| && es[i].Platform? && es[i].key == key;
      assert more[i] == es[i];
    }
  }

  lemma SumOneMore(es: seq<Entry>, want: string, sum: Option<string>, e: Entry)
    requires SumIs(es, want, sum)
    ensures SumIs(es + [e], want, if e.Platform? && e.key == want && |e.fields| == 3 then Some(e.fields[2]) else sum)
            || (e.Platform? && e.key == want && |e.fields| != 3)
  {
    var more := es + [e];
    assert more[|es|] == e;
    if sum.Some? {
      var i :| 0 <= i < |es| && Provides(es[i], want, sum.value);
      assert more[i] == es[i];
    }
  }

  /** One more line that is sound and clashes with none before it. */
  lemma ReadOneMore(t: Tests, want: string, es: seq<Entry>, e: Entry, latest: Option<string>, sum: Option<string>, seen: set<string>)
    requires Reading(t, want, es, latest, sum, seen) && Sound(t, e)
    requires (e.Latest? ==> latest.None?) && (e.Platform? ==> e.key !in seen)
    ensures Reading(t, want, es + [e], if e.Latest? then Some(e.tag) else latest,
                    if e.Platform? && e.key == want then Some(e.fields[2]) else sum, if e.Platform? then seen + {e.key} else seen)
  {
    hide SumIs;
    SeenOneMore(es, seen, e);
    SumOneMore(es, want, sum, e);
  }

  /** A repeated latest line or platform key is a clash with an earlier line. */
  lemma FindClash(es: seq<Entry>, e: Entry, latest: Option<string>, seen: set<string>) returns (i: nat)
    requires LatestIs(es, latest) && SeenIs(es, seen)
    requires (e.Latest? && latest.Some?) || (e.Platform? && e.key in seen)
    ensures i < |es| && Clash(es[i], e)
  {
    if e.Latest? {
      i :| 0 <= i < |es| && es[i] == Latest(latest.value);
    } else {
      i :| 0 <= i < |es| && es[i].Platform? && es[i].key == e.key;
    }
  }

  /**
    The parser finds the meaning of an index if it has one, and fails otherwise. On lines that
    were written with words this is what the words say.
   */
  method ParseIndex(t: Tests, want: string, lines: seq<string>) returns (r: Option<(string, string)>)
    ensures r.Some? ==> Means(t, want, multiset(lines), r.value.0, r.value.1)
    ensures r.None? ==> forall latest, sum :: !Means(t, want, multiset(lines), latest, sum)
    ensures forall words, tag, sum :: AllWritten(lines, words) && Says(t, want, words, tag, sum) ==> r == Some((tag, sum))
    ensures forall words :: AllWritten(lines, words) && !t.canonical("") && r.Some? ==> Says(t, want, words, r.value.0, r.value.1)
  {
    r := FindMeaning(t, want, lines);
    forall words, tag, sum | AllWritten(lines, words) && Says(t, want, words, tag, sum) ensures r == Some((tag, sum)) {
      SaidIsMeant(t, want, lines, words, tag, sum);
      if r.Some? { OneMeaning(t, want, multiset(lines), tag, sum, r.value.0, r.value.1); }
    }
    forall words | AllWritten(lines, words) && !t.canonical("") && r.Some? ensures Says(t, want, words, r.value.0, r.value.1) {
      MeantIsSaid(t, want, lines, words, r.value.0, r.value.1);
    }
  }

  /** The loop over the lines. */
  method FindMeaning(t: Tests, want: string, lines: seq<string>) returns (r: Option<(string, string)>)
    ensures r.Some? ==> Means(t, want, multiset(lines), r.value.0, r.value.1)
    ensures r.None? ==> forall latest, sum :: !Means(t, want, multiset(lines), latest, sum)
  {
    hide Read, Means, Reading;
    var latest, sum: Option<string>, seen: set<string> := None, None, {};
    ghost var es := Entries(t, want, lines);
    assert es[..0] == [];
    NothingRead(t, want);
    for n := 0 to |lines|
      invariant Reading(t, want, es[..n], latest, sum, seen)
    {
      var e := Read(t, want, lines[n]);
      assert es[..n + 1] == es[..n] + [e];
      ReadingParts(t, want, es[..n], latest, sum, seen);
      if (e.Latest? && latest.Some?) || (e.Platform? && e.key in seen) {
        var i := FindClash(es[..n], e, latest, seen);
        forall a, b ensures !Means(t, want, multiset(lines), a, b) { ClashHasNoMeaning(t, want, lines, i, n, a, b); }
        return None;
      }
      if !Sound(t, e) {
        forall a, b ensures !Means(t, want, multiset(lines), a, b) { UnsoundHasNoMeaning(t, want, lines, n, a, b); }
        return None;
      }
      ReadOneMore(t, want, es[..n], e, latest, sum, seen);
      match e
      case Latest(tag) => latest := Some(tag);
      case Platform(key, fields) =>
        seen := seen + {key};
        if key == want { sum := Some(fields[2]); }
      case Nothing =>
    }
    assert es[..|lines|] == es;
    ReadingParts(t, want, es, latest, sum, seen);
    if latest.None? || sum.None? {
      forall a, b ensures !Means(t, want, multiset(lines), a, b) { MissingHasNoMeaning(t, want, lines, latest, sum, a, b); }
      return None;
    }
    ReadingMeans(t, want, lines, latest.value, sum.value);
    r := Some((latest.value, sum.value));
  }

  lemma NothingRead(t: Tests, want: string)
    ensures Reading(t, want, [], None, None, {})
  {
  }

  lemma ReadingParts(t: Tests, want: string, es: seq<Entry>, latest: Option<string>, sum: Option<string>, seen: set<string>)
    requires Reading(t, want, es, latest, sum, seen)
    ensures Consistent(t, es) && LatestIs(es, latest) && SeenIs(es, seen) && SumIs(es, want, sum)
  {
  }

  /** What an index means stands on some of its lines. */
  lemma MeaningIsRead(t: Tests, want: string, lines: seq<string>, a: string, b: string) returns (i: nat, j: nat)
    requires Means(t, want, multiset(lines), a, b)
    ensures i < |lines| && j < |lines|
    ensures Entries(t, want, lines)[i] == Latest(a) && Provides(Entries(t, want, lines)[j], want, b)
  {
    hide Read;
    var l :| l in multiset(lines) && Read(t, want, l) == Latest(a);
    var k :| k in multiset(lines) && Provides(Read(t, want, k), want, b);
    i :| 0 <= i < |lines| && lines[i] == l;
    j :| 0 <= j < |lines| && lines[j] == k;
  }

  lemma MissingHasNoMeaning(t: Tests, want: string, lines: seq<string>, latest: Option<string>, sum: Option<string>, a: string, b: string)
    requires LatestIs(Entries(t, want, lines), latest) && SumIs(Entries(t, want, lines), want, sum) && (latest.None? || sum.None?)
    ensures !Means(t, want, multiset(lines), a, b)
  {
    hide Read, Means;
    if Means(t, want, multiset(lines), a, b) { var i, j := MeaningIsRead(t, want, lines, a, b); }
  }

  // ---- Order and noise do not matter ----

  /** An index has at most one meaning. */
  lemma OneMeaning(t: Tests, want: string, lines: multiset<string>, a: string, b: string, c: string, d: string)
    requires Means(t, want, lines, a, b) && Means(t, want, lines, c, d)
    ensures a == c && b == d
  {
    hide Read;
    var l1 :| l1 in lines && Read(t, want, l1) == Latest(a);
    var l2 :| l2 in lines && Read(t, want, l2) == Latest(c);
    assert Clash(Read(t, want, l1), Read(t, want, l2));
    var k1 :| k1 in lines && Provides(Read(t, want, k1), want, b);
    var k2 :| k2 in lines && Provides(Read(t, want, k2), want, d);
    assert Clash(Read(t, want, k1), Read(t, want, k2));
  }

  /** Lines that are blank, comments or not recognised add nothing, wherever they stand. */
  lemma NoiseMeansNothing(t: Tests, want: string, lines: multiset<string>, noise: multiset<string>, latest: string, sum: string)
    requires forall l :: l in noise ==> Read(t, want, l).Nothing?
    ensures Means(t, want, lines + noise, latest, sum) <==> Means(t, want, lines, latest, sum)
  {
    hide Read;
    var all := lines + noise;
    forall l | l in all && !Read(t, want, l).Nothing? ensures l in lines && all[l] == lines[l] {}
    forall l | l in lines ensures l in all {}
    if Means(t, want, lines, latest, sum) { assert Means(t, want, all, latest, sum); }
    if Means(t, want, all, latest, sum) { assert Means(t, want, lines, latest, sum); }
  }

  // ---- Which lines have no fields ----

  predicate AllSpace(s: string) { forall i :: 0 <= i < |s| ==> IsSpace(s[i]) }

  predicate Indented(line: string, k: nat) {
    k <= |line| && forall i :: 0 <= i < k ==> line[i] == ' ' || line[i] == '\t'
  }

  /** Behind blanks and tabs the line starts with "#" or "//". */
  ghost predicate Comment(line: string) {
    exists k: nat :: Indented(line, k) && k < |line| && (line[k] == '#' || "//" <= line[k..])
  }

  lemma {:induction false} NoFieldsMeansSpace(s: string)
    ensures Fields(s) == [] <==> AllSpace(s)
    decreases |s|
  {
    if s != "" && IsSpace(s[0]) {
      NoFieldsMeansSpace(s[1..]);
      assert AllSpace(s) <==> AllSpace(s[1..]) by {
        if AllSpace(s[1..]) { forall i | 0 <= i < |s| ensures IsSpace(s[i]) { if i > 0 { assert s[i] == s[1..][i - 1]; } } }
      }
    }
  }

  /** Trimming on the right takes carriage returns away, and only those at the end. */
  lemma {:induction false} TrimRightParts(line: string)
    ensures TrimRight(line) <= line && forall i :: |TrimRight(line)| <= i < |line| ==> line[i] == '\r'
    decreases |line|
  {
    if line != "" && line[|line| - 1] == '\r' { TrimRightParts(line[..|line| - 1]); }
  }

  lemma {:induction false} TrimLeftAt(t: string, k: nat)
    requires Indented(t, k) && (k < |t| ==> t[k] != ' ' && t[k] != '\t')
    ensures TrimLeft(t) == t[k..]
    decreases k
  {
    if k > 0 {
      assert forall i :: 0 <= i < k - 1 ==> t[1..][i] == t[i + 1];
      TrimLeftAt(t[1..], k - 1);
      assert t[1..][k - 1..] == t[k..];
    }
  }

  lemma {:induction false} FindIndent(t: string) returns (k: nat)
    ensures Indented(t, k) && (k < |t| ==> t[k] != ' ' && t[k] != '\t')
    decreases |t|
  {
    k := 0;
    if t != "" && (t[0] == ' ' || t[0] == '\t') {
      var n := FindIndent(t[1..]);
      k := n + 1;
      forall i | 0 <= i < k ensures t[i] == ' ' || t[i] == '\t' { if i > 0 { assert t[1..][i - 1] == t[i]; } }
      if k < |t| { assert t[1..][n] == t[k]; }
    }
  }

  lemma CommentIsSkipped(line: string, k: nat)
    requires Indented(line, k) && k < |line| && (line[k] == '#' || "//" <= line[k..])
    ensures IndexFields(line) == []
  {
    var t := TrimRight(line);
    TrimRightParts(line);
    if "//" <= line[k..] { assert line[k] == line[k..][0] && line[k + 1] == line[k..][1]; }
    assert k < |t| && t[k] == line[k];
    TrimLeftAt(t, k);
    if "//" <= line[k..] { assert t[k..][0] == '/' && t[k..][1] == '/'; }
  }

  lemma SpaceIsSkipped(line: string)
    requires AllSpace(line)
    ensures IndexFields(line) == []
  {
    var t := TrimRight(line);
    TrimRightParts(line);
    var k := FindIndent(t);
    TrimLeftAt(t, k);
    assert AllSpace(t[k..]) by { forall i | 0 <= i < |t[k..]| ensures IsSpace(t[k..][i]) { assert t[k..][i] == line[k + i]; } }
    NoFieldsMeansSpace(t[k..]);
  }

  lemma SkippedIsSpaceOrComment(line: string)
    requires IndexFields(line) == []
    ensures AllSpace(line) || Comment(line)
  {
    var t := TrimRight(line);
    TrimRightParts(line);
    var k := FindIndent(t);
    TrimLeftAt(t, k);
    NoFieldsMeansSpace(t[k..]);
    if AllSpace(t[k..]) {
      forall i | 0 <= i < |line| ensures IsSpace(line[i]) {
        if k <= i < |t| { assert t[k..][i - k] == line[i]; }
      }
    } else {
      assert Indented(line, k) && t[k..][0] == line[k];
      if "//" <= t[k..] { assert t[k..] <= line[k..]; }
    }
  }

  /**
    A line is skipped exactly if it is empty, holds nothing but white space, or starts,
    behind any blanks and tabs, with "#" or "//".
   */
  lemma CommentsAreNothing(line: string)
    ensures IndexFields(line) == [] <==> AllSpace(line) || Comment(line)
    ensures forall t, want :: AllSpace(line) || Comment(line) ==> Read(t, want, line).Nothing?
  {
    hide IndexFields;
    if AllSpace(line) { SpaceIsSkipped(line); }
    if Comment(line) {
      var k: nat :| Indented(line, k) && k < |line| && (line[k] == '#' || "//" <= line[k..]);
      CommentIsSkipped(line, k);
    }
    if IndexFields(line) == [] { SkippedIsSpaceOrComment(line); }
  }

  /** The white space characters, one by one. */
  lemma SpacesAreListed(c: char)
    ensures IsSpace(c) <==>
            c in {'\U{9}', '\U{A}', '\U{B}', '\U{C}', '\U{D}', ' ', '\U{85}', '\U{A0}', '\U{1680}',
                  '\U{2000}', '\U{2001}', '\U{2002}', '\U{2003}', '\U{2004}', '\U{2005}', '\U{2006}', '\U{2007}', '\U{2008}',
                  '\U{2009}', '\U{200A}', '\U{2028}', '\U{2029}', '\U{202F}', '\U{205F}', '\U{3000}'}
  {
  }

  // ---- Splitting inverts joining ----

  /** Words with something between, before and behind them. */
  function Join(words: seq<string>, gaps: seq<string>): string
    requires |gaps| == |words| + 1
  {
    if words == [] then gaps[0] else gaps[0] + words[0] + Join(words[1..], gaps[1..])
  }

  predicate IsWord(w: string) { w != "" && forall i :: 0 <= i < |w| ==> !IsSpace(w[i]) }

  /** White space, and some of it between any two words. */
  predicate Spaced(words: seq<string>, gaps: seq<string>) {
    && |gaps| == |words| + 1 && (forall i :: 0 <= i < |gaps| ==> AllSpace(gaps[i]))
    && (forall i :: 0 < i < |words| ==> gaps[i] != "")
    && (forall i :: 0 <= i < |words| ==> IsWord(words[i]))
  }

  lemma {:induction false} SpaceBefore(space: string, s: string)
    requires AllSpace(space)
    ensures Fields(space + s) == Fields(s)
    decreases |space|
  {
    if space == "" {
      assert space + s == s;
    } else {
      assert (space + s)[0] == space[0] && (space + s)[1..] == space[1..] + s;
      SpaceBefore(space[1..], s);
    }
  }

  lemma {:induction false} WordFirst(w: string, rest: string)
    requires (forall i :: 0 <= i < |w| ==> !IsSpace(w[i])) && (rest == "" || IsSpace(rest[0]))
    ensures WordLength(w + rest) == |w|
    decreases |w|
  {
    if w == "" {
      assert w + rest == rest;
    } else {
      assert (w + rest)[0] == w[0] && (w + rest)[1..] == w[1..] + rest;
      WordFirst(w[1..], rest);
    }
  }

  lemma WordSplits(w: string, rest: string)
    requires IsWord(w) && (rest == "" || IsSpace(rest[0]))
    ensures Fields(w + rest) == [w] + Fields(rest)
  {
    WordFirst(w, rest);
    assert (w + rest)[0] == w[0] && (w + rest)[..|w|] == w && (w + rest)[|w|..] == rest;
  }

  /** The fields of a text are exactly the words it was joined from. */
  lemma {:induction false} SplitInvertsJoin(words: seq<string>, gaps: seq<string>)
    requires Spaced(words, gaps)
    ensures Fields(Join(words, gaps)) == words
    decreases |words|
  {
    if words == [] {
      NoFieldsMeansSpace(gaps[0]);
    } else {
      var rest := Join(words[1..], gaps[1..]);
      SplitInvertsJoin(words[1..], gaps[1..]);
      if words[1..] != [] { assert rest[0] == gaps[1][0]; }
      WordSplits(words[0], rest);
      SpaceBefore(gaps[0], words[0] + rest);
      assert Join(words, gaps) == gaps[0] + (words[0] + rest);
    }
  }

  lemma {:induction false} SpaceBehind(s: string, space: string)
    requires AllSpace(space)
    ensures Fields(s + space) == Fields(s)
    decreases |s|
  {
    if s == "" {
      assert s + space == space;
      NoFieldsMeansSpace(space);
    } else if IsSpace(s[0]) {
      assert (s + space)[0] == s[0] && (s + space)[1..] == s[1..] + space;
      SpaceBehind(s[1..], space);
    } else {
      var n := WordLength(s);
      WordEnds(s);
      SpaceBehind(s[n..], space);
      assert s == s[..n] + s[n..] && s + space == s[..n] + (s[n..] + space);
      WordSplits(s[..n], s[n..]);
      WordSplits(s[..n], s[n..] + space);
    }
  }

  lemma {:induction false} WordEnds(s: string)
    ensures var n := WordLength(s);
            (forall i :: 0 <= i < n ==> !IsSpace(s[i])) && (n < |s| ==> IsSpace(s[n])) && (s != "" && !IsSpace(s[0]) ==> n > 0)
    decreases |s|
  {
    if s != "" && !IsSpace(s[0]) {
      WordEnds(s[1..]);
      forall i | 0 <= i < WordLength(s) ensures !IsSpace(s[i]) { if i > 0 { assert s[i] == s[1..][i - 1]; } }
    }
  }

  lemma TrimKeepsFields(line: string)
    ensures Fields(TrimLeft(TrimRight(line))) == Fields(line)
  {
    hide Fields, TrimLeft, TrimRight, IsSpace;
    var u := TrimRight(line);
    TrimRightParts(line);
    var k := FindIndent(u);
    TrimLeftAt(u, k);
    assert line == u[..k] + (u[k..] + line[|u|..]);
    TrimmedIsSpace(u, k, line);
    SpaceBefore(u[..k], u[k..] + line[|u|..]);
    SpaceBehind(u[k..], line[|u|..]);
  }

  lemma TrimmedIsSpace(u: string, k: nat, line: string)
    requires Indented(u, k) && u <= line && forall i :: |u| <= i < |line| ==> line[i] == '\r'
    ensures AllSpace(u[..k]) && AllSpace(line[|u|..])
  {
  }

  /** Apart from comments, trimming does not matter: the fields are those of the line. */
  lemma FieldsOfLine(line: string)
    ensures IndexFields(line) == if Comment(line) then [] else Fields(line)
  {
    hide Comment, Fields, TrimLeft, TrimRight, AllSpace;
    CommentsAreNothing(line);
    TrimKeepsFields(line);
    NoFieldsMeansSpace(line);
  }

  /** The line was written with these words; a blank line or a comment with none. */
  ghost predicate Written(line: string, words: seq<string>) {
    if Comment(line) then words == [] else exists gaps :: Spaced(words, gaps) && line == Join(words, gaps)
  }

  lemma WrittenIsRead(line: string, words: seq<string>)
    requires Written(line, words)
    ensures IndexFields(line) == words
  {
    FieldsOfLine(line);
    if !Comment(line) {
      var gaps :| Spaced(words, gaps) && line == Join(words, gaps);
      SplitInvertsJoin(words, gaps);
    }
  }

  // ---- What an index says, in words ----

  ghost predicate AllWritten(lines: seq<string>, words: seq<seq<string>>) {
    |words| == |lines| && forall i :: 0 <= i < |lines| ==> Written(lines[i], words[i])
  }

  /** The line begins with that word. */
  predicate Begins(words: seq<string>, first: string) { words != [] && words[0] == first }

  /**
    One line is "latest" and the tag, one is the wanted key, any word and the digest; every line
    about a platform has three words and a digest, and no such first word occurs twice.
   */
  ghost predicate Says(t: Tests, want: string, words: seq<seq<string>>, tag: string, sum: string) {
    && t.canonical(tag) && want != "latest"
    && (exists i :: 0 <= i < |words| && words[i] == ["latest", tag])
    && (exists k :: 0 <= k < |words| && Begins(words[k], want) && |words[k]| == 3 && words[k][2] == sum)
    && (forall i :: 0 <= i < |words| && words[i] != [] && words[i][0] != "latest" && (words[i][0] == want || t.platform(words[i][0])) ==>
          |words[i]| == 3 && t.digest(words[i][2]))
    && (forall i, k :: 0 <= i < k < |words| && words[i] != [] && Begins(words[k], words[i][0]) ==>
          words[i][0] != "latest" && words[i][0] != want && !t.platform(words[i][0]))
  }

  lemma ReadWords(t: Tests, want: string, line: string, words: seq<string>)
    requires Written(line, words)
    ensures Read(t, want, line) ==
            if words == [] then Nothing
            else if words[0] == "latest" then Latest(if |words| == 2 then words[1] else "")
            else if words[0] == want || t.platform(words[0]) then Platform(words[0], words)
            else Nothing
  {
    hide IndexFields, Written;
    WrittenIsRead(line, words);
  }

  lemma SaidIsMeant(t: Tests, want: string, lines: seq<string>, words: seq<seq<string>>, tag: string, sum: string)
    requires AllWritten(lines, words) && Says(t, want, words, tag, sum)
    ensures Means(t, want, multiset(lines), tag, sum)
  {
    hide Read, Written, Means;
    var es := Entries(t, want, lines);
    forall i | 0 <= i < |lines| ensures es[i] == Read(t, want, lines[i]) { ReadWords(t, want, lines[i], words[i]); }
    var a :| 0 <= a < |words| && words[a] == ["latest", tag];
    var b :| 0 <= b < |words| && Begins(words[b], want) && |words[b]| == 3 && words[b][2] == sum;
    ReadWords(t, want, lines[a], words[a]);
    ReadWords(t, want, lines[b], words[b]);
    assert es[a] == Latest(tag) && Provides(es[b], want, sum);
    forall i | 0 <= i < |es| ensures Sound(t, es[i]) {
      ReadWords(t, want, lines[i], words[i]);
      if es[i].Latest? { OnlyLatest(words, a, i, t, want, tag, sum); }
    }
    forall i, k | 0 <= i < k < |es| ensures !Clash(es[i], es[k]) {
      ReadWords(t, want, lines[i], words[i]);
      ReadWords(t, want, lines[k], words[k]);
    }
    ReadingMeans(t, want, lines, tag, sum);
  }

  lemma OnlyLatest(words: seq<seq<string>>, a: nat, i: nat, t: Tests, want: string, tag: string, sum: string)
    requires Says(t, want, words, tag, sum) && a < |words| && words[a] == ["latest", tag] && i < |words| && Begins(words[i], "latest")
    ensures i == a
  {
    var lo, hi := if a < i then a else i, if a < i then i else a;
    assert words[lo] != [] && words[lo][0] == "latest" && Begins(words[hi], words[lo][0]);
  }

  /** If no malformed "latest" line can pass for a tag, an index means only what its words say. */
  lemma MeantIsSaid(t: Tests, want: string, lines: seq<string>, words: seq<seq<string>>, tag: string, sum: string)
    requires AllWritten(lines, words) && Means(t, want, multiset(lines), tag, sum) && !t.canonical("")
    ensures Says(t, want, words, tag, sum)
  {
    hide Read, Written, Means;
    var i, j := MeaningIsRead(t, want, lines, tag, sum);
    ReadWords(t, want, lines[i], words[i]);
    ReadWords(t, want, lines[j], words[j]);
    forall k | 0 <= k < |lines| ensures Sound(t, Read(t, want, lines[k])) { MeaningIsSound(t, want, lines, tag, sum, k); }
    forall k | 0 <= k < |words| && words[k] != [] && words[k][0] != "latest" && (words[k][0] == want || t.platform(words[k][0]))
      ensures |words[k]| == 3 && t.digest(words[k][2])
    {
      ReadWords(t, want, lines[k], words[k]);
    }
    forall a, b | 0 <= a < b < |words| && words[a] != [] && Begins(words[b], words[a][0])
      ensures words[a][0] != "latest" && words[a][0] != want && !t.platform(words[a][0])
    {
      ReadWords(t, want, lines[a], words[a]);
      ReadWords(t, want, lines[b], words[b]);
      if Clash(Read(t, want, lines[a]), Read(t, want, lines[b])) { ClashHasNoMeaning(t, want, lines, a, b, tag, sum); }
    }
  }

  lemma MeaningIsSound(t: Tests, want: string, lines: seq<string>, tag: string, sum: string, k: nat)
    requires Means(t, want, multiset(lines), tag, sum) && k < |lines|
    ensures Sound(t, Read(t, want, lines[k]))
  {
    hide Read;
    if !Sound(t, Read(t, want, lines[k])) { UnsoundHasNoMeaning(t, want, lines, k, tag, sum); }
  }
}
