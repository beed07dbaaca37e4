/**
  A service object has one live place and one staging slot per recorded version.
  Publishing moves whole objects between them, so none is ever lost or copied.
 */
module ServiceSlots {
  import opened Options
  import Engine = InstallEngine

  datatype Slot = OriginalSlot | ObjectSlot(index: nat)

  datatype Version = Version(name: Slot, state: string, identity: string)

  datatype Entry = Entry(state: string, identity: string)

  datatype Layout = Layout(live: Option<Entry>, slots: map<Slot, Entry>)

  /** Identities are compared only within the boot in which they were recorded. */
  predicate Matches(versions: seq<Version>, e: Entry, sameBoot: bool) {
    exists i :: 0 <= i < |versions| && versions[i].state == e.state && (sameBoot ==> versions[i].identity == e.identity)
  }

  method ServiceObjectMatches(versions: seq<Version>, e: Entry, sameBoot: bool) returns (found: bool)
    ensures found == Matches(versions, e, sameBoot)
  {
    for i := 0 to |versions|
      invariant forall k :: 0 <= k < i ==> !(versions[k].state == e.state && (sameBoot ==> versions[k].identity == e.identity))
    {
      if versions[i].state == e.state && (!sameBoot || versions[i].identity == e.identity) {
        return true;
      }
    }
    found := false;
  }

  // ---- The three moves ----

  datatype Motion = Publish(slot: Slot) | Exchange(slot: Slot) | Retain(slot: Slot)

  /** Whether the move is possible: what is taken is there, and what it is moved to is free. */
  predicate Possible(l: Layout, m: Motion) {
    match m
    case Publish(n) => l.live.None? && n in l.slots
    case Exchange(n) => l.live.Some? && n in l.slots
    case Retain(n) => l.live.Some? && n !in l.slots
  }

  function Move(l: Layout, m: Motion): Layout
    requires Possible(l, m)
  {
    match m
    case Publish(n) => Layout(Some(l.slots[n]), l.slots - {n})
    case Exchange(n) => Layout(Some(l.slots[n]), l.slots[n := l.live.value])
    case Retain(n) => Layout(None, l.slots[n := l.live.value])
  }

  datatype Choice = Nothing | Unknown | Make(motion: Motion)

  /** The scan over the versions from `from` on. */
  function Choose(l: Layout, versions: seq<Version>, want: string, sameBoot: bool, from: nat): Choice
    requires from <= |versions|
    decreases |versions| - from
  {
    if from == |versions| then Unknown
    else
      var n := versions[from].name;
      if n in l.slots && !Matches(versions, l.slots[n], sameBoot) then Unknown
      else if want == "absent" then
        if n !in l.slots then Make(Retain(n)) else Choose(l, versions, want, sameBoot, from + 1)
      else if n !in l.slots || l.slots[n].state != want then Choose(l, versions, want, sameBoot, from + 1)
      else if l.live.Some? then Make(Exchange(n)) else Make(Publish(n))
  }

  function Decide(l: Layout, versions: seq<Version>, want: string, sameBoot: bool): Choice {
    if l.live.Some? && !Matches(versions, l.live.value, sameBoot) then Unknown
    else if (l.live.Some? && l.live.value.state == want) || (l.live.None? && want == "absent") then Nothing
    else Choose(l, versions, want, sameBoot, 0)
  }

  /** Any choice of the scan is a possible move, and brings `want` to the live place. */
  lemma {:induction false} ChoiceIsPossible(l: Layout, versions: seq<Version>, want: string, sameBoot: bool, from: nat)
    requires from <= |versions| && (want == "absent" ==> l.live.Some?)
    ensures var c := Choose(l, versions, want, sameBoot, from);
            c.Make? ==>
              && Possible(l, c.motion) && HasSlot(versions, c.motion.slot)
              && Shows(Move(l, c.motion), want)
    decreases |versions| - from
  {
    if from < |versions| { ChoiceIsPossible(l, versions, want, sameBoot, from + 1); }
  }

  predicate Shows(l: Layout, want: string) {
    if want == "absent" then l.live.None? else l.live.Some? && l.live.value.state == want
  }

  /** One publication: nothing to do, refused, or one move that may fail before or after it happened. */
  function AfterPublish(l: Layout, versions: seq<Version>, want: string, sameBoot: bool, fate: Engine.Fate): (Layout, bool) {
    var c := Decide(l, versions, want, sameBoot);
    if c.Nothing? then (l, true)
    else if c.Unknown? then (l, false)
    else
      ChoiceIsPossible(l, versions, want, sameBoot, 0);
      if fate.Refuse? then (l, false) else (Move(l, c.motion), fate.Proceed?)
  }

  class ServiceObject {
    const versions: seq<Version>
    var live: Option<Entry>
    var slots: map<Slot, Entry>

    constructor (versions: seq<Version>, layout: Layout)
      ensures this.versions == versions && State() == layout
    {
      this.versions := versions;
      live, slots := layout.live, layout.slots;
    }

    ghost function State(): Layout
      reads this
    {
      Layout(live, slots)
    }

    method Perform(m: Motion, fate: Engine.Fate) returns (ok: bool)
      requires Possible(State(), m)
      modifies this
      ensures State() == if fate.Refuse? then old(State()) else Move(old(State()), m)
      ensures ok == fate.Proceed?
    {
      if !fate.Refuse? {
        match m
        case Publish(n) => live, slots := Some(slots[n]), slots - {n};
        case Exchange(n) => live, slots := Some(slots[n]), slots[n := live.value];
        case Retain(n) => live, slots := None, slots[n := live.value];
      }
      ok := fate.Proceed?;
    }

    /** Makes `want` the live state, moving at most one object. */
    method PublishServiceObject(want: string, sameBoot: bool, fate: Engine.Fate) returns (ok: bool)
      modifies this
      ensures (State(), ok) == old(AfterPublish(State(), versions, want, sameBoot, fate))
    {
      if live.Some? {
        var known := ServiceObjectMatches(versions, live.value, sameBoot);
        if !known { return false; }
      }
      if (live.Some? && live.value.state == want) || (live.None? && want == "absent") {
        return true;
      }
      ChoiceIsPossible(State(), versions, want, sameBoot, 0);
      for i := 0 to |versions|
        invariant State() == old(State())
        invariant Choose(State(), versions, want, sameBoot, i) == Choose(State(), versions, want, sameBoot, 0)
      {
        var n := versions[i].name;
        if n in slots {
          var known := ServiceObjectMatches(versions, slots[n], sameBoot);
          if !known { return false; }
        }
        if want == "absent" {
          if n !in slots {
            ok := Perform(Retain(n), fate);
            return;
          }
        } else if n in slots && slots[n].state == want {
          ok := Perform(if live.Some? then Exchange(n) else Publish(n), fate);
          return;
        }
      }
      ok := false;
    }
  }

  // ---- Conservation ----

  function Held(slots: map<Slot, Entry>, n: Slot): multiset<Entry> {
    if n in slots then multiset{slots[n]} else multiset{}
  }

  function SlotObjects(slots: map<Slot, Entry>, versions: seq<Version>): multiset<Entry> {
    if versions == [] then multiset{}
    else SlotObjects(slots, versions[..|versions| - 1]) + Held(slots, versions[|versions| - 1].name)
  }

  /** Every object there is: the live one and the staged ones. */
  function Objects(l: Layout, versions: seq<Version>): multiset<Entry> {
    LiveObjects(l) + SlotObjects(l.slots, versions)
  }

  ghost predicate DistinctSlots(versions: seq<Version>) {
    forall i, k :: 0 <= i < k < |versions| ==> versions[i].name != versions[k].name
  }

  predicate HasSlot(versions: seq<Version>, n: Slot) { exists i :: 0 <= i < |versions| && versions[i].name == n }

  predicate SameExcept(slots: map<Slot, Entry>, slots': map<Slot, Entry>, n: Slot) {
    slots - {n} == slots' - {n}
  }

  lemma Carry(a: multiset<Entry>, b: multiset<Entry>, h: multiset<Entry>, g: multiset<Entry>, k: multiset<Entry>)
    requires a + g == b + h
    ensures a + k + g == b + k + h
  {
    assert a + k + g == a + g + k;
    assert b + k + h == b + h + k;
  }

  lemma SameElsewhere(slots: map<Slot, Entry>, slots': map<Slot, Entry>, n: Slot, k: Slot)
    requires SameExcept(slots, slots', n) && k != n
    ensures Held(slots, k) == Held(slots', k)
  {
    assert k in slots <==> k in slots - {n};
    assert k in slots' <==> k in slots' - {n};
    if k in slots { assert (slots - {n})[k] == slots[k] && (slots' - {n})[k] == slots'[k]; }
  }

  /** Changing one slot changes the staged objects by what that slot held and holds. */
  lemma {:induction false} OneSlot(slots: map<Slot, Entry>, slots': map<Slot, Entry>, versions: seq<Version>, n: Slot)
    requires DistinctSlots(versions) && SameExcept(slots, slots', n)
    ensures if HasSlot(versions, n)
            then SlotObjects(slots, versions) + Held(slots', n) == SlotObjects(slots', versions) + Held(slots, n)
            else SlotObjects(slots, versions) == SlotObjects(slots', versions)
  {
    hide Held, SameExcept;
    if versions != [] {
      var last := |versions| - 1;
      var init := versions[..last];
      OneSlot(slots, slots', init, n);
      if versions[last].name == n {
        assert !HasSlot(init, n);
        assert SlotObjects(slots, init) + Held(slots, n) + Held(slots', n) == SlotObjects(slots, init) + Held(slots', n) + Held(slots, n);
      } else {
        var k := versions[last].name;
        SameElsewhere(slots, slots', n, k);
        if HasSlot(versions, n) {
          var i :| 0 <= i < |versions| && versions[i].name == n;
          assert init[i].name == n;
          Carry(SlotObjects(slots, init), SlotObjects(slots', init), Held(slots, n), Held(slots', n), Held(slots, k));
        }
      }
    }
  }

  function LiveObjects(l: Layout): multiset<Entry> { if l.live.Some? then multiset{l.live.value} else multiset{} }

  /** What leaves the slot arrives at the live place, and the other way round. */
  lemma MoveSwaps(l: Layout, m: Motion)
    requires Possible(l, m)
    ensures LiveObjects(Move(l, m)) == Held(l.slots, m.slot) && Held(Move(l, m).slots, m.slot) == LiveObjects(l)
    ensures SameExcept(l.slots, Move(l, m).slots, m.slot)
  {
  }

  lemma MoveConserves(l: Layout, versions: seq<Version>, m: Motion)
    requires DistinctSlots(versions) && Possible(l, m) && HasSlot(versions, m.slot)
    ensures Objects(Move(l, m), versions) == Objects(l, versions)
  {
    hide Held, LiveObjects, Move, SlotObjects, SameExcept;
    MoveSwaps(l, m);
    OneSlot(l.slots, Move(l, m).slots, versions, m.slot);
    assert LiveObjects(l) + SlotObjects(l.slots, versions) == SlotObjects(l.slots, versions) + LiveObjects(l);
    assert LiveObjects(Move(l, m)) + SlotObjects(Move(l, m).slots, versions)
        == SlotObjects(Move(l, m).slots, versions) + LiveObjects(Move(l, m));
  }

  /** Whatever is asked for and however the move fails, no object is lost, copied or created. */
  lemma PublishConserves(l: Layout, versions: seq<Version>, want: string, sameBoot: bool, fate: Engine.Fate)
    requires DistinctSlots(versions)
    ensures Objects(AfterPublish(l, versions, want, sameBoot, fate).0, versions) == Objects(l, versions)
  {
    hide Matches, Choose, Objects, Move;
    var c := Decide(l, versions, want, sameBoot);
    if c.Make? {
      ChoiceIsPossible(l, versions, want, sameBoot, 0);
      MoveConserves(l, versions, c.motion);
    }
  }

  // ---- What conservation is good for ----

  /** Every recorded object is somewhere, and nothing else is. */
  ghost predicate Intact(l: Layout, versions: seq<Version>, sameBoot: bool) {
    && DistinctSlots(versions)
    && |Objects(l, versions)| == |versions|
    && (forall e :: e in Objects(l, versions) ==> Matches(versions, e, sameBoot))
    && (forall i :: 0 <= i < |versions| ==> Recorded(Objects(l, versions), versions[i].state))
    && (forall i :: 0 <= i < |versions| ==> versions[i].state != "absent")
  }

  predicate HasState(versions: seq<Version>, state: string) { exists i :: 0 <= i < |versions| && versions[i].state == state }

  ghost predicate Recorded(objects: multiset<Entry>, state: string) { exists e :: e in objects && e.state == state }

  function EmptySlots(slots: map<Slot, Entry>, versions: seq<Version>): nat {
    if versions == [] then 0
    else EmptySlots(slots, versions[..|versions| - 1]) + if versions[|versions| - 1].name in slots then 0 else 1
  }

  lemma {:induction false} SlotsAddUp(slots: map<Slot, Entry>, versions: seq<Version>)
    ensures |SlotObjects(slots, versions)| + EmptySlots(slots, versions) == |versions|
  {
    if versions != [] {
      var n := versions[|versions| - 1].name;
      SlotsAddUp(slots, versions[..|versions| - 1]);
      assert |Held(slots, n)| == if n in slots then 1 else 0;
    }
  }

  /** An object is live exactly if one slot is empty. */
  lemma LiveLeavesOneGap(l: Layout, versions: seq<Version>, sameBoot: bool)
    requires Intact(l, versions, sameBoot)
    ensures EmptySlots(l.slots, versions) == if l.live.Some? then 1 else 0
  {
    hide Matches;
    SlotsAddUp(l.slots, versions);
    assert |LiveObjects(l)| == if l.live.Some? then 1 else 0;
  }

  lemma {:induction false} FindGap(slots: map<Slot, Entry>, versions: seq<Version>) returns (i: nat)
    requires EmptySlots(slots, versions) > 0
    ensures i < |versions| && versions[i].name !in slots
  {
    if versions[|versions| - 1].name in slots {
      i := FindGap(slots, versions[..|versions| - 1]);
    } else {
      i := |versions| - 1;
    }
  }

  lemma {:induction false} FindObject(slots: map<Slot, Entry>, versions: seq<Version>, e: Entry) returns (i: nat)
    requires e in SlotObjects(slots, versions)
    ensures i < |versions| && versions[i].name in slots && slots[versions[i].name] == e
  {
    if e in Held(slots, versions[|versions| - 1].name) {
      i := |versions| - 1;
    } else {
      i := FindObject(slots, versions[..|versions| - 1], e);
    }
  }

  lemma {:induction false} SlotIsObject(slots: map<Slot, Entry>, versions: seq<Version>, i: nat)
    requires i < |versions| && versions[i].name in slots
    ensures slots[versions[i].name] in SlotObjects(slots, versions)
  {
    if i < |versions| - 1 { SlotIsObject(slots, versions[..|versions| - 1], i); }
  }

  /** The scan does not stop before the slot that serves the request. */
  lemma {:induction false} ScanFinds(l: Layout, versions: seq<Version>, want: string, sameBoot: bool, from: nat, i: nat)
    requires from <= i < |versions|
    requires forall k :: 0 <= k < |versions| && versions[k].name in l.slots ==> Matches(versions, l.slots[versions[k].name], sameBoot)
    requires if want == "absent" then versions[i].name !in l.slots
             else versions[i].name in l.slots && l.slots[versions[i].name].state == want
    ensures Choose(l, versions, want, sameBoot, from).Make?
    decreases i - from
  {
    hide Matches;
    if from < i { ScanFinds(l, versions, want, sameBoot, from + 1, i); }
  }

  lemma LiveIsKnown(l: Layout, versions: seq<Version>, sameBoot: bool)
    requires Intact(l, versions, sameBoot) && l.live.Some?
    ensures Matches(versions, l.live.value, sameBoot) && l.live.value.state != "absent"
  {
    assert l.live.value in Objects(l, versions);
  }

  lemma SlotsAreKnown(l: Layout, versions: seq<Version>, sameBoot: bool)
    requires Intact(l, versions, sameBoot)
    ensures forall k :: 0 <= k < |versions| && versions[k].name in l.slots ==> Matches(versions, l.slots[versions[k].name], sameBoot)
  {
    hide Matches, SlotObjects;
    forall k | 0 <= k < |versions| && versions[k].name in l.slots
      ensures Matches(versions, l.slots[versions[k].name], sameBoot)
    {
      SlotIsObject(l.slots, versions, k);
      assert l.slots[versions[k].name] in Objects(l, versions);
    }
  }

  /** The slot that serves a request which is not served already. */
  lemma FindSlot(l: Layout, versions: seq<Version>, want: string, sameBoot: bool) returns (i: nat)
    requires Intact(l, versions, sameBoot)
    requires want == "absent" || HasState(versions, want)
    requires if want == "absent" then l.live.Some? else l.live.None? || l.live.value.state != want
    ensures i < |versions|
    ensures if want == "absent" then versions[i].name !in l.slots
            else versions[i].name in l.slots && l.slots[versions[i].name].state == want
  {
    hide Matches, SlotObjects, EmptySlots;
    if want == "absent" {
      LiveLeavesOneGap(l, versions, sameBoot);
      i := FindGap(l.slots, versions);
    } else {
      assert Recorded(Objects(l, versions), want);
      var e :| e in Objects(l, versions) && e.state == want;
      assert e in LiveObjects(l) || e in SlotObjects(l.slots, versions);
      i := FindObject(l.slots, versions, e);
    }
  }

  /** Any recorded state, and "absent", can be published from any intact layout. */
  lemma PublishReaches(l: Layout, versions: seq<Version>, want: string, sameBoot: bool)
    requires Intact(l, versions, sameBoot)
    requires want == "absent" || HasState(versions, want)
    ensures var (l', ok) := AfterPublish(l, versions, want, sameBoot, Engine.Proceed);
            ok && Shows(l', want) && Intact(l', versions, sameBoot)
  {
    hide Matches, Choose, Objects, Recorded, Move;
    PublishConserves(l, versions, want, sameBoot, Engine.Proceed);
    if l.live.Some? { LiveIsKnown(l, versions, sameBoot); }
    if !Shows(l, want) {
      SlotsAreKnown(l, versions, sameBoot);
      var i := FindSlot(l, versions, want, sameBoot);
      ScanFinds(l, versions, want, sameBoot, 0, i);
      ChoiceIsPossible(l, versions, want, sameBoot, 0);
    }
  }

  datatype Request = Request(want: string, sameBoot: bool, fate: Engine.Fate)

  function AfterRequests(l: Layout, versions: seq<Version>, requests: seq<Request>): Layout {
    if requests == [] then l
    else
      var last := requests[|requests| - 1];
      AfterPublish(AfterRequests(l, versions, requests[..|requests| - 1]), versions, last.want, last.sameBoot, last.fate).0
  }

  /**
    Over any requests, whether they succeed, are refused or fail half way: the objects
    stay the same, one slot is empty exactly if something is live, and every recorded
    state can still be reached.
   */
  lemma {:induction false} AlwaysReachable(l: Layout, versions: seq<Version>, sameBoot: bool, requests: seq<Request>)
    requires Intact(l, versions, sameBoot)
    ensures var l' := AfterRequests(l, versions, requests);
            && Objects(l', versions) == Objects(l, versions)
            && Intact(l', versions, sameBoot)
            && EmptySlots(l'.slots, versions) == (if l'.live.Some? then 1 else 0)
            && forall want :: want == "absent" || HasState(versions, want) ==>
                 AfterPublish(l', versions, want, sameBoot, Engine.Proceed).1
                 && Shows(AfterPublish(l', versions, want, sameBoot, Engine.Proceed).0, want)
    decreases |requests|
  {
    hide Matches, Choose, Objects, EmptySlots, AfterPublish, Shows;
    if requests != [] {
      var last := requests[|requests| - 1];
      var before := AfterRequests(l, versions, requests[..|requests| - 1]);
      AlwaysReachable(l, versions, sameBoot, requests[..|requests| - 1]);
      PublishConserves(before, versions, last.want, last.sameBoot, last.fate);
    }
    var l' := AfterRequests(l, versions, requests);
    assert Intact(l', versions, sameBoot);
    LiveLeavesOneGap(l', versions, sameBoot);
    forall want | want == "absent" || HasState(versions, want)
      ensures AfterPublish(l', versions, want, sameBoot, Engine.Proceed).1
      ensures Shows(AfterPublish(l', versions, want, sameBoot, Engine.Proceed).0, want)
    {
      PublishReaches(l', versions, want, sameBoot);
    }
  }

  // ---- Which requests succeed, and what they leave alone ----

  /** No version records an object of this state, within the recorded boot of this state and identity. */
  ghost predicate Foreign(versions: seq<Version>, e: Entry, sameBoot: bool) {
    forall i :: 0 <= i < |versions| && versions[i].state == e.state ==> sameBoot && versions[i].identity != e.identity
  }

  /** The slot of a version is free for the live object, or holds what is asked for. */
  predicate Serves(l: Layout, v: Version, want: string) {
    if want == "absent" then v.name !in l.slots else v.name in l.slots && l.slots[v.name].state == want
  }

  /** The first slot from `from` on that serves the request, with no foreign object up to it. */
  ghost predicate Reaches(l: Layout, versions: seq<Version>, want: string, sameBoot: bool, from: nat, i: int) {
    && from <= i < |versions| && Serves(l, versions[i], want)
    && (forall k :: from <= k < i ==> !Serves(l, versions[k], want))
    && (forall k :: from <= k <= i && versions[k].name in l.slots ==> !Foreign(versions, l.slots[versions[k].name], sameBoot))
  }

  /** The layout with the live object and the content of a slot swapped, if there are any. */
  function Swapped(l: Layout, n: Slot): Layout {
    Layout(if n in l.slots then Some(l.slots[n]) else None,
           if l.live.Some? then l.slots[n := l.live.value] else l.slots - {n})
  }

  lemma {:induction false} ScanIsExact(l: Layout, versions: seq<Version>, want: string, sameBoot: bool, from: nat)
    requires from <= |versions| && (want == "absent" ==> l.live.Some?)
    ensures var c := Choose(l, versions, want, sameBoot, from);
            && (c.Make? <==> exists i :: Reaches(l, versions, want, sameBoot, from, i))
            && (c.Make? || c.Unknown?)
            && (forall i :: Reaches(l, versions, want, sameBoot, from, i) ==>
                  c.Make? && Possible(l, c.motion) && Move(l, c.motion) == Swapped(l, versions[i].name))
    decreases |versions| - from
  {
    hide Foreign;
    if from < |versions| {
      ScanIsExact(l, versions, want, sameBoot, from + 1);
      var n := versions[from].name;
      if n in l.slots { KnownOrForeign(versions, l.slots[n], sameBoot); }
      hide Matches;
      if Serves(l, versions[from], want) {
        if n !in l.slots || Matches(versions, l.slots[n], sameBoot) { assert Reaches(l, versions, want, sameBoot, from, from); }
      } else {
        LaterReaches(l, versions, want, sameBoot, from);
        if Choose(l, versions, want, sameBoot, from).Make? {
          var i :| Reaches(l, versions, want, sameBoot, from + 1, i);
          assert Reaches(l, versions, want, sameBoot, from, i);
        }
      }
    }
  }

  lemma KnownOrForeign(versions: seq<Version>, e: Entry, sameBoot: bool)
    ensures Matches(versions, e, sameBoot) <==> !Foreign(versions, e, sameBoot)
  {
  }

  /** A slot that does not serve is passed, unless its object is foreign. */
  lemma LaterReaches(l: Layout, versions: seq<Version>, want: string, sameBoot: bool, from: nat)
    requires from < |versions| && !Serves(l, versions[from], want)
    ensures forall i :: Reaches(l, versions, want, sameBoot, from, i) <==>
              Reaches(l, versions, want, sameBoot, from + 1, i)
              && (versions[from].name in l.slots ==> !Foreign(versions, l.slots[versions[from].name], sameBoot))
  {
    hide Foreign, Serves;
  }

  predicate Served(l: Layout, want: string) {
    (l.live.Some? && l.live.value.state == want) || (l.live.None? && want == "absent")
  }

  /**
    From any layout, foreign objects and missing ones included: an undisturbed publication
    succeeds if and only if the live object is recorded and the request is served already or by
    a slot without a foreign object before it; it swaps the live object with the first such slot,
    and a refused one changes nothing.
   */
  lemma PublishIsExact(l: Layout, versions: seq<Version>, want: string, sameBoot: bool)
    ensures var (l', ok) := AfterPublish(l, versions, want, sameBoot, Engine.Proceed);
            && (ok <==> && (l.live.Some? ==> !Foreign(versions, l.live.value, sameBoot))
                        && (Served(l, want) || exists i :: Reaches(l, versions, want, sameBoot, 0, i)))
            && (ok && !Served(l, want) ==> forall i :: Reaches(l, versions, want, sameBoot, 0, i) ==> l' == Swapped(l, versions[i].name))
            && (!ok || Served(l, want) ==> l' == l)
  {
    hide Choose, Move;
    if l.live.Some? { KnownOrForeign(versions, l.live.value, sameBoot); }
    if !Served(l, want) { ScanIsExact(l, versions, want, sameBoot, 0); }
  }

  /** A request does not move an object that is foreign to it. */
  lemma ForeignStands(l: Layout, versions: seq<Version>, e: Entry, n: Slot, r: Request)
    requires Foreign(versions, e, r.sameBoot)
    ensures var l' := AfterPublish(l, versions, r.want, r.sameBoot, r.fate).0;
            && (l.live == Some(e) ==> l' == l)
            && (n in l.slots && l.slots[n] == e ==> n in l'.slots && l'.slots[n] == e)
  {
    hide Choose;
    var c := Decide(l, versions, r.want, r.sameBoot);
    if c.Make? {
      ScanIsExact(l, versions, r.want, r.sameBoot, 0);
      var i :| Reaches(l, versions, r.want, r.sameBoot, 0, i);
    }
  }

  /** Over any requests, however they fail, an object that no version records stays where it is. */
  lemma {:induction false} ForeignStays(l: Layout, versions: seq<Version>, e: Entry, n: Slot, requests: seq<Request>)
    requires forall i :: 0 <= i < |requests| ==> Foreign(versions, e, requests[i].sameBoot)
    ensures var l' := AfterRequests(l, versions, requests);
            && (l.live == Some(e) ==> l' == l)
            && (n in l.slots && l.slots[n] == e ==> n in l'.slots && l'.slots[n] == e)
    decreases |requests|
  {
    hide AfterPublish, Foreign;
    if requests != [] {
      var last := |requests| - 1;
      ForeignStays(l, versions, e, n, requests[..last]);
      ForeignStands(AfterRequests(l, versions, requests[..last]), versions, e, n, requests[last]);
    }
  }

  // ---- The prepared layout ----

  /** The original stays live with an empty slot of its own; each new state gets a filled slot. */
  ghost predicate PreparedFrom(original: Option<Entry>, versions: seq<Version>, l: Layout) {
    && l.live == original
    && (forall i :: 0 <= i < |versions| ==>
          if i == 0 && original.Some? then
            versions[i] == Version(OriginalSlot, original.value.state, original.value.identity) && OriginalSlot !in l.slots
          else
            versions[i].name == ObjectSlot(i) && ObjectSlot(i) in l.slots
            && l.slots[ObjectSlot(i)] == Entry(versions[i].state, versions[i].identity))
    && (original.Some? ==> |versions| > 0)
  }

  /** The first value with its state. */
  ghost predicate FirstOf(values: seq<Entry>, i: nat) {
    i < |values| && forall k :: 0 <= k < i ==> values[k].state != values[i].state
  }

  /** Behind the original there is one version for each of the listed values, in their order. */
  ghost predicate StagedFrom(versions: seq<Version>, base: nat, values: seq<Entry>, firsts: seq<nat>) {
    && |versions| == base + |firsts|
    && (forall k :: 0 <= k < |firsts| ==>
          && FirstOf(values, firsts[k])
          && versions[base + k] == Version(ObjectSlot(base + k), values[firsts[k]].state, values[firsts[k]].identity))
    && (forall h, k :: 0 <= h < k < |firsts| ==> firsts[h] < firsts[k])
  }

  method Prepare(original: Option<Entry>, values: seq<Entry>) returns (versions: seq<Version>, layout: Layout, ghost firsts: seq<nat>)
    requires (original.Some? ==> original.value.state != "absent") && forall i :: 0 <= i < |values| ==> values[i].state != "absent"
    ensures PreparedFrom(original, versions, layout)
    ensures StagedFrom(versions, if original.Some? then 1 else 0, values, firsts) && forall i :: FirstOf(values, i) ==> i in firsts
    ensures forall i :: 0 <= i < |values| ==> HasState(versions, values[i].state)
    ensures forall i :: 0 <= i < |versions| ==> versions[i].state != "absent"
  {
    versions, layout, firsts := [], Layout(original, map[]), [];
    if original.Some? {
      versions := [Version(OriginalSlot, original.value.state, original.value.identity)];
    }
    ghost var base := |versions|;
    var seen: set<string> := {};
    hide PreparedFrom, StagedFrom, HasState, FirstOf;
    for i := 0 to |values|
      invariant PreparedFrom(original, versions, layout) && StagedFrom(versions, base, values, firsts)
      invariant forall k :: 0 <= k < |firsts| ==> firsts[k] < i
      invariant forall k :: 0 <= k < i && FirstOf(values, k) ==> k in firsts
      invariant forall k :: 0 <= k < i ==> values[k].state in seen
      invariant forall state :: state in seen ==> HasState(versions, state) && exists k :: 0 <= k < i && values[k].state == state
      invariant forall k :: 0 <= k < |versions| ==> versions[k].state != "absent"
    {
      var value := values[i];
      SeenOrFirst(values, seen, i);
      if value.state !in seen {
        OneMoreStaged(original, versions, layout, values, firsts, i);
        seen := seen + {value.state};
        var n := |versions|;
        firsts := firsts + [i];
        versions := versions + [Version(ObjectSlot(n), value.state, value.identity)];
        layout := layout.(slots := layout.slots[ObjectSlot(n) := value]);
      }
    }
  }

  lemma SeenOrFirst(values: seq<Entry>, seen: set<string>, i: nat)
    requires i < |values| && forall k :: 0 <= k < i ==> values[k].state in seen
    requires forall state :: state in seen ==> exists k :: 0 <= k < i && values[k].state == state
    ensures values[i].state in seen <==> !FirstOf(values, i)
  {
  }

  lemma OneMoreStaged(original: Option<Entry>, versions: seq<Version>, l: Layout, values: seq<Entry>, firsts: seq<nat>, i: nat)
    requires PreparedFrom(original, versions, l) && StagedFrom(versions, if original.Some? then 1 else 0, values, firsts)
    requires i < |values| && FirstOf(values, i) && forall k :: 0 <= k < |firsts| ==> firsts[k] < i
    ensures var n := |versions|;
            var versions' := versions + [Version(ObjectSlot(n), values[i].state, values[i].identity)];
            && PreparedFrom(original, versions', l.(slots := l.slots[ObjectSlot(n) := values[i]]))
            && StagedFrom(versions', if original.Some? then 1 else 0, values, firsts + [i])
            && forall state :: HasState(versions', state) <==> state == values[i].state || HasState(versions, state)
  {
    hide FirstOf;
    var n := |versions|;
    var versions' := versions + [Version(ObjectSlot(n), values[i].state, values[i].identity)];
    assert versions'[n].state == values[i].state && forall k :: 0 <= k < n ==> versions'[k] == versions[k];
    forall state | HasState(versions, state) ensures HasState(versions', state) {
      var k :| 0 <= k < n && versions[k].state == state;
      assert versions'[k].state == state;
    }
  }

  lemma PreparedEntry(original: Option<Entry>, versions: seq<Version>, l: Layout, i: nat)
    requires PreparedFrom(original, versions, l) && i < |versions|
    ensures var e := Entry(versions[i].state, versions[i].identity);
            if versions[i].name in l.slots then l.slots[versions[i].name] == e else l.live == Some(e)
  {
  }

  lemma PreparedRecorded(original: Option<Entry>, versions: seq<Version>, l: Layout, i: nat)
    requires PreparedFrom(original, versions, l) && i < |versions|
    ensures Recorded(Objects(l, versions), versions[i].state)
  {
    hide PreparedFrom, SlotObjects;
    PreparedEntry(original, versions, l, i);
    if versions[i].name in l.slots { SlotIsObject(l.slots, versions, i); }
    assert Entry(versions[i].state, versions[i].identity) in Objects(l, versions);
  }

  lemma PreparedMatches(original: Option<Entry>, versions: seq<Version>, l: Layout, e: Entry)
    requires PreparedFrom(original, versions, l) && e in Objects(l, versions)
    ensures Matches(versions, e, true)
  {
    hide SlotObjects;
    var i := 0;
    if e in SlotObjects(l.slots, versions) {
      i := FindObject(l.slots, versions, e);
    } else {
      assert e in LiveObjects(l);
    }
    assert versions[i].state == e.state && versions[i].identity == e.identity;
  }

  lemma PreparedAddsUp(original: Option<Entry>, versions: seq<Version>, l: Layout)
    requires PreparedFrom(original, versions, l)
    ensures |Objects(l, versions)| == |versions| && DistinctSlots(versions)
  {
    hide SlotObjects, EmptySlots;
    PreparedCounts(original, versions, l, |versions|);
    assert versions[..|versions|] == versions;
    SlotsAddUp(l.slots, versions);
    assert |LiveObjects(l)| == if l.live.Some? then 1 else 0;
  }

  /** A prepared layout is intact, so that everything above applies to it. */
  lemma PreparedIsIntact(original: Option<Entry>, versions: seq<Version>, l: Layout)
    requires PreparedFrom(original, versions, l) && forall i :: 0 <= i < |versions| ==> versions[i].state != "absent"
    ensures Intact(l, versions, true)
  {
    hide PreparedFrom, Objects, Matches, Recorded;
    PreparedAddsUp(original, versions, l);
    forall e | e in Objects(l, versions) ensures Matches(versions, e, true) { PreparedMatches(original, versions, l, e); }
    forall i | 0 <= i < |versions| ensures Recorded(Objects(l, versions), versions[i].state) {
      PreparedRecorded(original, versions, l, i);
    }
  }

  lemma {:induction false} PreparedCounts(original: Option<Entry>, versions: seq<Version>, l: Layout, n: nat)
    requires PreparedFrom(original, versions, l) && n <= |versions|
    ensures EmptySlots(l.slots, versions[..n]) == if n > 0 && original.Some? then 1 else 0
  {
    if n > 0 {
      PreparedCounts(original, versions, l, n - 1);
      assert versions[..n][..n - 1] == versions[..n - 1];
    }
  }
}
