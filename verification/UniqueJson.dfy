/** The strict reading of a JSON object: no repeated key, no null, bounded nesting. */
module UniqueJson {
  import opened Options

  datatype Json = Null | Text(text: string) | Atom(atom: string) | Array(items: Items) | Object(members: Members)

  datatype Items = NoItem | Item(head: Json, tail: Items)

  datatype Members = NoMember | Member(key: string, value: Json, rest: Members)

  datatype Symbol = OpenBrace | CloseBrace | OpenBracket | CloseBracket | Word(text: string) | Plain(atom: string) | NullWord

  const MAX_DEPTH := 16

  // ---- The token stream of a document ----

  function Symbols(v: Json): seq<Symbol> {
    match v
    case Null => [NullWord]
    case Text(text) => [Word(text)]
    case Atom(atom) => [Plain(atom)]
    case Array(items) => [OpenBracket] + ItemSymbols(items) + [CloseBracket]
    case Object(members) => [OpenBrace] + MemberSymbols(members) + [CloseBrace]
  }

  function ItemSymbols(items: Items): seq<Symbol> {
    match items
    case NoItem => []
    case Item(head, tail) => Symbols(head) + ItemSymbols(tail)
  }

  function MemberSymbols(members: Members): seq<Symbol> {
    match members
    case NoMember => []
    case Member(key, value, rest) => [Word(key)] + Symbols(value) + MemberSymbols(rest)
  }

  // ---- What is wanted ----

  function Keys(members: Members): seq<string> {
    match members
    case NoMember => []
    case Member(key, _, rest) => [key] + Keys(rest)
  }

  predicate Distinct(keys: seq<string>) { forall i, k :: 0 <= i < k < |keys| ==> keys[i] != keys[k] }

  /** No object at any level repeats a key. */
  predicate UniqueKeys(v: Json) {
    match v
    case Array(items) => UniqueInItems(items)
    case Object(members) => Distinct(Keys(members)) && UniqueInMembers(members)
    case _ => true
  }

  predicate UniqueInItems(items: Items) { items.Item? ==> UniqueKeys(items.head) && UniqueInItems(items.tail) }

  predicate UniqueInMembers(members: Members) {
    members.Member? ==> UniqueKeys(members.value) && UniqueInMembers(members.rest)
  }

  predicate NoNull(v: Json) {
    match v
    case Null => false
    case Array(items) => NoNullItems(items)
    case Object(members) => NoNullMembers(members)
    case _ => true
  }

  predicate NoNullItems(items: Items) { items.Item? ==> NoNull(items.head) && NoNullItems(items.tail) }

  predicate NoNullMembers(members: Members) { members.Member? ==> NoNull(members.value) && NoNullMembers(members.rest) }

  function Max(a: nat, b: nat): nat { if a < b then b else a }

  /** How many containers lie around the deepest value. */
  function Nesting(v: Json): nat {
    match v
    case Array(items) => ItemNesting(items)
    case Object(members) => MemberNesting(members)
    case _ => 0
  }

  function ItemNesting(items: Items): nat {
    if items.NoItem? then 0 else Max(1 + Nesting(items.head), ItemNesting(items.tail))
  }

  function MemberNesting(members: Members): nat {
    if members.NoMember? then 0 else Max(1 + Nesting(members.value), MemberNesting(members.rest))
  }

  // ---- The checker ----

  predicate More(input: seq<Symbol>) { input != [] && !input[0].CloseBrace? && !input[0].CloseBracket? }

  /** Reads one value; the result is the rest of the input, or None. */
  function CheckValue(input: seq<Symbol>, depth: nat): (r: Option<seq<Symbol>>)
    ensures r.Some? ==> |r.value| < |input|
    decreases |input|, 1
  {
    if depth > MAX_DEPTH || input == [] then None
    else
      match input[0]
      case NullWord => None
      case CloseBrace => None
      case CloseBracket => None
      case OpenBrace => CheckMembers(input[1..], {}, depth)
      case OpenBracket => CheckItems(input[1..], depth)
      case _ => Some(input[1..])
  }

  function CheckMembers(input: seq<Symbol>, seen: set<string>, depth: nat): (r: Option<seq<Symbol>>)
    ensures r.Some? ==> |r.value| < |input|
    decreases |input|, 0
  {
    if !More(input) then if input == [] then None else Some(input[1..])
    else if !input[0].Word? || input[0].text in seen then None
    else
      match CheckValue(input[1..], depth + 1)
      case None => None
      case Some(rest) => CheckMembers(rest, seen + {input[0].text}, depth)
  }

  function CheckItems(input: seq<Symbol>, depth: nat): (r: Option<seq<Symbol>>)
    ensures r.Some? ==> |r.value| < |input|
    decreases |input|, 2
  {
    if !More(input) then if input == [] then None else Some(input[1..])
    else
      match CheckValue(input, depth + 1)
      case None => None
      case Some(rest) => CheckItems(rest, depth)
  }

  /** The names that reading the members adds to `seen`. */
  function FoundKeys(input: seq<Symbol>, seen: set<string>, depth: nat): set<string>
    requires CheckMembers(input, seen, depth).Some?
    decreases |input|
  {
    if !More(input) then seen
    else FoundKeys(CheckValue(input[1..], depth + 1).value, seen + {input[0].text}, depth)
  }

  class Decoder {
    var input: seq<Symbol>

    constructor (input: seq<Symbol>)
      ensures this.input == input
    {
      this.input := input;
    }

    method Token() returns (token: Option<Symbol>)
      modifies this
      ensures old(input) == [] ==> token.None? && input == []
      ensures old(input) != [] ==> token == Some(old(input)[0]) && input == old(input)[1..]
    {
      if input == [] {
        return None;
      }
      token := Some(input[0]);
      input := input[1..];
    }

    /** Reads one value and everything in it. */
    method UniqueValue(depth: nat) returns (ok: bool)
      modifies this
      ensures ok == CheckValue(old(input), depth).Some?
      ensures ok ==> input == CheckValue(old(input), depth).value
      decreases |input|, 1
    {
      if depth > MAX_DEPTH {
        return false;
      }
      var token := Token();
      if token.None? || token.value.NullWord? || token.value.CloseBrace? || token.value.CloseBracket? {
        return false;
      }
      if token.value.OpenBrace? {
        var inside, _ := UniqueMembers(depth);
        ok := inside;
      } else if token.value.OpenBracket? {
        ghost var start := input;
        while More(input)
          invariant CheckItems(input, depth) == CheckItems(start, depth) && |input| <= |start|
          decreases |input|
        {
          ok := UniqueValue(depth + 1);
          if !ok { return; }
        }
        token := Token();
        ok := token.Some?;
      } else {
        ok := true;
      }
    }

    /** Reads the members of an object whose brace was read; `keys` are the names found. */
    method UniqueMembers(depth: nat) returns (ok: bool, keys: set<string>)
      modifies this
      ensures ok == CheckMembers(old(input), {}, depth).Some?
      ensures ok ==> input == CheckMembers(old(input), {}, depth).value && keys == FoundKeys(old(input), {}, depth)
      decreases |input|, 2
    {
      keys := {};
      ghost var start := input;
      while More(input)
        invariant CheckMembers(input, keys, depth) == CheckMembers(start, {}, depth) && |input| <= |start|
        invariant CheckMembers(start, {}, depth).Some? ==> FoundKeys(input, keys, depth) == FoundKeys(start, {}, depth)
        decreases |input|
      {
        var key := Token();
        if !key.value.Word? || key.value.text in keys {
          return false, keys;
        }
        keys := keys + {key.value.text};
        ok := UniqueValue(depth + 1);
        if !ok { return; }
      }
      var end := Token();
      ok := end.Some?;
    }
  }

  // ---- The checker is exact ----

  ghost predicate Wanted(v: Json, depth: nat) { UniqueKeys(v) && NoNull(v) && depth + Nesting(v) <= MAX_DEPTH }

  ghost predicate WantedItems(items: Items, depth: nat) {
    UniqueInItems(items) && NoNullItems(items) && (items.Item? ==> depth + ItemNesting(items) <= MAX_DEPTH)
  }

  ghost predicate WantedMembers(members: Members, depth: nat) {
    UniqueInMembers(members) && NoNullMembers(members) && (members.Member? ==> depth + MemberNesting(members) <= MAX_DEPTH)
  }

  ghost predicate Apart(seen: set<string>, keys: seq<string>) {
    Distinct(keys) && forall i :: 0 <= i < |keys| ==> keys[i] !in seen
  }

  /** Reading one value succeeds exactly if it is wanted, and then consumes exactly its tokens. */
  lemma {:induction false} ValueIsExact(v: Json, depth: nat, rest: seq<Symbol>)
    ensures CheckValue(Symbols(v) + rest, depth) == if Wanted(v, depth) then Some(rest) else None
    decreases v
  {
    var input := Symbols(v) + rest;
    assert input[0] == Symbols(v)[0];
    match v
    case Array(items) =>
      assert input[1..] == ItemSymbols(items) + ([CloseBracket] + rest);
      if depth <= MAX_DEPTH { ItemsAreExact(items, depth, CloseBracket, rest); }
    case Object(members) =>
      assert input[1..] == MemberSymbols(members) + ([CloseBrace] + rest);
      if depth <= MAX_DEPTH { MembersAreExact(members, {}, depth, CloseBrace, rest); }
    case _ => assert input[1..] == rest;
  }

  lemma {:induction false} ItemsAreExact(items: Items, depth: nat, close: Symbol, rest: seq<Symbol>)
    requires depth <= MAX_DEPTH && (close.CloseBrace? || close.CloseBracket?)
    ensures CheckItems(ItemSymbols(items) + ([close] + rest), depth) == if WantedItems(items, depth) then Some(rest) else None
    decreases items
  {
    var input := ItemSymbols(items) + ([close] + rest);
    match items
    case NoItem => assert input == [close] + rest;
    case Item(head, tail) =>
      var after := ItemSymbols(tail) + ([close] + rest);
      assert input == Symbols(head) + after;
      ValueIsExact(head, depth + 1, after);
      ItemsAreExact(tail, depth, close, rest);
      assert input[0] == Symbols(head)[0];
  }

  lemma {:induction false} MembersAreExact(members: Members, seen: set<string>, depth: nat, close: Symbol, rest: seq<Symbol>)
    requires depth <= MAX_DEPTH && (close.CloseBrace? || close.CloseBracket?)
    ensures CheckMembers(MemberSymbols(members) + ([close] + rest), seen, depth)
            == if WantedMembers(members, depth) && Apart(seen, Keys(members)) then Some(rest) else None
    decreases members
  {
    hide CheckValue, CheckItems, Symbols, Wanted, WantedMembers, Apart;
    var input := MemberSymbols(members) + ([close] + rest);
    match members
    case NoMember => assert input == [close] + rest; NoMembersWanted(seen, depth);
    case Member(key, value, more) =>
      var after := MemberSymbols(more) + ([close] + rest);
      assert input[0] == Word(key) && input[1..] == Symbols(value) + after;
      ValueIsExact(value, depth + 1, after);
      MembersAreExact(more, seen + {key}, depth, close, rest);
      ApartFirst(seen, key, Keys(more));
      assert Keys(members) == [key] + Keys(more);
      assert More(input);
      MemberIsWanted(key, value, more, depth);
  }

  lemma NoMembersWanted(seen: set<string>, depth: nat)
    ensures WantedMembers(NoMember, depth) && Apart(seen, Keys(NoMember))
  {
  }

  /** The members are wanted if the first value is, one level deeper, and the others are. */
  lemma MemberIsWanted(key: string, value: Json, more: Members, depth: nat)
    requires depth <= MAX_DEPTH
    ensures WantedMembers(Member(key, value, more), depth) <==> Wanted(value, depth + 1) && WantedMembers(more, depth)
  {
    hide UniqueKeys, NoNull, Nesting;
    var members := Member(key, value, more);
    assert UniqueInMembers(members) <==> UniqueKeys(value) && UniqueInMembers(more);
    assert NoNullMembers(members) <==> NoNull(value) && NoNullMembers(more);
    assert MemberNesting(members) == Max(1 + Nesting(value), MemberNesting(more));
    assert more.NoMember? ==> MemberNesting(more) == 0;
  }

  lemma ApartFirst(seen: set<string>, key: string, keys: seq<string>)
    ensures Apart(seen, [key] + keys) <==> key !in seen && Apart(seen + {key}, keys)
  {
    var all := [key] + keys;
    if Apart(seen, all) {
      assert all[0] == key;
      forall i | 0 <= i < |keys| ensures keys[i] !in seen + {key} { assert all[i + 1] == keys[i]; }
      forall i, k | 0 <= i < k < |keys| ensures keys[i] != keys[k] { assert all[i + 1] != all[k + 1]; }
    }
  }

  /** The names found are the object's own keys. */
  lemma {:induction false} KeysAreExact(members: Members, seen: set<string>, depth: nat, close: Symbol, rest: seq<Symbol>)
    requires depth <= MAX_DEPTH && (close.CloseBrace? || close.CloseBracket?)
    requires WantedMembers(members, depth) && Apart(seen, Keys(members))
    ensures CheckMembers(MemberSymbols(members) + ([close] + rest), seen, depth) == Some(rest)
    ensures FoundKeys(MemberSymbols(members) + ([close] + rest), seen, depth) == seen + set key | key in Keys(members)
    decreases members
  {
    hide CheckValue, CheckItems, Symbols, UniqueKeys, NoNull, Nesting;
    MembersAreExact(members, seen, depth, close, rest);
    var input := MemberSymbols(members) + ([close] + rest);
    match members
    case NoMember => assert input == [close] + rest;
    case Member(key, value, more) =>
      var after := MemberSymbols(more) + ([close] + rest);
      assert input[0] == Word(key) && input[1..] == Symbols(value) + after;
      ValueIsExact(value, depth + 1, after);
      ApartFirst(seen, key, Keys(more));
      assert Keys(members) == [key] + Keys(more);
      KeysAreExact(more, seen + {key}, depth, close, rest);
  }

  /** The whole document: one object, then nothing. */
  method DecodeStrict(input: seq<Symbol>) returns (ok: bool, keys: set<string>)
    ensures forall members :: input == Symbols(Object(members)) ==>
              && (ok <==> UniqueKeys(Object(members)) && NoNull(Object(members)) && Nesting(Object(members)) <= 16)
              && (ok ==> keys == set key | key in Keys(members))
    ensures forall v :: input == Symbols(v) && !v.Object? ==> !ok
    ensures forall v, rest :: input == Symbols(v) + rest && rest != [] ==> !ok
  {
    ok, keys := false, {};
    var decoder := new Decoder(input);
    var first := decoder.Token();
    if first.Some? && first.value.OpenBrace? {
      ok, keys := decoder.UniqueMembers(0);
      ok := ok && decoder.input == [];
    }
    forall members | input == Symbols(Object(members))
      ensures (ok <==> Wanted(Object(members), 0)) && (ok ==> keys == set key | key in Keys(members))
    {
      DocumentIsExact(members, input);
    }
    forall v, rest | input == Symbols(v) + rest && rest != [] ensures !ok { NothingMayFollow(v, rest); }
  }

  /** What follows a document is still there when it has been read. */
  lemma NothingMayFollow(v: Json, rest: seq<Symbol>)
    ensures (Symbols(v) + rest) != [] && ((Symbols(v) + rest)[0].OpenBrace? <==> v.Object?)
    ensures v.Object? ==>
              var read := CheckMembers((Symbols(v) + rest)[1..], {}, 0);
              read.Some? ==> read.value == rest
  {
    hide CheckMembers, CheckItems, CheckValue, MemberSymbols, Keys, UniqueInMembers, NoNullMembers;
    var input := Symbols(v) + rest;
    assert input[0] == Symbols(v)[0];
    if v.Object? {
      assert input[1..] == MemberSymbols(v.members) + ([CloseBrace] + rest);
      MembersAreExact(v.members, {}, 0, CloseBrace, rest);
    }
  }

  lemma DocumentIsExact(members: Members, input: seq<Symbol>)
    requires input == Symbols(Object(members))
    ensures input[0] == OpenBrace
    ensures CheckMembers(input[1..], {}, 0) == if Wanted(Object(members), 0) then Some([]) else None
    ensures Wanted(Object(members), 0) ==> FoundKeys(input[1..], {}, 0) == set key | key in Keys(members)
  {
    hide CheckMembers, CheckItems, CheckValue, FoundKeys, MemberSymbols, Keys, UniqueInMembers, NoNullMembers;
    assert input[1..] == MemberSymbols(members) + ([CloseBrace] + []);
    MembersAreExact(members, {}, 0, CloseBrace, []);
    if Wanted(Object(members), 0) { KeysAreExact(members, {}, 0, CloseBrace, []); }
  }
}
