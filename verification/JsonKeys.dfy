/** The walk over a JSON token stream that rejects repeated member names. */
module JsonKeys {
  import opened Basics

  datatype Token = ObjectStart | ObjectEnd | ArrayStart | ArrayEnd | Text(text: string) | Literal(spelling: string)

  datatype Error = Exhausted | Duplicate(key: string)

  datatype Outcome = Done(rest: seq<Token>) | Failed(error: Error)

  predicate Closes(t: Token) { t == ObjectEnd || t == ArrayEnd }

  /** A member name; anything else in its place reads as the empty name. */
  function KeyOf(t: Token): string {
    if t.Text? then t.text else ""
  }

  /** `dec.More`. */
  predicate More(ts: seq<Token>) { ts != [] && !Closes(ts[0]) }

  /** Consuming the closing delimiter. */
  function Close(ts: seq<Token>): (r: Outcome)
    ensures r.Done? ==> |r.rest| < |ts|
  {
    if ts == [] then Failed(Exhausted) else Done(ts[1..])
  }

  function Walk(ts: seq<Token>): (r: Outcome)
    ensures r.Done? ==> |r.rest| < |ts|
    decreases |ts|, 0
  {
    if ts == [] then Failed(Exhausted)
    else if ts[0] == ObjectStart then WalkMembers(ts[1..], {})
    else if ts[0] == ArrayStart then WalkItems(ts[1..])
    else Done(ts[1..])
  }

  function WalkMembers(ts: seq<Token>, seen: set<string>): (r: Outcome)
    ensures r.Done? ==> |r.rest| < |ts|
    decreases |ts|, 1
  {
    if !More(ts) then Close(ts)
    else if KeyOf(ts[0]) in seen then Failed(Duplicate(KeyOf(ts[0])))
    else
      var value := Walk(ts[1..]);
      if value.Failed? then value else WalkMembers(value.rest, seen + {KeyOf(ts[0])})
  }

  function WalkItems(ts: seq<Token>): (r: Outcome)
    ensures r.Done? ==> |r.rest| < |ts|
    decreases |ts|, 1
  {
    if !More(ts) then Close(ts)
    else
      var value := Walk(ts);
      if value.Failed? then value else WalkItems(value.rest)
  }

  // ---- the walk as written, over a decoder ----------------------------------------

  /** A decoder that yields the remaining tokens and then an error. */
  class Decoder {
    var rest: seq<Token>

    constructor (tokens: seq<Token>)
      ensures rest == tokens
    {
      rest := tokens;
    }

    method Token() returns (t: Option<Token>)
      modifies this
      ensures old(rest) == [] ==> t == None && rest == []
      ensures old(rest) != [] ==> t == Some(old(rest)[0]) && rest == old(rest)[1..]
    {
      if rest == [] {
        return None;
      }
      t := Some(rest[0]);
      rest := rest[1..];
    }
  }

  method RejectDuplicates(dec: Decoder) returns (error: Option<Error>)
    modifies dec
    ensures var r := Walk(old(dec.rest));
            if r.Done? then error == None && dec.rest == r.rest else error == Some(r.error)
    decreases |dec.rest|
  {
    ghost var start := dec.rest;
    var token := dec.Token();
    if token.None? {
      return Some(Exhausted);
    }
    if token.value == ObjectStart {
      var seen: set<string> := {};
      while More(dec.rest)
        invariant |dec.rest| < |start| && WalkMembers(dec.rest, seen) == Walk(start)
        decreases |dec.rest|
      {
        var keyToken := dec.Token();
        var key := KeyOf(keyToken.value);
        if key in seen {
          return Some(Duplicate(key));
        }
        seen := seen + {key};
        error := RejectDuplicates(dec);
        if error.Some? {
          return;
        }
      }
      var close := dec.Token();
      return if close.None? then Some(Exhausted) else None;
    } else if token.value == ArrayStart {
      while More(dec.rest)
        invariant |dec.rest| < |start| && WalkItems(dec.rest) == Walk(start)
        decreases |dec.rest|
      {
        error := RejectDuplicates(dec);
        if error.Some? {
          return;
        }
      }
      var close := dec.Token();
      return if close.None? then Some(Exhausted) else None;
    }
    return None;
  }

  // ---- what it decides --------------------------------------------------------------

  datatype Value = Atom(token: Token) | Array(items: Items) | Object(members: Members)
  datatype Items = NoItems | Item(head: Value, tail: Items)
  datatype Members = NoMembers | Member(name: string, value: Value, tail: Members)

  predicate IsAtom(t: Token) { t.Text? || t.Literal? }

  predicate IsJson(v: Value) {
    match v
    case Atom(t) => IsAtom(t)
    case Array(items) => ItemsAreJson(items)
    case Object(members) => MembersAreJson(members)
  }

  predicate ItemsAreJson(items: Items) {
    items.Item? ==> IsJson(items.head) && ItemsAreJson(items.tail)
  }

  predicate MembersAreJson(members: Members) {
    members.Member? ==> IsJson(members.value) && MembersAreJson(members.tail)
  }

  function Tokens(v: Value): seq<Token> {
    match v
    case Atom(t) => [t]
    case Array(items) => [ArrayStart] + ItemTokens(items) + [ArrayEnd]
    case Object(members) => [ObjectStart] + MemberTokens(members) + [ObjectEnd]
  }

  function ItemTokens(items: Items): seq<Token> {
    match items
    case NoItems => []
    case Item(head, tail) => Tokens(head) + ItemTokens(tail)
  }

  function MemberTokens(members: Members): seq<Token> {
    match members
    case NoMembers => []
    case Member(name, value, tail) => [Text(name)] + Tokens(value) + MemberTokens(tail)
  }

  function Names(members: Members): seq<string> {
    match members
    case NoMembers => []
    case Member(name, _, tail) => [name] + Names(tail)
  }

  /** Some name occurs twice. */
  predicate Twice(names: seq<string>, key: string) {
    exists i, j :: 0 <= i < j < |names| && names[i] == key && names[j] == key
  }

  /** Some object, at some depth, repeats this member name. */
  predicate Repeats(v: Value, key: string) {
    match v
    case Atom(_) => false
    case Array(items) => ItemsRepeat(items, key)
    case Object(members) => Twice(Names(members), key) || MembersRepeat(members, key)
  }

  predicate ItemsRepeat(items: Items, key: string) {
    items.Item? && (Repeats(items.head, key) || ItemsRepeat(items.tail, key))
  }

  predicate MembersRepeat(members: Members, key: string) {
    members.Member? && (Repeats(members.value, key) || MembersRepeat(members.tail, key))
  }

  lemma StartsOpen(v: Value)
    requires IsJson(v)
    ensures Tokens(v) != [] && !Closes(Tokens(v)[0])
  {
  }

  /** The walk fails on exactly the values in which some object repeats a name,
      and otherwise stops exactly where the value ends. */
  lemma {:induction false} WalkIsExact(v: Value, rest: seq<Token>)
    requires IsJson(v)
    ensures var r := Walk(Tokens(v) + rest);
            if r.Done? then r.rest == rest && forall key :: !Repeats(v, key)
            else r.error.Duplicate? && Repeats(v, r.error.key)
    decreases v
  {
    var all := Tokens(v) + rest;
    match v
    case Atom(t) =>
      assert all[1..] == rest;
    case Array(items) =>
      assert all[1..] == ItemTokens(items) + ([ArrayEnd] + rest);
      ItemsAreExact(items, rest);
      assert forall key :: ItemsRepeat(items, key) <==> Repeats(v, key);
    case Object(members) =>
      assert all[1..] == MemberTokens(members) + ([ObjectEnd] + rest);
      MembersAreExact(members, {}, rest);
      assert forall key :: Clashes(members, {}, key) <==> Repeats(v, key);
  }

  lemma {:induction false} ItemsAreExact(items: Items, rest: seq<Token>)
    requires ItemsAreJson(items)
    ensures var r := WalkItems(ItemTokens(items) + ([ArrayEnd] + rest));
            if r.Done? then r.rest == rest && forall key :: !ItemsRepeat(items, key)
            else r.error.Duplicate? && ItemsRepeat(items, r.error.key)
    decreases items
  {
    var end := [ArrayEnd] + rest;
    match items
    case NoItems =>
      assert ItemTokens(items) + end == end;
    case Item(head, tail) =>
      var more := ItemTokens(tail) + end;
      assert ItemTokens(items) + end == Tokens(head) + more;
      StartsOpen(head);
      WalkIsExact(head, more);
      ItemsAreExact(tail, rest);
  }

  /** What stops the member loop once the names in `seen` have been met. */
  predicate Clashes(members: Members, seen: set<string>, key: string) {
    (key in seen && key in Names(members)) || Twice(Names(members), key) || MembersRepeat(members, key)
  }

  lemma ClashesStep(members: Members, seen: set<string>, key: string)
    requires members.Member?
    ensures Clashes(members, seen, key)
       <==> (key == members.name && key in seen) || Repeats(members.value, key)
            || Clashes(members.tail, seen + {members.name}, key)
  {
    var names, later := Names(members), Names(members.tail);
    assert names == [members.name] + later;
    if Twice(later, key) {
      var i, j :| 0 <= i < j < |later| && later[i] == key && later[j] == key;
      assert names[i + 1] == key && names[j + 1] == key;
    }
    if key == members.name && key in later {
      var j :| 0 <= j < |later| && later[j] == key;
      assert names[0] == key && names[j + 1] == key;
    }
    if Twice(names, key) {
      var i, j :| 0 <= i < j < |names| && names[i] == key && names[j] == key;
      assert later[j - 1] == key;
      assert i > 0 ==> later[i - 1] == key;
    }
  }

  lemma {:induction false} MembersAreExact(members: Members, seen: set<string>, rest: seq<Token>)
    requires MembersAreJson(members)
    ensures var r := WalkMembers(MemberTokens(members) + ([ObjectEnd] + rest), seen);
            if r.Done? then r.rest == rest && forall key :: !Clashes(members, seen, key)
            else r.error.Duplicate? && Clashes(members, seen, r.error.key)
    decreases members
  {
    var end := [ObjectEnd] + rest;
    match members
    case NoMembers =>
      assert MemberTokens(members) + end == end;
    case Member(name, value, tail) =>
      var more := MemberTokens(tail) + end;
      var all := MemberTokens(members) + end;
      assert all == [Text(name)] + (Tokens(value) + more);
      forall key
        ensures Clashes(members, seen, key)
           <==> (key == name && key in seen) || Repeats(value, key) || Clashes(tail, seen + {name}, key)
      {
        ClashesStep(members, seen, key);
      }
      if name !in seen {
        assert all[1..] == Tokens(value) + more;
        WalkIsExact(value, more);
        MembersAreExact(tail, seen + {name}, rest);
      }
  }

  // ---- what it reports on any tokens ----------------------------------------------------

  predicate MetTwice(ts: seq<Token>, key: string) {
    exists i, j :: 0 <= i < j < |ts| && KeyOf(ts[i]) == key && KeyOf(ts[j]) == key
  }

  predicate Met(ts: seq<Token>, key: string) { exists i :: 0 <= i < |ts| && KeyOf(ts[i]) == key }

  /** A later part of the tokens. */
  predicate Later(rest: seq<Token>, ts: seq<Token>) { |rest| <= |ts| && rest == ts[|ts| - |rest|..] }

  lemma LaterMet(rest: seq<Token>, ts: seq<Token>, key: string)
    requires Later(rest, ts)
    ensures Met(rest, key) ==> Met(ts, key)
    ensures MetTwice(rest, key) ==> MetTwice(ts, key)
  {
    var n := |ts| - |rest|;
    assert forall i | 0 <= i < |rest| :: rest[i] == ts[n + i];
    if i, j :| 0 <= i < j < |rest| && KeyOf(rest[i]) == key && KeyOf(rest[j]) == key {
      assert KeyOf(ts[n + i]) == key && KeyOf(ts[n + j]) == key;
    }
  }

  lemma LaterLater(a: seq<Token>, b: seq<Token>, c: seq<Token>)
    requires Later(a, b) && Later(b, c)
    ensures Later(a, c)
  {
  }

  lemma NameAgain(ts: seq<Token>, rest: seq<Token>)
    requires ts != [] && Later(rest, ts[1..]) && Met(rest, KeyOf(ts[0]))
    ensures MetTwice(ts, KeyOf(ts[0]))
  {
    var i :| 0 <= i < |rest| && KeyOf(rest[i]) == KeyOf(ts[0]);
    var n := |ts| - |rest|;
    assert rest[i] == ts[n + i];
  }

  lemma {:induction false} WalkMeets(ts: seq<Token>)
    ensures var r := Walk(ts);
            && (r.Done? ==> Later(r.rest, ts))
            && (r.Failed? && r.error.Duplicate? ==> MetTwice(ts, r.error.key))
    decreases |ts|, 0
  {
    if ts != [] && ts[0] == ObjectStart {
      MembersMeet(ts[1..], {});
      var r := WalkMembers(ts[1..], {});
      if r.Failed? && r.error.Duplicate? {
        LaterMet(ts[1..], ts, r.error.key);
      }
    } else if ts != [] && ts[0] == ArrayStart {
      ItemsMeet(ts[1..]);
      var r := WalkItems(ts[1..]);
      if r.Failed? && r.error.Duplicate? {
        LaterMet(ts[1..], ts, r.error.key);
      }
    }
  }

  lemma {:induction false} MembersMeet(ts: seq<Token>, seen: set<string>)
    ensures var r := WalkMembers(ts, seen);
            && (r.Done? ==> Later(r.rest, ts))
            && (r.Failed? && r.error.Duplicate? ==>
                  MetTwice(ts, r.error.key) || (r.error.key in seen && Met(ts, r.error.key)))
    decreases |ts|, 1
  {
    if More(ts) && KeyOf(ts[0]) !in seen {
      var value := Walk(ts[1..]);
      WalkMeets(ts[1..]);
      if value.Failed? {
        if value.error.Duplicate? {
          LaterMet(ts[1..], ts, value.error.key);
        }
      } else {
        var r := WalkMembers(value.rest, seen + {KeyOf(ts[0])});
        MembersMeet(value.rest, seen + {KeyOf(ts[0])});
        LaterLater(value.rest, ts[1..], ts);
        if r.Failed? && r.error.Duplicate? {
          LaterMet(value.rest, ts, r.error.key);
          if r.error.key == KeyOf(ts[0]) && Met(value.rest, r.error.key) {
            NameAgain(ts, value.rest);
          }
        }
      }
    }
  }

  lemma {:induction false} ItemsMeet(ts: seq<Token>)
    ensures var r := WalkItems(ts);
            && (r.Done? ==> Later(r.rest, ts))
            && (r.Failed? && r.error.Duplicate? ==> MetTwice(ts, r.error.key))
    decreases |ts|, 1
  {
    if More(ts) {
      var value := Walk(ts);
      WalkMeets(ts);
      if value.Done? {
        ItemsMeet(value.rest);
        var r := WalkItems(value.rest);
        if r.Failed? && r.error.Duplicate? {
          LaterMet(value.rest, ts, r.error.key);
        }
      }
    }
  }

  /** On any tokens, also cut off or ill-formed ones: what is left is the end of what
      was given, and a name reported as a duplicate was met twice. */
  lemma DuplicateIsMet(ts: seq<Token>, key: string)
    ensures Walk(ts) == Failed(Duplicate(key)) ==> MetTwice(ts, key)
    ensures Walk(ts).Done? ==> Later(Walk(ts).rest, ts)
  {
    WalkMeets(ts);
  }
}
