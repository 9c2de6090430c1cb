/** Longest common subsequences, defined without reference to any table, and
    edit scripts between two lists. */
module Lcs {

  /** `s` is obtained from `t` by dropping elements. */
  ghost predicate Subseq<T>(s: seq<T>, t: seq<T>) {
    if s == [] then true
    else if t == [] then false
    else (s[0] == t[0] && Subseq(s[1..], t[1..])) || Subseq(s, t[1..])
  }

  ghost predicate Common<T>(s: seq<T>, a: seq<T>, b: seq<T>) {
    Subseq(s, a) && Subseq(s, b)
  }

  /** The length of a longest common subsequence, by the recurrence the table
      is filled with; `IsLongest` says what it means. */
  function Length<T(==)>(a: seq<T>, b: seq<T>): nat
    decreases |a| + |b|
  {
    if a == [] || b == [] then 0
    else if a[0] == b[0] then Length(a[1..], b[1..]) + 1
    else
      var down, right := Length(a[1..], b), Length(a, b[1..]);
      if down >= right then down else right
  }

  lemma {:induction false} SubseqDropBoth<T>(s: seq<T>, t: seq<T>)
    requires s != [] && t != [] && Subseq(s, t)
    ensures Subseq(s[1..], t[1..])
    decreases |t|
  {
    if !(s[0] == t[0] && Subseq(s[1..], t[1..])) {
      SubseqDropBoth(s, t[1..]);
      SubseqWeaken(s[1..], t[1..]);
    }
  }

  lemma {:induction false} SubseqWeaken<T>(s: seq<T>, t: seq<T>)
    requires t != [] && Subseq(s, t[1..])
    ensures Subseq(s, t)
  {
  }

  lemma {:induction false} SubseqSnoc<T>(s: seq<T>, t: seq<T>, x: T)
    requires Subseq(s, t)
    ensures Subseq(s + [x], t + [x])
    decreases |t|
  {
    if t == [] {
      assert s + [x] == [x] && t + [x] == [x];
      assert Subseq<T>([], []);
    } else {
      assert (t + [x])[1..] == t[1..] + [x];
      if s != [] && s[0] == t[0] && Subseq(s[1..], t[1..]) {
        SubseqSnoc(s[1..], t[1..], x);
        assert (s + [x])[1..] == s[1..] + [x];
      } else {
        SubseqSnoc(s, t[1..], x);
      }
    }
  }

  lemma {:induction false} SubseqIsShorter<T>(s: seq<T>, t: seq<T>)
    requires Subseq(s, t)
    ensures |s| <= |t|
    decreases |t|
  {
    if s != [] {
      if s[0] == t[0] && Subseq(s[1..], t[1..]) {
        SubseqIsShorter(s[1..], t[1..]);
      } else {
        SubseqIsShorter(s, t[1..]);
      }
    }
  }

  lemma {:induction false} SubseqInit<T>(s: seq<T>, t: seq<T>, x: T)
    requires s != [] && Subseq(s, t + [x])
    ensures Subseq(s[..|s| - 1], t)
    decreases |t|
  {
    SubseqIsShorter(s, t + [x]);
    if |s| > 1 {
      var u := t + [x];
      if t != [] {
        assert u[1..] == t[1..] + [x];
        if s[0] == u[0] && Subseq(s[1..], u[1..]) {
          SubseqInit(s[1..], t[1..], x);
          assert s[1..][..|s[1..]| - 1] == s[..|s| - 1][1..];
        } else {
          SubseqInit(s, t[1..], x);
        }
      }
    }
  }

  /** `Length` is attained ... */
  lemma {:induction false} Witness<T>(a: seq<T>, b: seq<T>) returns (s: seq<T>)
    ensures Common(s, a, b) && |s| == Length(a, b)
    decreases |a| + |b|
  {
    if a == [] || b == [] {
      s := [];
    } else if a[0] == b[0] {
      var rest := Witness(a[1..], b[1..]);
      s := [a[0]] + rest;
      assert s[1..] == rest;
    } else if Length(a[1..], b) >= Length(a, b[1..]) {
      s := Witness(a[1..], b);
    } else {
      s := Witness(a, b[1..]);
    }
  }

  /** ... and never exceeded. */
  lemma {:induction false} UpperBound<T>(s: seq<T>, a: seq<T>, b: seq<T>)
    requires Common(s, a, b)
    ensures |s| <= Length(a, b)
    decreases |a| + |b|
  {
    if s == [] {
    } else if a[0] == b[0] {
      SubseqDropBoth(s, a);
      SubseqDropBoth(s, b);
      UpperBound(s[1..], a[1..], b[1..]);
    } else if Subseq(s, a[1..]) {
      UpperBound(s, a[1..], b);
    } else {
      assert s[0] == a[0];
      UpperBound(s, a, b[1..]);
    }
  }

  /** What `Length` means: the greatest length of a common subsequence. */
  lemma IsLongest<T>(a: seq<T>, b: seq<T>)
    ensures exists s :: Common(s, a, b) && |s| == Length(a, b)
    ensures forall s | Common(s, a, b) :: |s| <= Length(a, b)
  {
    var w := Witness(a, b);
    forall s | Common(s, a, b)
      ensures |s| <= Length(a, b)
    {
      UpperBound(s, a, b);
    }
  }

  lemma LengthSnoc<T>(a: seq<T>, b: seq<T>, x: T)
    ensures Length(a + [x], b + [x]) == Length(a, b) + 1
  {
    var w := Witness(a, b);
    SubseqSnoc(w, a, x);
    SubseqSnoc(w, b, x);
    UpperBound(w + [x], a + [x], b + [x]);
    var v := Witness(a + [x], b + [x]);
    if v != [] {
      SubseqInit(v, a, x);
      SubseqInit(v, b, x);
      UpperBound(v[..|v| - 1], a, b);
    }
  }

  /** Trimming a common prefix and a common suffix costs nothing. */
  lemma {:induction false} LengthTrimmed<T>(p: seq<T>, a: seq<T>, b: seq<T>, s: seq<T>)
    ensures Length(p + a + s, p + b + s) == |p| + Length(a, b) + |s|
    decreases |p| + |s|
  {
    if p != [] {
      assert (p + a + s)[1..] == p[1..] + a + s;
      assert (p + b + s)[1..] == p[1..] + b + s;
      LengthTrimmed(p[1..], a, b, s);
    } else if s != [] {
      var x, init := s[|s| - 1], s[..|s| - 1];
      assert p + a + s == (p + a + init) + [x];
      assert p + b + s == (p + b + init) + [x];
      LengthSnoc(p + a + init, p + b + init, x);
      LengthTrimmed(p, a, b, init);
    } else {
      assert p + a + s == a && p + b + s == b;
    }
  }

  lemma {:induction false} SubseqElement<T>(x: T, t: seq<T>)
    ensures Subseq([x], t) <==> x in t
    decreases |t|
  {
    if t != [] {
      SubseqElement(x, t[1..]);
      assert t == [t[0]] + t[1..];
    }
  }

  /** No line in common, nothing to keep. */
  lemma NothingShared<T>(a: seq<T>, b: seq<T>)
    ensures Length(a, b) == 0 <==> (forall x | x in a :: x !in b)
  {
    if Length(a, b) == 0 {
      forall x | x in a
        ensures x !in b
      {
        if x in b {
          SubseqElement(x, a);
          SubseqElement(x, b);
          UpperBound([x], a, b);
        }
      }
    } else {
      var w := Witness(a, b);
      SubseqHead(w, a);
      SubseqHead(w, b);
    }
  }

  lemma {:induction false} SubseqHead<T>(s: seq<T>, t: seq<T>)
    requires s != [] && Subseq(s, t)
    ensures s[0] in t
    decreases |t|
  {
    if s[0] != t[0] {
      SubseqHead(s, t[1..]);
    }
  }

  // ---- edit scripts ---------------------------------------------------------

  datatype Kind = Equal | Delete | Insert
  datatype Op<T> = Op(kind: Kind, text: T)

  /** The lists a script reads and writes: inserts dropped, deletes dropped. */
  function OldOf<T>(ops: seq<Op<T>>): seq<T> {
    if ops == [] then []
    else (if ops[0].kind == Insert then [] else [ops[0].text]) + OldOf(ops[1..])
  }

  function NewOf<T>(ops: seq<Op<T>>): seq<T> {
    if ops == [] then []
    else (if ops[0].kind == Delete then [] else [ops[0].text]) + NewOf(ops[1..])
  }

  function Kept<T>(ops: seq<Op<T>>): seq<T> {
    if ops == [] then []
    else (if ops[0].kind == Equal then [ops[0].text] else []) + Kept(ops[1..])
  }

  /** A script's cost: how many lines it deletes or inserts. */
  function Cost<T>(ops: seq<Op<T>>): nat {
    if ops == [] then 0
    else (if ops[0].kind == Equal then 0 else 1) + Cost(ops[1..])
  }

  ghost predicate Replays<T>(ops: seq<Op<T>>, before: seq<T>, after: seq<T>) {
    OldOf(ops) == before && NewOf(ops) == after
  }

  lemma {:induction false} OldOfAppend<T>(a: seq<Op<T>>, b: seq<Op<T>>)
    ensures OldOf(a + b) == OldOf(a) + OldOf(b)
  {
    if a == [] {
      assert a + b == b;
    } else {
      assert (a + b)[1..] == a[1..] + b;
      OldOfAppend(a[1..], b);
    }
  }

  lemma {:induction false} NewOfAppend<T>(a: seq<Op<T>>, b: seq<Op<T>>)
    ensures NewOf(a + b) == NewOf(a) + NewOf(b)
  {
    if a == [] {
      assert a + b == b;
    } else {
      assert (a + b)[1..] == a[1..] + b;
      NewOfAppend(a[1..], b);
    }
  }

  lemma {:induction false} CostAppend<T>(a: seq<Op<T>>, b: seq<Op<T>>)
    ensures Cost(a + b) == Cost(a) + Cost(b)
  {
    if a == [] {
      assert a + b == b;
    } else {
      assert (a + b)[1..] == a[1..] + b;
      CostAppend(a[1..], b);
    }
  }

  lemma {:induction false} KeptIsCommon<T>(ops: seq<Op<T>>)
    ensures Common(Kept(ops), OldOf(ops), NewOf(ops))
    ensures Cost(ops) + 2 * |Kept(ops)| == |OldOf(ops)| + |NewOf(ops)|
  {
    if ops != [] {
      KeptIsCommon(ops[1..]);
      var o, n, k := OldOf(ops), NewOf(ops), Kept(ops);
      var o', n', k' := OldOf(ops[1..]), NewOf(ops[1..]), Kept(ops[1..]);
      match ops[0].kind {
        case Equal =>
          assert o[1..] == o' && n[1..] == n' && k[1..] == k';
        case Delete =>
          assert o[1..] == o' && n == n' && k == k';
          SubseqWeaken(k, o);
        case Insert =>
          assert o == o' && n[1..] == n' && k == k';
          SubseqWeaken(k, n);
      }
    }
  }

  /** No script between two lists can be cheaper than the subsequence bound. */
  lemma CostBound<T>(ops: seq<Op<T>>, before: seq<T>, after: seq<T>)
    requires Replays(ops, before, after)
    ensures Cost(ops) >= |before| + |after| - 2 * Length(before, after)
  {
    KeptIsCommon(ops);
    UpperBound(Kept(ops), before, after);
  }
}
