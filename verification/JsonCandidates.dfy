/** The scan for brace-balanced candidates in raw agent output. */
module JsonCandidates {

  /** The nesting depth before position i; a stray closer leaves it at zero. */
  function Depth(s: string, i: nat): nat
    requires i <= |s|
  {
    if i == 0 then 0
    else
      var d := Depth(s, i - 1);
      if s[i - 1] == '{' then d + 1 else if s[i - 1] == '}' && d > 0 then d - 1 else d
  }

  datatype Span = Span(start: nat, last: nat)

  /** Opens at depth zero and closes at the first return to zero. */
  predicate IsBlock(s: string, b: Span) {
    && b.start < b.last < |s|
    && s[b.start] == '{' && Depth(s, b.start) == 0
    && (forall k | b.start < k <= b.last :: Depth(s, k) > 0)
    && Depth(s, b.last + 1) == 0
  }

  /** Blocks that are in order and disjoint. */
  predicate Ordered(blocks: seq<Span>) {
    forall j, k | 0 <= j < k < |blocks| :: blocks[j].last < blocks[k].start
  }

  /** The texts of exactly the blocks that end before position i, in order. */
  ghost predicate Lists(s: string, i: nat, blocks: seq<Span>, texts: seq<string>) {
    && Ordered(blocks)
    && (forall b :: b in blocks <==> IsBlock(s, b) && b.last < i)
    && |texts| == |blocks|
    && forall k | 0 <= k < |blocks| ::
         blocks[k].start <= blocks[k].last < |s| && texts[k] == s[blocks[k].start..blocks[k].last + 1]
  }

  /** The block open before position i, if the depth is positive. */
  predicate IsOpen(s: string, i: nat, start: nat)
    requires i <= |s|
  {
    && start < i && s[start] == '{' && Depth(s, start) == 0
    && forall k | start < k <= i :: Depth(s, k) > 0
  }

  method Candidates(raw: string) returns (out: seq<string>)
    ensures exists blocks :: Lists(raw, |raw|, blocks, out)
  {
    out := [];
    var depth := 0;
    var start: int := -1;
    ghost var blocks: seq<Span> := [];
    for i := 0 to |raw|
      invariant depth == Depth(raw, i)
      invariant if depth > 0 then start >= 0 && IsOpen(raw, i, start) else start == -1
      invariant Lists(raw, i, blocks, out)
      invariant forall b | b in blocks :: if depth > 0 then b.last < start else b.last < i
    {
      if raw[i] == '{' {
        if depth == 0 {
          start := i;
        }
        depth := depth + 1;
      } else if raw[i] == '}' {
        if depth > 0 {
          depth := depth - 1;
          if depth == 0 && start >= 0 {
            ListsGrow(raw, i, blocks, out, start);
            out := out + [raw[start..i + 1]];
            blocks := blocks + [Span(start, i)];
            start := -1;
            continue;
          }
        }
      }
      ListsStay(raw, i, blocks, out);
    }
  }

  predicate Ends(s: string, i: nat)
    requires i < |s|
  {
    s[i] == '}' && Depth(s, i) > 0 && Depth(s, i + 1) == 0
  }

  /** A block that ends here is listed last. */
  lemma ListsGrow(s: string, i: nat, blocks: seq<Span>, texts: seq<string>, start: nat)
    requires i < |s| && Ends(s, i) && Lists(s, i, blocks, texts) && IsOpen(s, i, start)
    requires forall b | b in blocks :: b.last < start
    ensures Lists(s, i + 1, blocks + [Span(start, i)], texts + [s[start..i + 1]])
  {
    var more := blocks + [Span(start, i)];
    EndsAt(s, i, blocks, more);
    forall j, k | 0 <= j < k < |more|
      ensures more[j].last < more[k].start
    {
      assert more[j] == blocks[j] && blocks[j] in blocks;
    }
  }

  lemma ListsStay(s: string, i: nat, blocks: seq<Span>, texts: seq<string>)
    requires i < |s| && !Ends(s, i) && Lists(s, i, blocks, texts)
    ensures Lists(s, i + 1, blocks, texts)
  {
    EndsAt(s, i, blocks, blocks);
  }

  /** The only block that can end at position i is the open one. */
  lemma EndsAt(s: string, i: nat, before: seq<Span>, after: seq<Span>)
    requires i < |s| && forall b :: b in before <==> IsBlock(s, b) && b.last < i
    requires
      if Ends(s, i)
      then exists start :: IsOpen(s, i, start) && after == before + [Span(start, i)]
      else after == before
    ensures forall b :: b in after <==> IsBlock(s, b) && b.last < i + 1
  {
    forall b
      ensures b in after <==> IsBlock(s, b) && b.last < i + 1
    {
      if IsBlock(s, b) && b.last == i {
        assert Depth(s, i) > 0;
        var start :| IsOpen(s, i, start) && after == before + [Span(start, i)];
        assert start == b.start by {
          OneOpening(s, i, start, b.start);
        }
      }
    }
  }

  lemma OneOpening(s: string, i: nat, a: nat, b: nat)
    requires i <= |s| && IsOpen(s, i, a) && IsOpen(s, i, b)
    ensures a == b
  {
  }

  // ---- what the blocks are ------------------------------------------------------------

  /** Openers minus closers in the first k characters. */
  function Level(t: string, k: nat): int
    requires k <= |t|
  {
    if k == 0 then 0
    else Level(t, k - 1) + if t[k - 1] == '{' then 1 else if t[k - 1] == '}' then -1 else 0
  }

  lemma {:induction false} LevelIsDepth(s: string, b: Span, k: nat)
    requires IsBlock(s, b) && k <= b.last + 1 - b.start
    ensures Level(s[b.start..b.last + 1], k) == Depth(s, b.start + k)
    decreases k
  {
    if k > 0 {
      LevelIsDepth(s, b, k - 1);
      assert s[b.start..b.last + 1][k - 1] == s[b.start + k - 1];
    }
  }

  /** A block is balanced, with positive depth on every proper non-empty prefix. */
  lemma BlockIsBalanced(s: string, b: Span)
    requires IsBlock(s, b)
    ensures var t := s[b.start..b.last + 1];
            Level(t, |t|) == 0 && forall k | 0 < k < |t| :: Level(t, k) > 0
  {
    var t := s[b.start..b.last + 1];
    LevelIsDepth(s, b, |t|);
    forall k | 0 < k < |t|
      ensures Level(t, k) > 0
    {
      LevelIsDepth(s, b, k);
    }
  }

  lemma {:induction false} FindsStart(s: string, i: nat) returns (start: nat)
    requires i <= |s| && Depth(s, i) > 0
    ensures IsOpen(s, i, start)
    decreases i
  {
    if Depth(s, i - 1) == 0 {
      start := i - 1;
    } else {
      start := FindsStart(s, i - 1);
    }
  }

  lemma {:induction false} FindsEnd(s: string, i: nat, q: nat) returns (last: nat)
    requires 0 < i <= q + 1 <= |s| && Depth(s, i) > 0 && Depth(s, q + 1) == 0
    ensures i <= last <= q && Depth(s, last + 1) == 0
    ensures forall k | i <= k <= last :: Depth(s, k) > 0
    decreases q - i
  {
    if Depth(s, i + 1) == 0 {
      last := i;
    } else {
      last := FindsEnd(s, i + 1, q);
    }
  }

  predicate Returns(s: string, p: nat, q: nat) { p <= q < |s| && Depth(s, q + 1) == 0 }

  predicate Covers(s: string, b: Span, p: nat) { IsBlock(s, b) && b.start <= p <= b.last }

  /** A character is in a candidate exactly when it is nested and the nesting is
      closed later: stray closers and an unclosed tail are in none. */
  lemma CoveredIff(s: string, p: nat)
    requires p < |s|
    ensures (exists b :: Covers(s, b, p)) <==> (Depth(s, p) > 0 || s[p] == '{') && exists q :: Returns(s, p, q)
  {
    if b :| Covers(s, b, p) {
      CoveredReturns(s, b, p);
    }
    if q :| Returns(s, p, q) && (Depth(s, p) > 0 || s[p] == '{') {
      var b := Covering(s, p, q);
    }
  }

  lemma CoveredReturns(s: string, b: Span, p: nat)
    requires Covers(s, b, p)
    ensures (Depth(s, p) > 0 || s[p] == '{') && Returns(s, p, b.last)
  {
  }

  lemma Covering(s: string, p: nat, q: nat) returns (b: Span)
    requires Returns(s, p, q) && (Depth(s, p) > 0 || s[p] == '{')
    ensures Covers(s, b, p)
  {
    var i := if Depth(s, p) > 0 then p else p + 1;
    var start := FindsStart(s, i);
    var last := FindsEnd(s, i, q);
    b := Span(start, last);
  }

  lemma {:induction false} OneOrder(a: seq<Span>, b: seq<Span>)
    requires Ordered(a) && Ordered(b) && forall x :: x in a <==> x in b
    requires forall x | x in a :: x.start < x.last
    ensures a == b
    decreases |a|
  {
    BothEmpty(a, b);
    if a != [] {
      assert a[0] in b;
      var rest := b[1..];
      assert a[0] == b[0] by {
        var j :| 0 <= j < |b| && b[j] == a[0];
        assert b[0] in a;
        var k :| 0 <= k < |a| && a[k] == b[0];
      }
      forall x
        ensures x in a[1..] <==> x in rest
      {
        TailMembers(a, x);
        TailMembers(b, x);
      }
      OneOrder(a[1..], rest);
    }
  }

  lemma BothEmpty(a: seq<Span>, b: seq<Span>)
    requires forall x :: x in a <==> x in b
    ensures a == [] <==> b == []
  {
    if a != [] {
      assert a[0] in a;
    }
    if b != [] {
      assert b[0] in b;
    }
  }

  lemma TailMembers(a: seq<Span>, x: Span)
    requires a != [] && Ordered(a) && forall y | y in a :: y.start < y.last
    ensures x in a[1..] <==> x in a && x != a[0]
  {
    if x in a[1..] {
      var j :| 0 < j < |a| && a[j] == x;
      assert a[0].last < a[j].start && a[0] in a && a[0].start < a[0].last;
    }
  }

  /** The candidates are determined: two listings of one text agree. */
  lemma OneListing(s: string, a: seq<Span>, x: seq<string>, b: seq<Span>, y: seq<string>)
    requires Lists(s, |s|, a, x) && Lists(s, |s|, b, y)
    ensures a == b && x == y
  {
    OneOrder(a, b);
  }
}
