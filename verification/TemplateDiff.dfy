/** The agent-template diff: common leading and trailing lines are cut away and
    the two middles are shown as one block. */
module TemplateDiff {
  import opened Lcs
  import LineDiff
  import opened Text

  function Min(a: nat, b: nat): nat {
    if b < a then b else a
  }

  /** How many leading lines two lists share, counted from the k-th on. */
  function PrefixFrom<T(==)>(left: seq<T>, right: seq<T>, k: nat): (n: nat)
    requires k <= |left| && k <= |right|
    ensures k <= n <= |left| && n <= |right|
    decreases |left| - k
  {
    if k == |left| || k == |right| || left[k] != right[k] then k
    else PrefixFrom(left, right, k + 1)
  }

  /** How many trailing lines two lists share, counted from the k-th last on. */
  function SuffixFrom<T(==)>(left: seq<T>, right: seq<T>, k: nat): (n: nat)
    requires k <= |left| && k <= |right|
    ensures k <= n <= |left| && n <= |right|
    decreases |left| - k
  {
    if k == |left| || k == |right| || left[|left| - 1 - k] != right[|right| - 1 - k] then k
    else SuffixFrom(left, right, k + 1)
  }

  lemma {:induction false} PrefixAgrees<T>(left: seq<T>, right: seq<T>, k: nat)
    requires k <= |left| && k <= |right| && left[..k] == right[..k]
    ensures var n := PrefixFrom(left, right, k);
            && left[..n] == right[..n]
            && (n < |left| && n < |right| ==> left[n] != right[n])
    decreases |left| - k
  {
    if k < |left| && k < |right| && left[k] == right[k] {
      assert left[..k + 1] == left[..k] + [left[k]];
      assert right[..k + 1] == right[..k] + [right[k]];
      PrefixAgrees(left, right, k + 1);
    }
  }

  function FromEnd<T>(s: seq<T>, k: nat): T
    requires k < |s|
  {
    s[|s| - 1 - k]
  }

  ghost predicate AgreeAtEnd<T>(left: seq<T>, right: seq<T>, n: nat)
    requires n <= |left| && n <= |right|
  {
    forall k | 0 <= k < n :: FromEnd(left, k) == FromEnd(right, k)
  }

  lemma {:induction false} SuffixAgrees<T>(left: seq<T>, right: seq<T>, k: nat)
    requires k <= |left| && k <= |right| && AgreeAtEnd(left, right, k)
    ensures var n := SuffixFrom(left, right, k);
            && AgreeAtEnd(left, right, n)
            && (n < |left| && n < |right| ==> FromEnd(left, n) != FromEnd(right, n))
    decreases |left| - k
  {
    if k < |left| && k < |right| && left[|left| - 1 - k] == right[|right| - 1 - k] {
      SuffixAgrees(left, right, k + 1);
    }
  }

  lemma AgreementIsEquality<T>(left: seq<T>, right: seq<T>, n: nat)
    requires n <= |left| && n <= |right| && AgreeAtEnd(left, right, n)
    ensures left[|left| - n..] == right[|right| - n..]
  {
    var l, r := left[|left| - n..], right[|right| - n..];
    forall i | 0 <= i < n
      ensures l[i] == r[i]
    {
      assert FromEnd(left, n - 1 - i) == FromEnd(right, n - 1 - i);
    }
  }

  function PrefixLength<T(==)>(left: seq<T>, right: seq<T>): nat {
    PrefixFrom(left, right, 0)
  }

  function SuffixLength<T(==)>(left: seq<T>, right: seq<T>): nat {
    SuffixFrom(left, right, 0)
  }

  /** `commonPrefix`. */
  method CommonPrefix<T(==)>(left: seq<T>, right: seq<T>) returns (n: nat)
    ensures n == PrefixLength(left, right)
  {
    var limit := Min(|left|, |right|);
    for index := 0 to limit
      invariant PrefixFrom(left, right, index) == PrefixLength(left, right)
    {
      if left[index] != right[index] {
        return index;
      }
    }
    return limit;
  }

  /** `commonSuffix`. */
  method CommonSuffix<T(==)>(left: seq<T>, right: seq<T>) returns (n: nat)
    ensures n == SuffixLength(left, right)
  {
    var limit := Min(|left|, |right|);
    for index := 0 to limit
      invariant SuffixFrom(left, right, index) == SuffixLength(left, right)
    {
      if left[|left| - 1 - index] != right[|right| - 1 - index] {
        return index;
      }
    }
    return limit;
  }

  /** The two lists cut at their common ends. */
  datatype Cut<T> = Cut(prefix: seq<T>, removed: seq<T>, added: seq<T>, suffix: seq<T>)

  function CutEnds<T(==)>(local: seq<T>, upstream: seq<T>): Cut<T> {
    var p := PrefixLength(local, upstream);
    var s := SuffixLength(local[p..], upstream[p..]);
    Cut(local[..p], local[p..|local| - s], upstream[p..|upstream| - s], local[|local| - s..])
  }

  function Marked(mark: char, lines: seq<string>): seq<string> {
    seq(|lines|, k requires 0 <= k < |lines| => [mark] + lines[k])
  }

  const UP_TO_DATE := "template content is up to date\n"
  const HEAD := "--- cached\n+++ upstream\n"

  function DiffText(local: string, upstream: string): string {
    if local == upstream then UP_TO_DATE
    else
      var cut := CutEnds(Split(local, '\n'), Split(upstream, '\n'));
      HEAD + Unlines(Marked('-', cut.removed)) + Unlines(Marked('+', cut.added))
  }

  /** `diffLines` of the template package. */
  method DiffLines(local: string, upstream: string) returns (text: string)
    ensures text == DiffText(local, upstream)
  {
    if local == upstream {
      return UP_TO_DATE;
    }
    var localLines, upstreamLines := Split(local, '\n'), Split(upstream, '\n');
    var prefix := CommonPrefix(localLines, upstreamLines);
    var suffix := CommonSuffix(localLines[prefix..], upstreamLines[prefix..]);
    var removed := WriteBlock('-', localLines[prefix..|localLines| - suffix]);
    var added := WriteBlock('+', upstreamLines[prefix..|upstreamLines| - suffix]);
    assert CutEnds(localLines, upstreamLines).removed == localLines[prefix..|localLines| - suffix];
    assert CutEnds(localLines, upstreamLines).added == upstreamLines[prefix..|upstreamLines| - suffix];
    text := HEAD + removed + added;
  }

  /** One of the two writer loops of `diffLines`. */
  method WriteBlock(mark: char, lines: seq<string>) returns (text: string)
    ensures text == Unlines(Marked(mark, lines))
  {
    text := "";
    for k := 0 to |lines|
      invariant text == Unlines(Marked(mark, lines[..k]))
    {
      assert Marked(mark, lines[..k + 1]) == Marked(mark, lines[..k]) + [[mark] + lines[k]];
      UnlinesSnoc(Marked(mark, lines[..k]), [mark] + lines[k]);
      text := text + ([mark] + lines[k]) + "\n";
    }
    assert lines[..|lines|] == lines;
  }

  lemma ThreeParts<T>(whole: seq<T>, p: nat, s: nat)
    requires p + s <= |whole|
    ensures whole == whole[..p] + whole[p..|whole| - s] + whole[|whole| - s..]
  {
  }

  lemma AgreedSuffix<T>(left: seq<T>, right: seq<T>)
    ensures var s := SuffixLength(left, right); left[|left| - s..] == right[|right| - s..]
  {
    SuffixAgrees(left, right, 0);
    AgreementIsEquality(left, right, SuffixLength(left, right));
  }

  lemma LastOfRest<T>(whole: seq<T>, p: nat, rest: seq<T>, s: nat)
    requires p <= |whole| && rest == whole[p..] && s <= |rest|
    ensures p + s <= |whole| && rest[|rest| - s..] == whole[|whole| - s..]
  {
  }

  lemma SharedEnds<T>(local: seq<T>, upstream: seq<T>, p: nat, s: nat)
    requires p + s <= |local| && p + s <= |upstream|
    requires local[..p] == upstream[..p] && local[|local| - s..] == upstream[|upstream| - s..]
    ensures local == local[..p] + local[p..|local| - s] + local[|local| - s..]
    ensures upstream == local[..p] + upstream[p..|upstream| - s] + local[|local| - s..]
  {
    ThreeParts(local, p, s);
    ThreeParts(upstream, p, s);
  }

  lemma CutAt<T>(local: seq<T>, upstream: seq<T>, p: nat, l: seq<T>, u: seq<T>, s: nat)
    requires p <= |local| && p <= |upstream| && l == local[p..] && u == upstream[p..]
    requires s <= |l| && s <= |u| && local[..p] == upstream[..p] && l[|l| - s..] == u[|u| - s..]
    ensures p + s <= |local| && p + s <= |upstream|
    ensures local == local[..p] + local[p..|local| - s] + local[|local| - s..]
    ensures upstream == local[..p] + upstream[p..|upstream| - s] + local[|local| - s..]
  {
    LastOfRest(local, p, l, s);
    LastOfRest(upstream, p, u, s);
    SharedEnds(local, upstream, p, s);
  }

  /** The common ends never overlap: both lists are exactly prefix, middle,
      suffix ... */
  lemma CutSplits<T>(local: seq<T>, upstream: seq<T>)
    ensures var c := CutEnds(local, upstream);
            && local == c.prefix + c.removed + c.suffix
            && upstream == c.prefix + c.added + c.suffix
  {
    var p := PrefixLength(local, upstream);
    var l, u := local[p..], upstream[p..];
    PrefixAgrees(local, upstream, 0);
    AgreedSuffix(l, u);
    CutAt(local, upstream, p, l, u, SuffixLength(l, u));
  }

  /** ... and the middles are as small as cutting can make them. */
  lemma CutIsMaximal<T>(local: seq<T>, upstream: seq<T>)
    ensures var c := CutEnds(local, upstream);
            c.removed != [] && c.added != [] ==>
              && c.removed[0] != c.added[0]
              && c.removed[|c.removed| - 1] != c.added[|c.added| - 1]
  {
    var p := PrefixLength(local, upstream);
    PrefixAgrees(local, upstream, 0);
    SuffixAgrees(local[p..], upstream[p..], 0);
  }

  /** Cutting the ends off takes the same amount off the longest common
      subsequence. */
  lemma CutKeepsLength<T>(local: seq<T>, upstream: seq<T>)
    ensures var c := CutEnds(local, upstream);
            Length(local, upstream) == |c.prefix| + |c.suffix| + Length(c.removed, c.added)
  {
    var c := CutEnds(local, upstream);
    CutSplits(local, upstream);
    LengthTrimmed(c.prefix, c.removed, c.added, c.suffix);
  }

  function Ops<T>(kind: Kind, lines: seq<T>): seq<Op<T>> {
    seq(|lines|, k requires 0 <= k < |lines| => Op(kind, lines[k]))
  }

  function BlockOf<T>(c: Cut<T>): seq<Op<T>> {
    Ops(Equal, c.prefix) + Ops(Delete, c.removed) + Ops(Insert, c.added) + Ops(Equal, c.suffix)
  }

  /** The edit script the shown block stands for. */
  function BlockScript<T(==)>(local: seq<T>, upstream: seq<T>): seq<Op<T>> {
    BlockOf(CutEnds(local, upstream))
  }

  lemma {:induction false} OpsMeaning<T>(kind: Kind, lines: seq<T>)
    ensures OldOf(Ops(kind, lines)) == (if kind == Insert then [] else lines)
    ensures NewOf(Ops(kind, lines)) == (if kind == Delete then [] else lines)
    ensures Cost(Ops(kind, lines)) == (if kind == Equal then 0 else |lines|)
    decreases |lines|
  {
    if lines != [] {
      assert Ops(kind, lines)[1..] == Ops(kind, lines[1..]);
      OpsMeaning(kind, lines[1..]);
    }
  }

  lemma Append<T>(kind: Kind, lines: seq<T>, ops: seq<Op<T>>)
    ensures OldOf(ops + Ops(kind, lines)) == OldOf(ops) + (if kind == Insert then [] else lines)
    ensures NewOf(ops + Ops(kind, lines)) == NewOf(ops) + (if kind == Delete then [] else lines)
    ensures Cost(ops + Ops(kind, lines)) == Cost(ops) + (if kind == Equal then 0 else |lines|)
  {
    OldOfAppend(ops, Ops(kind, lines));
    NewOfAppend(ops, Ops(kind, lines));
    CostAppend(ops, Ops(kind, lines));
    OpsMeaning(kind, lines);
  }

  lemma BlockMeaning<T>(c: Cut<T>)
    ensures OldOf(BlockOf(c)) == c.prefix + c.removed + c.suffix
    ensures NewOf(BlockOf(c)) == c.prefix + c.added + c.suffix
    ensures Cost(BlockOf(c)) == |c.removed| + |c.added|
  {
    var a := Ops(Equal, c.prefix);
    var b := a + Ops(Delete, c.removed);
    var d := b + Ops(Insert, c.added);
    OpsMeaning(Equal, c.prefix);
    Append(Delete, c.removed, a);
    assert OldOf(b) == c.prefix + c.removed && NewOf(b) == c.prefix;
    Append(Insert, c.added, b);
    assert OldOf(d) == c.prefix + c.removed && NewOf(d) == c.prefix + c.added;
    Append(Equal, c.suffix, d);
  }

  lemma BlockScriptReplays<T>(local: seq<T>, upstream: seq<T>)
    ensures Replays(BlockScript(local, upstream), local, upstream)
    ensures var c := CutEnds(local, upstream);
            Cost(BlockScript(local, upstream)) == |c.removed| + |c.added|
  {
    CutSplits(local, upstream);
    BlockMeaning(CutEnds(local, upstream));
  }

  // ---- the printed text read back ---------------------------------------------------------

  lemma MarkedIsRendered(kind: Kind, lines: seq<string>)
    requires kind != Equal
    ensures Marked(if kind == Delete then '-' else '+', lines) == LineDiff.Rendered(Ops(kind, lines))
  {
  }

  lemma RenderedAppend(a: seq<Op<string>>, b: seq<Op<string>>)
    ensures LineDiff.Rendered(a + b) == LineDiff.Rendered(a) + LineDiff.Rendered(b)
  {
  }

  lemma OpsAreSingle(kind: Kind, lines: seq<string>)
    requires forall line | line in lines :: '\n' !in line
    ensures forall op | op in Ops(kind, lines) :: '\n' !in op.text
  {
  }

  /** The two blocks of the text, read line by line. */
  lemma BlocksReadBack(removed: seq<string>, added: seq<string>)
    requires forall line | line in removed :: '\n' !in line
    requires forall line | line in added :: '\n' !in line
    ensures LineDiff.ReadBody(Unlines(Marked('-', removed)) + Unlines(Marked('+', added)))
         == Ops(Delete, removed) + Ops(Insert, added)
  {
    var a, b := Ops(Delete, removed), Ops(Insert, added);
    MarkedIsRendered(Delete, removed);
    MarkedIsRendered(Insert, added);
    RenderedAppend(a, b);
    UnlinesAppend(LineDiff.Rendered(a), LineDiff.Rendered(b));
    OpsAreSingle(Delete, removed);
    OpsAreSingle(Insert, added);
    LineDiff.ReadRendered(a + b);
  }

  predicate ChangesAt(ops: seq<Op<string>>, d: nat) {
    && d <= |ops|
    && (forall k | 0 <= k < d :: ops[k].kind == Delete) && (forall k | d <= k < |ops| :: ops[k].kind == Insert)
  }

  /** Deletes, then inserts. */
  ghost predicate DeletesThenInserts(ops: seq<Op<string>>) { exists d :: ChangesAt(ops, d) }

  lemma BlocksAreOrdered(removed: seq<string>, added: seq<string>)
    ensures DeletesThenInserts(Ops(Delete, removed) + Ops(Insert, added))
  {
    assert ChangesAt(Ops(Delete, removed) + Ops(Insert, added), |removed|);
  }

  lemma AfterHead(head: string, a: string, b: string)
    ensures head <= head + a + b && (head + a + b)[|head|..] == a + b
  {
    Reassociate(head, a, b);
  }

  /** What the text shows between its ends. */
  lemma TextReadsBack(local: string, upstream: string)
    requires local != upstream
    ensures var text, c := DiffText(local, upstream), CutEnds(Split(local, '\n'), Split(upstream, '\n'));
            HEAD <= text && LineDiff.ReadBody(text[|HEAD|..]) == Ops(Delete, c.removed) + Ops(Insert, c.added)
  {
    var c := CutEnds(Split(local, '\n'), Split(upstream, '\n'));
    CutsAreSingle(local, upstream);
    BlocksReadBack(c.removed, c.added);
    AfterHead(HEAD, Unlines(Marked('-', c.removed)), Unlines(Marked('+', c.added)));
  }

  lemma CutsAreSingle(local: string, upstream: string)
    ensures var c := CutEnds(Split(local, '\n'), Split(upstream, '\n'));
            (forall line | line in c.removed :: '\n' !in line) && (forall line | line in c.added :: '\n' !in line)
  {
  }

  lemma MiddleReplays<T>(local: seq<T>, upstream: seq<T>)
    ensures var c := CutEnds(local, upstream);
            Replays(Ops(Equal, c.prefix) + (Ops(Delete, c.removed) + Ops(Insert, c.added)) + Ops(Equal, c.suffix),
                    local, upstream)
  {
    var c := CutEnds(local, upstream);
    BlockScriptReplays(local, upstream);
    Reassociate(Ops(Equal, c.prefix), Ops(Delete, c.removed), Ops(Insert, c.added));
  }

  /** The text of a diff is its header and lines that read back as deletes and then
      inserts; put between the first p and the last s lines, which both texts share,
      they turn the one into the other. */
  lemma TextIsAScript(local: string, upstream: string) returns (ops: seq<Op<string>>, p: nat, s: nat)
    requires local != upstream
    ensures var text := DiffText(local, upstream); HEAD <= text && LineDiff.ReadBody(text[|HEAD|..]) == ops
    ensures DeletesThenInserts(ops) && Between(Split(local, '\n'), ops, p, s, Split(upstream, '\n'))
  {
    TextReadsBack(local, upstream);
    ops, p, s := MiddleIsAScript(Split(local, '\n'), Split(upstream, '\n'));
  }

  /** Between the first p and the last s lines, which are shared, the operations turn
      the one list into the other. */
  ghost predicate Between(l: seq<string>, ops: seq<Op<string>>, p: nat, s: nat, u: seq<string>) {
    && p + s <= |l| && p + s <= |u| && l[..p] == u[..p] && l[|l| - s..] == u[|u| - s..]
    && Replays(Ops(Equal, l[..p]) + ops + Ops(Equal, l[|l| - s..]), l, u)
  }

  lemma MiddleIsAScript(l: seq<string>, u: seq<string>) returns (ops: seq<Op<string>>, p: nat, s: nat)
    ensures ops == Ops(Delete, CutEnds(l, u).removed) + Ops(Insert, CutEnds(l, u).added)
    ensures DeletesThenInserts(ops) && Between(l, ops, p, s, u)
  {
    ops := Ops(Delete, CutEnds(l, u).removed) + Ops(Insert, CutEnds(l, u).added);
    var c := CutEnds(l, u);
    p := PrefixLength(l, u);
    s := SuffixLength(l[p..], u[p..]);
    EndsAreShared(l, u);
    BlocksAreOrdered(c.removed, c.added);
    MiddleReplays(l, u);
  }

  /** The header of that text. */
  lemma HeadNamesBoth()
    ensures Split(HEAD, '\n') == ["--- cached"] + (["+++ upstream"] + [""])
  {
    HeadHalves();
    TwoLines("--- cached", "+++ upstream");
  }

  lemma TwoLines(a: string, b: string)
    requires '\n' !in a && '\n' !in b
    ensures Split(a + ['\n'] + (b + ['\n'] + ""), '\n') == [a] + ([b] + [""])
  {
    SplitCons(b, '\n', "");
    SplitCons(a, '\n', b + ['\n'] + "");
    assert Split("", '\n') == [""];
  }

  lemma HeadHalves()
    ensures HEAD == "--- cached" + ['\n'] + ("+++ upstream" + ['\n'] + "")
  {
  }

  lemma EndsAreShared<T>(local: seq<T>, upstream: seq<T>)
    ensures var p := PrefixLength(local, upstream);
            var s := SuffixLength(local[p..], upstream[p..]);
            && p + s <= |local| && p + s <= |upstream|
            && local[..p] == upstream[..p] && local[|local| - s..] == upstream[|upstream| - s..]
  {
    var p := PrefixLength(local, upstream);
    var l, u := local[p..], upstream[p..];
    PrefixAgrees(local, upstream, 0);
    AgreedSuffix(l, u);
    LastOfRest(local, p, l, SuffixLength(l, u));
    LastOfRest(upstream, p, u, SuffixLength(l, u));
  }

  /** The cheap diff is a shortest one exactly when the lines it removes and the
      lines it adds have nothing in common. */
  lemma BlockScriptIsCheapestIff<T>(local: seq<T>, upstream: seq<T>)
    ensures var c := CutEnds(local, upstream);
            (forall other | Replays(other, local, upstream) :: Cost(BlockScript(local, upstream)) <= Cost(other))
            <==> (forall line | line in c.removed :: line !in c.added)
  {
    var c := CutEnds(local, upstream);
    var block := BlockScript(local, upstream);
    CutSplits(local, upstream);
    CutKeepsLength(local, upstream);
    BlockScriptReplays(local, upstream);
    NothingShared(c.removed, c.added);
    if Length(c.removed, c.added) == 0 {
      forall other | Replays(other, local, upstream)
        ensures Cost(block) <= Cost(other)
      {
        CostBound(other, local, upstream);
      }
    } else {
      var best := Cheapest(local, upstream);
      assert Cost(best) < Cost(block);
    }
  }

  lemma Replaced<T>(before: seq<T>, after: seq<T>) returns (ops: seq<Op<T>>)
    ensures Replays(ops, before, after) && Cost(ops) == |before| + |after|
  {
    ops := Ops(Delete, before) + Ops(Insert, after);
    OpsMeaning(Delete, before);
    Append(Insert, after, Ops(Delete, before));
  }

  /** A script that meets the bound of `CostBound`. */
  lemma {:induction false} Cheapest<T>(before: seq<T>, after: seq<T>) returns (ops: seq<Op<T>>)
    ensures Replays(ops, before, after)
    ensures Cost(ops) == |before| + |after| - 2 * Length(before, after)
    decreases |before| + |after|
  {
    if before == [] || after == [] {
      ops := Replaced(before, after);
    } else if before[0] == after[0] {
      var rest := Cheapest(before[1..], after[1..]);
      ops := Prefixed(Op(Equal, before[0]), rest);
    } else if Length(before[1..], after) >= Length(before, after[1..]) {
      var rest := Cheapest(before[1..], after);
      ops := Prefixed(Op(Delete, before[0]), rest);
    } else {
      var rest := Cheapest(before, after[1..]);
      ops := Prefixed(Op(Insert, after[0]), rest);
    }
  }

  lemma Prefixed<T>(op: Op<T>, rest: seq<Op<T>>) returns (ops: seq<Op<T>>)
    ensures OldOf(ops) == (if op.kind.Insert? then [] else [op.text]) + OldOf(rest)
    ensures NewOf(ops) == (if op.kind.Delete? then [] else [op.text]) + NewOf(rest)
    ensures Cost(ops) == (if op.kind.Equal? then 0 else 1) + Cost(rest)
  {
    ops := [op] + rest;
    assert ops[1..] == rest;
  }

  /** `DiffExact` says "up to date" for equal texts and for no others. */
  lemma UpToDateIff(local: string, upstream: string)
    ensures DiffText(local, upstream) == UP_TO_DATE <==> local == upstream
  {
    if local != upstream {
      assert DiffText(local, upstream)[0] == '-';
      assert UP_TO_DATE[0] == 't';
    }
  }

  /** `Diff`, which does not look at newlines at the end. */
  method Diff(local: string, upstream: string) returns (text: string)
    ensures text == DiffText(TrimRight(IsNewline, local), TrimRight(IsNewline, upstream))
  {
    text := DiffLines(TrimRight(IsNewline, local), TrimRight(IsNewline, upstream));
  }

  /** One text followed by two numbers of newlines. */
  predicate SameButNewlines(local: string, upstream: string, core: string, v: string, w: string) {
    AllBlank(IsNewline, v) && AllBlank(IsNewline, w) && local == core + v && upstream == core + w
  }

  lemma TrimRightSplits(s: string)
    ensures var core := TrimRight(IsNewline, s); s == core + s[|core|..] && AllBlank(IsNewline, s[|core|..])
  {
  }

  lemma TrimRightTail(core: string, v: string)
    requires AllBlank(IsNewline, v)
    ensures TrimRight(IsNewline, core + v) == TrimRight(IsNewline, core)
  {
    var short := TrimRight(IsNewline, core);
    TrimRightSplits(core);
    Reassociate(short, core[|short|..], v);
    TrimRightStops(IsNewline, short, core[|short|..] + v);
  }

  /** `Diff` says "up to date" exactly for texts that differ in newlines at the end
      or not at all. */
  lemma DiffUpToDateIff(local: string, upstream: string)
    ensures DiffText(TrimRight(IsNewline, local), TrimRight(IsNewline, upstream)) == UP_TO_DATE
       <==> exists core, v, w :: SameButNewlines(local, upstream, core, v, w)
  {
    var l, u := TrimRight(IsNewline, local), TrimRight(IsNewline, upstream);
    UpToDateIff(l, u);
    TrimRightSplits(local);
    TrimRightSplits(upstream);
    if l == u {
      assert SameButNewlines(local, upstream, l, local[|l|..], upstream[|l|..]);
    }
    if core, v, w :| SameButNewlines(local, upstream, core, v, w) {
      TrimRightTail(core, v);
      TrimRightTail(core, w);
    }
  }

  /** Different texts always show at least one line. */
  lemma ShowsADifference(local: string, upstream: string)
    requires local != upstream
    ensures var c := CutEnds(Split(local, '\n'), Split(upstream, '\n'));
            c.removed != [] || c.added != []
  {
    CutSplits(Split(local, '\n'), Split(upstream, '\n'));
    JoinSplit(local, '\n');
    JoinSplit(upstream, '\n');
  }
}
