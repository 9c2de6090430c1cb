/** The artifact line diff: a longest-common-subsequence table filled backwards,
    a greedy walk over it, and the text the walk is rendered to. */
module LineDiff {
  import opened Lcs
  import opened Text

  /** The script the walk produces. Ties between dropping an old line and adding
      a new one are settled for the old line. */
  function Script<T(==)>(before: seq<T>, after: seq<T>): seq<Op<T>>
    decreases |before| + |after|
  {
    if before == [] && after == [] then []
    else if before == [] then [Op(Insert, after[0])] + Script(before, after[1..])
    else if after == [] then [Op(Delete, before[0])] + Script(before[1..], after)
    else if before[0] == after[0] then [Op(Equal, before[0])] + Script(before[1..], after[1..])
    else if Length(before[1..], after) >= Length(before, after[1..]) then
      [Op(Delete, before[0])] + Script(before[1..], after)
    else [Op(Insert, after[0])] + Script(before, after[1..])
  }

  /** What the walk has emitted at (i, j), completed by the script for the rest. */
  ghost predicate Walked<T>(before: seq<T>, after: seq<T>, i: nat, j: nat, ops: seq<Op<T>>) {
    && i <= |before| && j <= |after|
    && ops + Script(before[i..], after[j..]) == Script(before, after)
  }

  lemma WalkStep<T>(before: seq<T>, after: seq<T>, i: nat, j: nat, ops: seq<Op<T>>)
    requires i < |before| && j < |after| && Walked(before, after, i, j, ops)
    ensures before[i] == after[j] ==>
              Walked(before, after, i + 1, j + 1, ops + [Op(Equal, before[i])])
    ensures before[i] != after[j] && Length(before[i + 1..], after[j..]) >= Length(before[i..], after[j + 1..]) ==>
              Walked(before, after, i + 1, j, ops + [Op(Delete, before[i])])
    ensures before[i] != after[j] && Length(before[i + 1..], after[j..]) < Length(before[i..], after[j + 1..]) ==>
              Walked(before, after, i, j + 1, ops + [Op(Insert, after[j])])
  {
    assert before[i..][1..] == before[i + 1..] && after[j..][1..] == after[j + 1..];
  }

  lemma WalkTail<T>(before: seq<T>, after: seq<T>, i: nat, j: nat, ops: seq<Op<T>>)
    requires Walked(before, after, i, j, ops)
    ensures i < |before| && j == |after| ==> Walked(before, after, i + 1, j, ops + [Op(Delete, before[i])])
    ensures i == |before| && j < |after| ==> Walked(before, after, i, j + 1, ops + [Op(Insert, after[j])])
  {
    if i < |before| && j == |after| {
      assert before[i..][1..] == before[i + 1..];
    }
    if i == |before| && j < |after| {
      assert after[j..][1..] == after[j + 1..];
    }
  }

  /** `diffLines`. */
  method DiffLines<T(==)>(before: seq<T>, after: seq<T>) returns (ops: seq<Op<T>>)
    ensures ops == Script(before, after)
  {
    var table := FillTable(before, after);
    ops := [];
    var i, j := 0, 0;
    while i < |before| && j < |after|
      invariant 0 <= i <= |before| && 0 <= j <= |after|
      invariant Walked(before, after, i, j, ops)
      invariant Filled(table, before, after)
    {
      assert table[i + 1, j] == Length(before[i + 1..], after[j..]);
      assert table[i, j + 1] == Length(before[i..], after[j + 1..]);
      WalkStep(before, after, i, j, ops);
      if before[i] == after[j] {
        ops := ops + [Op(Equal, before[i])];
        i := i + 1;
        j := j + 1;
      } else if table[i + 1, j] >= table[i, j + 1] {
        ops := ops + [Op(Delete, before[i])];
        i := i + 1;
      } else {
        ops := ops + [Op(Insert, after[j])];
        j := j + 1;
      }
    }
    while i < |before|
      invariant 0 <= i <= |before| && 0 <= j <= |after|
      invariant i == |before| || j == |after|
      invariant Walked(before, after, i, j, ops)
    {
      WalkTail(before, after, i, j, ops);
      ops := ops + [Op(Delete, before[i])];
      i := i + 1;
    }
    while j < |after|
      invariant i == |before| && 0 <= j <= |after|
      invariant Walked(before, after, i, j, ops)
    {
      WalkTail(before, after, i, j, ops);
      ops := ops + [Op(Insert, after[j])];
      j := j + 1;
    }
    assert ops + [] == ops;
  }

  /** Cell (i, j) holds the length of a longest common subsequence of what remains
      from line i of the old and line j of the new list. */
  ghost predicate Filled<T>(table: array2<nat>, before: seq<T>, after: seq<T>)
    reads table
  {
    && table.Length0 == |before| + 1 && table.Length1 == |after| + 1
    && forall i, j | 0 <= i <= |before| && 0 <= j <= |after| ::
         table[i, j] == Length(before[i..], after[j..])
  }

  /** The table fill of `diffLines`, last row and last column first. */
  method FillTable<T(==)>(before: seq<T>, after: seq<T>) returns (table: array2<nat>)
    ensures Filled(table, before, after)
  {
    table := new nat[|before| + 1, |after| + 1]((i, j) => 0);
    for i := |before| downto 0
      invariant forall p, q | i <= p <= |before| && 0 <= q <= |after| ::
                  table[p, q] == Length(before[p..], after[q..])
      invariant forall p | 0 <= p < i :: table[p, |after|] == 0
    {
      for j := |after| downto 0
        invariant forall p, q | i < p <= |before| && 0 <= q <= |after| ::
                    table[p, q] == Length(before[p..], after[q..])
        invariant forall p | 0 <= p < i :: table[p, |after|] == 0
        invariant forall q | j <= q <= |after| :: table[i, q] == Length(before[i..], after[q..])
      {
        assert before[i..][1..] == before[i + 1..] && after[j..][1..] == after[j + 1..];
        if before[i] == after[j] {
          table[i, j] := table[i + 1, j + 1] + 1;
        } else if table[i + 1, j] >= table[i, j + 1] {
          table[i, j] := table[i + 1, j];
        } else {
          table[i, j] := table[i, j + 1];
        }
      }
    }
  }

  /** The script turns the old list into the new one and keeps a longest common
      subsequence. */
  lemma {:induction false} ScriptReplays<T>(before: seq<T>, after: seq<T>)
    ensures Replays(Script(before, after), before, after)
    ensures |Kept(Script(before, after))| == Length(before, after)
    decreases |before| + |after|
  {
    if before == [] && after == [] {
    } else if before == [] {
      ScriptReplays(before, after[1..]);
    } else if after == [] {
      ScriptReplays(before[1..], after);
    } else if before[0] == after[0] {
      ScriptReplays(before[1..], after[1..]);
    } else if Length(before[1..], after) >= Length(before, after[1..]) {
      ScriptReplays(before[1..], after);
    } else {
      ScriptReplays(before, after[1..]);
    }
  }

  /** No script between the same two lists deletes and inserts fewer lines. */
  lemma ScriptIsCheapest<T>(before: seq<T>, after: seq<T>, other: seq<Op<T>>)
    requires Replays(other, before, after)
    ensures Cost(Script(before, after)) <= Cost(other)
  {
    ScriptReplays(before, after);
    KeptIsCommon(Script(before, after));
    CostBound(other, before, after);
  }

  ghost predicate InsertThenDelete<T>(ops: seq<Op<T>>, k: nat) {
    k + 1 < |ops| && ops[k].kind == Insert && ops[k + 1].kind == Delete
  }

  /** Within a changed block every deletion comes before every insertion. */
  lemma {:induction false} DeletesComeFirst<T>(before: seq<T>, after: seq<T>)
    ensures forall k: nat :: !InsertThenDelete(Script(before, after), k)
    decreases |before| + |after|
  {
    var ops := Script(before, after);
    if ops != [] {
      assert ops[1..] == NextScript(before, after).2;
      var (b, a, rest) := NextScript(before, after);
      DeletesComeFirst(b, a);
      assert !InsertThenDelete(ops, 0) by {
        if ops[0].kind == Insert && before != [] {
          InsertStays(before, after);
        }
      }
      forall k: nat
        ensures !InsertThenDelete(ops, k)
      {
        if k > 0 {
          assert !InsertThenDelete(rest, k - 1);
        }
      }
    }
  }

  /** What is left after the script's first operation. */
  ghost function NextScript<T>(before: seq<T>, after: seq<T>): (r: (seq<T>, seq<T>, seq<Op<T>>))
    requires before != [] || after != []
    ensures r.2 == Script(r.0, r.1) == Script(before, after)[1..]
    ensures |r.0| + |r.1| < |before| + |after|
  {
    match Script(before, after)[0].kind
    case Equal => (before[1..], after[1..], Script(before[1..], after[1..]))
    case Delete => (before[1..], after, Script(before[1..], after))
    case Insert => (before, after[1..], Script(before, after[1..]))
  }

  lemma {:induction false} LengthMonotone<T>(before: seq<T>, after: seq<T>)
    requires after != []
    ensures Length(before, after[1..]) <= Length(before, after)
  {
    var w := Witness(before, after[1..]);
    SubseqWeaken(w, after);
    UpperBound(w, before, after);
  }

  /** After an insertion the walk inserts on, or reaches an equal line. */
  lemma InsertStays<T>(before: seq<T>, after: seq<T>)
    requires before != [] && after != []
    requires before[0] != after[0]
    requires Length(before[1..], after) < Length(before, after[1..])
    ensures after[1..] != []
    ensures Script(before, after[1..])[0].kind != Delete
  {
    LengthMonotone(before[1..], after);
  }

  // ---- the rendered diff ----------------------------------------------------

  /** `splitLines`. */
  function SplitLines(content: string): (lines: seq<string>)
    ensures forall l | l in lines :: '\n' !in l
  {
    var normalized := NormalizeNewlines(content);
    var text := if normalized != [] && normalized[|normalized| - 1] == '\n'
                then normalized[..|normalized| - 1] else normalized;
    if text == [] then [] else Split(text, '\n')
  }

  function Mark(kind: Kind): char {
    match kind case Equal => ' ' case Delete => '-' case Insert => '+'
  }

  function Header(oldName: string, newName: string): string {
    "--- " + (if TrimSpace(oldName) == "" then "a" else oldName) + "\n" +
    "+++ " + (if TrimSpace(newName) == "" then "b" else newName) + "\n"
  }

  function Rendered(ops: seq<Op<string>>): (lines: seq<string>)
    ensures |lines| == |ops|
    ensures forall k | 0 <= k < |ops| :: lines[k] == [Mark(ops[k].kind)] + ops[k].text
  {
    seq(|ops|, k requires 0 <= k < |ops| => [Mark(ops[k].kind)] + ops[k].text)
  }

  function Body(ops: seq<Op<string>>): string {
    Unlines(Rendered(ops))
  }

  lemma BodyStep(ops: seq<Op<string>>, k: nat)
    requires k < |ops|
    ensures Body(ops[..k + 1]) == Body(ops[..k]) + ([Mark(ops[k].kind)] + ops[k].text) + "\n"
  {
    var line := [Mark(ops[k].kind)] + ops[k].text;
    assert Rendered(ops[..k + 1]) == Rendered(ops[..k]) + [line];
    UnlinesSnoc(Rendered(ops[..k]), line);
  }

  /** `TextDriver.Diff`. */
  method Diff(oldName: string, newName: string, oldContent: string, newContent: string) returns (out: string)
    ensures out == Header(oldName, newName) + Body(Script(SplitLines(oldContent), SplitLines(newContent)))
  {
    var ops := DiffLines(SplitLines(oldContent), SplitLines(newContent));
    var body := "";
    for k := 0 to |ops|
      invariant body == Body(ops[..k])
    {
      BodyStep(ops, k);
      body := body + ([Mark(ops[k].kind)] + ops[k].text) + "\n";
    }
    assert ops[..|ops|] == ops;
    out := Header(oldName, newName) + body;
  }

  /** Reading a rendered line back: its mark, then its text. */
  function ReadLine(line: string): Op<string> {
    if line == [] then Op(Equal, line)
    else Op(if line[0] == '-' then Delete else if line[0] == '+' then Insert else Equal, line[1..])
  }

  function ReadBody(body: string): seq<Op<string>> {
    var lines := Split(body, '\n');
    seq(|lines| - 1, k requires 0 <= k < |lines| - 1 => ReadLine(lines[k]))
  }

  lemma RenderedLinesAreSingle(ops: seq<Op<string>>)
    requires forall op | op in ops :: '\n' !in op.text
    ensures forall l | l in Rendered(ops) :: '\n' !in l
  {
    forall k | 0 <= k < |ops|
      ensures '\n' !in Rendered(ops)[k]
    {
      assert ops[k] in ops;
    }
  }

  lemma ReadMarked(op: Op<string>)
    ensures ReadLine([Mark(op.kind)] + op.text) == op
  {
    assert ([Mark(op.kind)] + op.text)[1..] == op.text;
  }

  lemma ReadRendered(ops: seq<Op<string>>)
    requires forall op | op in ops :: '\n' !in op.text
    ensures ReadBody(Body(ops)) == ops
  {
    var lines := Rendered(ops);
    RenderedLinesAreSingle(ops);
    SplitUnlines(lines, []);
    assert Body(ops) + [] == Body(ops);
    assert |Split(Body(ops), '\n')| == |lines| + 1;
    forall k | 0 <= k < |ops|
      ensures ReadLine(lines[k]) == ops[k]
    {
      ReadMarked(ops[k]);
    }
  }

  lemma {:induction false} ScriptTexts<T>(before: seq<T>, after: seq<T>)
    ensures forall op | op in Script(before, after) :: op.text in before || op.text in after
    decreases |before| + |after|
  {
    if before != [] || after != [] {
      var (b, a, rest) := NextScript(before, after);
      ScriptTexts(b, a);
    }
  }

  lemma HeaderSplits(first: string, second: string, body: string)
    requires '\n' !in first && '\n' !in second
    ensures Split("--- " + first + "\n" + "+++ " + second + "\n" + body, '\n')
         == ["--- " + first] + (["+++ " + second] + Split(body, '\n'))
  {
    var a, b := "--- " + first, "+++ " + second;
    assert "--- " + first + "\n" + "+++ " + second + "\n" + body == a + ['\n'] + (b + ['\n'] + body);
    SplitCons(a, '\n', b + ['\n'] + body);
    SplitCons(b, '\n', body);
  }

  /** What a diff calls a side: its name, or a letter for a blank one. */
  function Called(name: string, letter: string): string { if AllBlank(IsSpace, name) then letter else name }

  /** The first two lines of a diff name the old and then the new side; the rest is
      the body. */
  lemma HeaderNamesBoth(oldName: string, newName: string, body: string)
    requires '\n' !in oldName && '\n' !in newName
    ensures Split(Header(oldName, newName) + body, '\n')
         == ["--- " + Called(oldName, "a")] + (["+++ " + Called(newName, "b")] + Split(body, '\n'))
  {
    TrimIsEmptyIff(IsSpace, oldName);
    TrimIsEmptyIff(IsSpace, newName);
    HeaderSplits(Called(oldName, "a"), Called(newName, "b"), body);
  }

  /** The text after the header is the whole edit script: read back alone, it
      gives the lines of both contents, at the least possible cost. */
  lemma DiffTextIsAScript(oldContent: string, newContent: string)
    ensures var oldLines, newLines := SplitLines(oldContent), SplitLines(newContent);
            var ops := ReadBody(Body(Script(oldLines, newLines)));
            && Replays(ops, oldLines, newLines)
            && forall other | Replays(other, oldLines, newLines) :: Cost(ops) <= Cost(other)
  {
    var oldLines, newLines := SplitLines(oldContent), SplitLines(newContent);
    var ops := Script(oldLines, newLines);
    ScriptTexts(oldLines, newLines);
    ReadRendered(ops);
    ScriptReplays(oldLines, newLines);
    forall other | Replays(other, oldLines, newLines)
      ensures Cost(ops) <= Cost(other)
    {
      ScriptIsCheapest(oldLines, newLines, other);
    }
  }

  /** The lines carry the whole content, up to line-ending style and the final
      newline. */
  lemma SplitLinesKeepsContent(content: string)
    ensures var normalized := NormalizeNewlines(content);
            var joined := Join(SplitLines(content), '\n');
            joined == normalized || joined + "\n" == normalized
  {
    var normalized := NormalizeNewlines(content);
    if normalized != [] && normalized[|normalized| - 1] == '\n' {
      var text := normalized[..|normalized| - 1];
      assert text + "\n" == normalized;
      if text != [] {
        JoinSplit(text, '\n');
      }
    } else if normalized != [] {
      JoinSplit(normalized, '\n');
    }
  }

  /** Nothing, and a newline alone, have no lines at all. */
  lemma NoLinesIff(content: string)
    ensures SplitLines(content) == [] <==> NormalizeNewlines(content) == "" || NormalizeNewlines(content) == "\n"
  {
    var normalized := NormalizeNewlines(content);
    if normalized != [] && normalized[|normalized| - 1] == '\n' {
      OnlyNewlineIff(normalized);
    }
  }

  lemma OnlyNewlineIff(s: string)
    requires s != [] && s[|s| - 1] == '\n'
    ensures s[..|s| - 1] == [] <==> s == "\n"
  {
    assert s == s[..|s| - 1] + "\n";
  }
}
