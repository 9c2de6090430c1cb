/** Template frontmatter: writing it and splitting it off again. */
module Frontmatter {
  import opened Text

  datatype Error = Empty | Unopened | Unclosed

  datatype Result<+T> = Ok(value: T) | Err(error: Error)

  const MARK := "---"

  predicate IsMark(line: string) { TrimSpace(line) == MARK }

  // ---- splitting ---------------------------------------------------------------------

  /** The first closing mark from line i on; the number of lines if there is none. */
  function CloseFrom(lines: seq<string>, i: nat): (k: nat)
    requires i <= |lines|
    ensures i <= k <= |lines|
    ensures k < |lines| ==> IsMark(lines[k])
    ensures forall j | i <= j < k :: !IsMark(lines[j])
    decreases |lines| - i
  {
    if i == |lines| || IsMark(lines[i]) then i else CloseFrom(lines, i + 1)
  }

  function BodyFrom(lines: seq<string>, k: nat): string
    requires k <= |lines|
  {
    TrimLeft(IsNewline, Join(lines[k..], '\n'))
  }

  /** The header and the body. */
  function SplitLines(lines: seq<string>): Result<(string, string)> {
    if |lines| < 3 || !IsMark(lines[0]) then Err(Unopened)
    else
      var k := CloseFrom(lines, 1);
      if k == |lines| then Err(Unclosed) else Ok((Join(lines[1..k], '\n'), BodyFrom(lines, k + 1)))
  }

  function SplitText(content: string): Result<(string, string)> {
    var text := TrimSpace(NormalizeNewlines(content));
    if text == "" then Err(Empty) else SplitLines(Split(text, '\n'))
  }

  method SplitFrontmatter(content: string) returns (r: Result<(string, string)>)
    ensures r == SplitText(content)
  {
    var text := TrimSpace(NormalizeNewlines(content));
    if text == "" {
      return Err(Empty);
    }
    r := FindClose(Split(text, '\n'));
  }

  /** `splitFrontmatter`, once the text is split into lines. */
  method FindClose(lines: seq<string>) returns (r: Result<(string, string)>)
    ensures r == SplitLines(lines)
  {
    if |lines| < 3 || !IsMark(lines[0]) {
      return Err(Unopened);
    }
    for index := 1 to |lines|
      invariant CloseFrom(lines, index) == CloseFrom(lines, 1)
    {
      if !IsMark(lines[index]) {
        continue;
      }
      return Ok((Join(lines[1..index], '\n'), TrimLeft(IsNewline, Join(lines[index + 1..], '\n'))));
    }
    return Err(Unclosed);
  }

  /** When splitting fails, and with which error: nothing but blanks; no mark at the
      start, or fewer than three lines; no second mark. */
  lemma SplitFailsIff(content: string)
    ensures var text := TrimSpace(NormalizeNewlines(content));
            var lines := Split(text, '\n');
            var marked := |lines| >= 3 && IsMark(lines[0]);
            && (SplitText(content) == Err(Empty) <==> AllBlank(IsSpace, NormalizeNewlines(content)))
            && (SplitText(content) == Err(Unopened) <==> text != "" && !marked)
            && (SplitText(content) == Err(Unclosed) <==>
                  text != "" && marked && forall k | 1 <= k < |lines| :: !IsMark(lines[k]))
  {
    TrimIsEmptyIff(IsSpace, NormalizeNewlines(content));
  }

  lemma {:induction false} ClosesAt(lines: seq<string>, i: nat, k: nat)
    requires i <= k < |lines| && IsMark(lines[k]) && forall j | i <= j < k :: !IsMark(lines[j])
    ensures CloseFrom(lines, i) == k
    decreases k - i
  {
    if i < k {
      ClosesAt(lines, i + 1, k);
    }
  }

  predicate SingleLines(lines: seq<string>) { forall l | l in lines :: '\n' !in l }

  lemma MarkedLinesSplit(lines: seq<string>, header: seq<string>, body: seq<string>)
    requires |lines| >= 3 && |header| + 2 <= |lines| && IsMark(lines[0]) && IsMark(lines[|header| + 1])
    requires lines[1..|header| + 1] == header && lines[|header| + 2..] == body
    requires forall l | l in header :: !IsMark(l)
    ensures SplitLines(lines) == Ok((Join(header, '\n'), TrimLeft(IsNewline, Join(body, '\n'))))
  {
    forall j | 1 <= j < |header| + 1
      ensures !IsMark(lines[j])
    {
      assert lines[j] == header[j - 1] && header[j - 1] in header;
    }
    ClosesAt(lines, 1, |header| + 1);
  }

  /** Any text of a mark, header lines that are no marks, another mark and body lines:
      the header comes back, and the body without the newlines it starts with. */
  lemma SplitsAtMarks(content: string, first: string, header: seq<string>, second: string, body: seq<string>)
    requires IsMark(first) && IsMark(second) && header + body != []
    requires (forall l | l in header :: !IsMark(l)) && SingleLines([first] + header + [second] + body)
    requires TrimSpace(NormalizeNewlines(content)) == Join([first] + header + [second] + body, '\n')
    ensures var r := SplitText(content);
            && r.Ok? && r.value.0 == Join(header, '\n')
            && (r.value.1 == "" || r.value.1[0] != '\n')
            && exists w :: AllBlank(IsNewline, w) && Join(body, '\n') == w + r.value.1
  {
    var lines := [first] + header + [second] + body;
    SplitsLines(content, lines);
    MarkedLines(first, header, second, body);
    MarkedLinesSplit(lines, header, body);
    LeadingNewlines(Join(body, '\n'));
  }

  lemma SplitsLines(content: string, lines: seq<string>)
    requires |lines| > 1 && SingleLines(lines) && TrimSpace(NormalizeNewlines(content)) == Join(lines, '\n')
    ensures SplitText(content) == SplitLines(lines)
  {
    SplitJoin(lines, '\n');
    LinesAreNotEmpty(lines);
  }

  lemma MarkedLines(first: string, header: seq<string>, second: string, body: seq<string>)
    ensures var lines := [first] + header + [second] + body;
            && |lines| == |header| + |body| + 2 && lines[0] == first && lines[|header| + 1] == second
            && lines[1..|header| + 1] == header && lines[|header| + 2..] == body
  {
  }

  lemma LinesAreNotEmpty(lines: seq<string>)
    requires |lines| > 1
    ensures Join(lines, '\n') != ""
  {
  }

  lemma LeadingNewlines(s: string)
    ensures exists w :: AllBlank(IsNewline, w) && s == w + TrimLeft(IsNewline, s)
  {
    var w := s[..Leading(IsNewline, s, 0)];
    assert AllBlank(IsNewline, w) && s == w + TrimLeft(IsNewline, s);
  }

  // ---- what a framed header and body split into -----------------------------------------

  /** A header between marks, a blank line, and the trimmed body. */
  function Frame(header: string, body: string): string {
    MARK + "\n" + header + MARK + "\n\n" + TrimSpace(body) + "\n"
  }

  /** The lines of the framed text once it is trimmed. */
  function FrameLines(lines: seq<string>, body: string): seq<string> {
    [MARK] + lines + [MARK] + (if body == "" then [] else [""] + Split(body, '\n'))
  }

  lemma MarkIsMark()
    ensures IsMark(MARK) && '\n' !in MARK && !IsSpace(MARK[0]) && !IsSpace(MARK[|MARK| - 1])
  {
    TrimTrimmed(IsSpace, MARK);
  }

  /** Text between two solid ends is only trimmed of the blanks around it. */
  lemma TrimsAfter(a: string, last: string, blanks: string)
    requires Trimmed(IsSpace, last) && last != "" && AllBlank(IsSpace, blanks)
    requires a != "" && !IsSpace(a[0])
    ensures TrimSpace(a + last + blanks) == a + last
  {
    var s := a + last;
    assert s[0] == a[0] && s[|s| - 1] == last[|last| - 1];
    assert [] + s + blanks == s + blanks;
    TrimPadded(IsSpace, [], s, blanks);
  }

  lemma FrameTrims(header: string, body: string)
    ensures TrimSpace(Frame(header, body))
         == if TrimSpace(body) == "" then MARK + "\n" + header + MARK
            else MARK + "\n" + header + MARK + "\n\n" + TrimSpace(body)
  {
    MarkIsMark();
    var a, b := MARK + "\n" + header, TrimSpace(body);
    assert a[0] == MARK[0];
    if b == "" {
      var blanks := "\n\n" + b + "\n";
      assert a + MARK + blanks == Frame(header, body);
      TrimsAfter(a, MARK, blanks);
    } else {
      TrimsAfter(a + MARK + "\n\n", b, "\n");
      assert Trimmed(IsSpace, b);
    }
  }

  lemma UnlinesMarked(lines: seq<string>)
    ensures Unlines([MARK] + lines) == MARK + "\n" + Unlines(lines)
    ensures Unlines([MARK] + lines + [MARK, ""]) == MARK + "\n" + Unlines(lines) + MARK + "\n\n"
  {
    assert ([MARK] + lines)[1..] == lines;
    UnlinesAppend([MARK] + lines, [MARK, ""]);
    assert [MARK, ""][1..] == [""] && [""][1..] == [];
    assert Unlines([""]) == "\n" && Unlines([MARK, ""]) == MARK + "\n" + "\n";
  }

  lemma FrameSplitsEmpty(lines: seq<string>)
    requires SingleLines(lines)
    ensures Split(MARK + "\n" + Unlines(lines) + MARK, '\n') == FrameLines(lines, "")
  {
    MarkIsMark();
    UnlinesMarked(lines);
    SplitUnlines([MARK] + lines, MARK);
    assert Split(MARK, '\n') == [MARK];
    assert FrameLines(lines, "") == [MARK] + lines + [MARK];
  }

  lemma FrameSplitsFull(lines: seq<string>, body: string)
    requires SingleLines(lines) && body != ""
    ensures Split(MARK + "\n" + Unlines(lines) + MARK + "\n\n" + body, '\n') == FrameLines(lines, body)
  {
    var all := [MARK] + lines + [MARK, ""];
    assert FrameLines(lines, body) == all + Split(body, '\n');
    MarkIsMark();
    UnlinesMarked(lines);
    SplitUnlines(all, body);
  }

  lemma FrameSplits(lines: seq<string>, body: string)
    requires SingleLines(lines)
    ensures Split(TrimSpace(Frame(Unlines(lines), body)), '\n') == FrameLines(lines, TrimSpace(body))
    ensures TrimSpace(Frame(Unlines(lines), body)) != ""
  {
    FrameTrims(Unlines(lines), body);
    if TrimSpace(body) == "" {
      FrameSplitsEmpty(lines);
    } else {
      FrameSplitsFull(lines, TrimSpace(body));
    }
  }

  lemma BodyReturns(lines: seq<string>, body: string)
    requires Trimmed(IsSpace, body)
    ensures BodyFrom(FrameLines(lines, body), |lines| + 2) == body
  {
    var all := FrameLines(lines, body);
    if body == "" {
      assert all[|lines| + 2..] == [];
    } else {
      var parts := Split(body, '\n');
      assert all[|lines| + 2..] == [""] + parts;
      assert ([""] + parts)[1..] == parts;
      JoinSplit(body, '\n');
      assert Join([""] + parts, '\n') == "" + ['\n'] + body == "\n" + body;
      TrimLeftStops(IsNewline, "\n", body);
    }
  }

  lemma {:induction false} JoinGrows(a: seq<string>, b: seq<string>)
    requires b != [] && (a == [] ==> Join(b, '\n') != "")
    ensures |Join(a + b, '\n')| > |Join(a, '\n')|
    decreases |a|
  {
    if a == [] {
      assert a + b == b;
    } else {
      assert (a + b)[1..] == a[1..] + b;
      if |a| > 1 {
        JoinGrows(a[1..], b);
      }
    }
  }

  /** The exact condition: the header and the trimmed body come back, whatever the
      body holds, if and only if no header line is itself a mark. */
  lemma FrameReturnsIff(lines: seq<string>, body: string)
    requires lines != [] && SingleLines(lines)
    requires '\r' !in Frame(Unlines(lines), body)
    ensures SplitText(Frame(Unlines(lines), body)) == Ok((Join(lines, '\n'), TrimSpace(body)))
       <==> forall l | l in lines :: !IsMark(l)
  {
    NormalizeCrFree(Frame(Unlines(lines), body));
    FrameSplits(lines, body);
    LinesReturnIff(lines, TrimSpace(body));
  }

  lemma MarkIsNotEmpty(line: string)
    requires IsMark(line)
    ensures line != ""
  {
    assert |TrimSpace(line)| <= |line|;
  }

  lemma FrameParts(lines: seq<string>, body: string, k: nat)
    requires k <= |lines|
    ensures var all := FrameLines(lines, body);
            && |all| >= |lines| + 2 && all[0] == MARK && all[|lines| + 1] == MARK
            && all[1..k + 1] == lines[..k] && (k < |lines| ==> all[k + 1] == lines[k])
  {
  }

  lemma FindsClose(lines: seq<string>, body: string)
    ensures var k := CloseFrom(FrameLines(lines, body), 1);
            && k <= |lines| + 1
            && (k == |lines| + 1 <==> forall l | l in lines :: !IsMark(l))
            && (k <= |lines| ==> IsMark(lines[k - 1]))
  {
    var all := FrameLines(lines, body);
    var k := CloseFrom(all, 1);
    MarkIsMark();
    FrameParts(lines, body, |lines|);
    forall j | 0 <= j < |lines|
      ensures all[j + 1] == lines[j]
    {
      FrameParts(lines, body, j);
    }
    if k == |lines| + 1 {
      forall l | l in lines
        ensures !IsMark(l)
      {
        var j :| 0 <= j < |lines| && lines[j] == l;
        assert !IsMark(all[j + 1]);
      }
    } else {
      assert lines[k - 1] in lines;
    }
  }

  lemma LinesReturnIff(lines: seq<string>, body: string)
    requires lines != [] && Trimmed(IsSpace, body)
    ensures SplitLines(FrameLines(lines, body)) == Ok((Join(lines, '\n'), body))
       <==> forall l | l in lines :: !IsMark(l)
  {
    var k := CloseFrom(FrameLines(lines, body), 1);
    FindsClose(lines, body);
    FrameParts(lines, body, k - 1);
    MarkIsMark();
    if k == |lines| + 1 {
      BodyReturns(lines, body);
      assert lines[..|lines|] == lines;
    } else {
      ClosesEarly(lines, k - 1);
    }
  }

  lemma ClosesEarly(lines: seq<string>, k: nat)
    requires k < |lines| && IsMark(lines[k])
    ensures Join(lines[..k], '\n') != Join(lines, '\n')
  {
    assert lines == lines[..k] + lines[k..];
    if k == 0 {
      MarkIsNotEmpty(lines[k]);
      assert Join(lines[k..], '\n') != "";
    }
    JoinGrows(lines[..k], lines[k..]);
  }
}
