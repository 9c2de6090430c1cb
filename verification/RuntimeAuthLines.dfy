/** What the parsers of a runtime-auth file accept, told by the parts of a line and
    the lines of the file, without a scan. */
module RuntimeAuthLines {
  import opened Basics
  import opened Text
  import opened RuntimeAuth

  // ---- values --------------------------------------------------------------------------

  lemma {:induction false} AsciiBytes(v: string)
    requires forall c | c in v :: '!' <= c <= '~'
    ensures Bytes(v) == |v|
    decreases |v|
  {
    if v != "" {
      assert v[0] in v && forall c | c in v[1..] :: c in v;
      AsciiBytes(v[1..]);
    }
  }

  lemma {:induction false} BytesAtLeast(v: string)
    ensures |v| <= Bytes(v) <= 4 * |v|
    decreases |v|
  {
    if v != "" {
      BytesAtLeast(v[1..]);
    }
  }

  /** A token of visible ASCII characters is valid when it is 16 to 4096 characters
      long; no value with a blank or a NUL in it is, and none of more than 4096 or
      fewer than four characters. */
  lemma TokenIsValidIff(v: string)
    ensures (forall c | c in v :: '!' <= c <= '~') ==> (ValidValue(v) <==> 16 <= |v| <= 4096)
    ensures ' ' in v || '\t' in v || '\r' in v || '\U{0000}' in v ==> !ValidValue(v)
    ensures |v| > 4096 || |v| < 4 ==> !ValidValue(v)
  {
    BytesAtLeast(v);
    if forall c | c in v :: '!' <= c <= '~' {
      AsciiBytes(v);
    }
  }

  // ---- lines -------------------------------------------------------------------------------

  predicate IsNote(line: string, w: string, rest: string) {
    AllBlank(IsSpace, w) && line == w + ['#'] + rest
  }

  /** A blank line, or one whose first character that is not blank is a hash. */
  ghost predicate Remark(line: string) {
    AllBlank(IsSpace, line) || exists w, rest :: IsNote(line, w, rest)
  }

  /** The text before the first equals sign and the text after it. */
  predicate Sets(line: string, key: string, value: string) { line == key + ['='] + value && '=' !in key }

  lemma NoteIsComment(line: string, w: string, rest: string)
    requires IsNote(line, w, rest)
    ensures TrimSpace(line) != "" && TrimSpace(line)[0] == '#'
  {
    var s := ['#'] + rest;
    assert line == w + s;
    TrimLeftStops(IsSpace, w, s);
  }

  lemma CommentIsNote(line: string) returns (w: string, rest: string)
    requires TrimSpace(line) != "" && TrimSpace(line)[0] == '#'
    ensures IsNote(line, w, rest)
  {
    var v;
    w, v := TrimSplits(IsSpace, line);
    rest := TrimSpace(line)[1..] + v;
    Reassociate(w, TrimSpace(line), v);
    Reassociate(['#'], TrimSpace(line)[1..], v);
    Reassociate(w, ['#'], rest);
    assert TrimSpace(line) == ['#'] + TrimSpace(line)[1..];
  }

  lemma RemarkIff(line: string)
    ensures IsComment(TrimSpace(line)) <==> Remark(line)
  {
    TrimIsEmptyIff(IsSpace, line);
    if TrimSpace(line) != "" && TrimSpace(line)[0] == '#' {
      var w, rest := CommentIsNote(line);
    }
    if w, rest :| IsNote(line, w, rest) {
      NoteIsComment(line, w, rest);
    }
  }

  lemma SetsIff(line: string, key: string, value: string)
    ensures Sets(line, key, value)
       <==> var eq := IndexOf(line, '='); eq < |line| && key == line[..eq] && value == line[eq + 1..]
  {
    var eq := IndexOf(line, '=');
    if Sets(line, key, value) {
      IndexOfIs(key, '=', value);
    }
    if eq < |line| {
      assert line == line[..eq] + ['='] + line[eq + 1..];
    }
  }

  /** The line sets one of these names to this value. */
  ghost predicate Gives(names: seq<string>, line: string, name: string, value: string) {
    && !Remark(line) && name in names
    && exists key :: Sets(line, key, value) && TrimSpace(key) == name
  }

  lemma GivesIff(names: seq<string>, line: string, name: string, value: string)
    ensures Gives(names, line, name, value)
       <==> var eq := IndexOf(line, '=');
            && !Remark(line) && name in names && eq < |line| && TrimSpace(line[..eq]) == name
            && value == line[eq + 1..]
  {
    var eq := IndexOf(line, '=');
    if key :| Sets(line, key, value) && TrimSpace(key) == name {
      SetsIff(line, key, value);
    }
    if eq < |line| && value == line[eq + 1..] {
      SetsIff(line, line[..eq], value);
    }
  }

  /** A line of the strict format is a remark, or it sets a known name to a valid
      value; every other line is rejected. A carriage return at its end is ignored. */
  lemma StrictLineIff(names: seq<string>, raw: string, name: string, value: string)
    ensures StrictLine(names, raw).Skip? <==> Remark(StripCr(raw))
    ensures StrictLine(names, raw) == Entry(name, value)
       <==> Gives(names, StripCr(raw), name, value) && ValidValue(value)
  {
    RemarkIff(StripCr(raw));
    GivesIff(names, StripCr(raw), name, value);
  }

  lemma LegacyParts(names: seq<string>, raw: string)
    ensures var line, r := TrimSpace(raw), LegacyLine(names, raw);
            var eq := IndexOf(line, '=');
            var known := !IsComment(line) && eq < |line| && TrimSpace(line[..eq]) in names;
            && (r.Entry? <==> known && TrimSpace(line[eq + 1..]) != "" && ValidValue(line[eq + 1..]))
            && (r.Entry? ==> r.name == TrimSpace(line[..eq]) && r.value == line[eq + 1..])
            && (r.Reject? <==> known && TrimSpace(line[eq + 1..]) != "" && !ValidValue(line[eq + 1..]))
  {
  }

  lemma TrimmedRemark(raw: string)
    ensures IsComment(TrimSpace(raw)) <==> Remark(TrimSpace(raw))
  {
    RemarkIff(TrimSpace(raw));
    TrimTrimmed(IsSpace, TrimSpace(raw));
  }

  /** A line of the lenient format counts when, trimmed, it sets a known name to a
      valid value; it is rejected only when that value is invalid and not blank. */
  lemma LegacyLineIff(names: seq<string>, raw: string, name: string, value: string)
    ensures LegacyLine(names, raw) == Entry(name, value)
       <==> Gives(names, TrimSpace(raw), name, value) && ValidValue(value)
    ensures Gives(names, TrimSpace(raw), name, value) ==>
              (LegacyLine(names, raw).Reject? <==> !ValidValue(value) && !AllBlank(IsSpace, value))
  {
    LegacyParts(names, raw);
    TrimmedRemark(raw);
    GivesIff(names, TrimSpace(raw), name, value);
    TrimIsEmptyIff(IsSpace, value);
    ValidIsNotBlank(value);
  }

  /** And only a line that sets a known name can be rejected. */
  lemma LegacyRejects(names: seq<string>, raw: string) returns (name: string, value: string)
    requires LegacyLine(names, raw).Reject?
    ensures Gives(names, TrimSpace(raw), name, value)
  {
    var line := TrimSpace(raw);
    var eq := IndexOf(line, '=');
    LegacyParts(names, raw);
    TrimmedRemark(raw);
    name, value := TrimSpace(line[..eq]), line[eq + 1..];
    GivesIff(names, line, name, value);
  }

  lemma ValidIsNotBlank(value: string)
    ensures ValidValue(value) ==> TrimSpace(value) != ""
  {
    if ValidValue(value) {
      BytesAtLeast(value);
      TrimIsEmptyIff(IsSpace, value);
      assert value[0] in value;
    }
  }

  // ---- files -----------------------------------------------------------------------------------

  function StrictRead(names: seq<string>, lines: seq<string>): (r: seq<Line>)
    ensures |r| == |lines| && forall k | 0 <= k < |r| :: r[k] == StrictLine(names, lines[k])
  {
    seq(|lines|, k requires 0 <= k < |lines| => StrictLine(names, lines[k]))
  }

  function LegacyRead(names: seq<string>, lines: seq<string>): (r: seq<Line>)
    ensures |r| == |lines| && forall k | 0 <= k < |r| :: r[k] == LegacyLine(names, lines[k])
  {
    seq(|lines|, k requires 0 <= k < |lines| => LegacyLine(names, lines[k]))
  }

  function At(m: Values, name: string): Option<string> { if name in m then Some(m[name]) else None }

  /** The value of the last line that gives the name one. */
  function Last(lines: seq<Line>, name: string): Option<string>
    decreases |lines|
  {
    if lines == [] then None
    else
      var line := lines[|lines| - 1];
      if line.Entry? && line.name == name then Some(line.value) else Last(lines[..|lines| - 1], name)
  }

  function Later(lines: seq<Line>, name: string, before: Option<string>): Option<string> {
    if Last(lines, name).Some? then Last(lines, name) else before
  }

  lemma {:induction false} LastCons(line: Line, lines: seq<Line>, name: string)
    ensures Last([line] + lines, name)
         == Later(lines, name, if line.Entry? && line.name == name then Some(line.value) else None)
    decreases |lines|
  {
    var all := [line] + lines;
    if lines == [] {
      assert all[..0] == [];
    } else {
      assert all[|lines|] == lines[|lines| - 1] && all[..|lines|] == [line] + lines[..|lines| - 1];
      LastCons(line, lines[..|lines| - 1], name);
    }
  }

  ghost predicate NoReject(lines: seq<Line>) { forall line | line in lines :: !line.Reject? }

  predicate Same(a: Line, b: Line) { a.Entry? && b.Entry? && a.name == b.name }

  /** Two lines give the same name a value. */
  ghost predicate Repeats(lines: seq<Line>) {
    exists i, j :: 0 <= i < j < |lines| && Same(lines[i], lines[j])
  }

  ghost predicate Meets(lines: seq<Line>, values: Values) {
    exists line :: line in lines && line.Entry? && line.name in values
  }

  lemma RepeatsCons(line: Line, lines: seq<Line>)
    ensures Repeats([line] + lines) <==> Repeats(lines) || exists b :: b in lines && Same(line, b)
  {
    var all := [line] + lines;
    if i, j :| 0 <= i < j < |lines| && Same(lines[i], lines[j]) {
      assert Same(all[i + 1], all[j + 1]);
    }
    if b :| b in lines && Same(line, b) {
      var j :| 0 <= j < |lines| && lines[j] == b;
      assert Same(all[0], all[j + 1]);
    }
    if i, j :| 0 <= i < j < |all| && Same(all[i], all[j]) {
      assert all[j] == lines[j - 1];
      assert i > 0 ==> Same(lines[i - 1], lines[j - 1]);
    }
  }

  /** No line is rejected, and no name is given twice or has a value already. */
  ghost predicate Clear(lines: seq<Line>, values: Values) {
    NoReject(lines) && !Repeats(lines) && !Meets(lines, values)
  }

  function After(line: Line, values: Values): Values {
    if line.Entry? then values[line.name := line.value] else values
  }

  lemma ClearCons(line: Line, lines: seq<Line>, values: Values)
    ensures Clear([line] + lines, values)
       <==> !line.Reject? && (line.Entry? ==> line.name !in values)
            && Clear(lines, After(line, values))
  {
    RepeatsCons(line, lines);
    MeetsCons(line, lines, values);
  }

  /** The strict parser on lines that are read already. */
  function StrictFold(lines: seq<Line>, values: Values): Option<Values>
    decreases |lines|
  {
    if lines == [] then Some(values)
    else if lines[0].Reject? || (lines[0].Entry? && lines[0].name in values) then None
    else StrictFold(lines[1..], After(lines[0], values))
  }

  lemma {:induction false} StrictIsFold(names: seq<string>, lines: seq<string>, values: Values)
    ensures StrictLines(names, lines, values) == StrictFold(StrictRead(names, lines), values)
    decreases |lines|
  {
    if lines != [] {
      StrictNext(names, lines, values);
      assert StrictRead(names, lines)[1..] == StrictRead(names, lines[1..]);
      StrictIsFold(names, lines[1..], After(StrictLine(names, lines[0]), values));
    }
  }

  lemma {:induction false} FoldIsClear(lines: seq<Line>, values: Values)
    ensures StrictFold(lines, values).Some? <==> Clear(lines, values)
    decreases |lines|
  {
    if lines != [] {
      assert lines == [lines[0]] + lines[1..];
      ClearCons(lines[0], lines[1..], values);
      FoldIsClear(lines[1..], After(lines[0], values));
    }
  }

  lemma {:induction false} StrictFoldHolds(lines: seq<Line>, values: Values, name: string)
    requires StrictFold(lines, values).Some?
    ensures At(StrictFold(lines, values).value, name) == Later(lines, name, At(values, name))
    decreases |lines|
  {
    if lines != [] {
      assert lines == [lines[0]] + lines[1..];
      LastCons(lines[0], lines[1..], name);
      StrictFoldHolds(lines[1..], After(lines[0], values), name);
    }
  }

  lemma MeetsCons(line: Line, lines: seq<Line>, values: Values)
    ensures Meets([line] + lines, values) <==> (line.Entry? && line.name in values) || Meets(lines, values)
    ensures line.Entry? ==>
              (Meets(lines, values[line.name := line.value])
               <==> Meets(lines, values) || exists b :: b in lines && Same(line, b))
    ensures NoReject([line] + lines) <==> !line.Reject? && NoReject(lines)
  {
    assert line in [line] + lines;
    assert forall b | b in lines :: b in [line] + lines;
  }

  /** The lenient parser on lines that are read already. */
  function LegacyFold(lines: seq<Line>, values: Values): Option<Values>
    decreases |lines|
  {
    if lines == [] then Some(values)
    else if lines[0].Reject? then None
    else LegacyFold(lines[1..], After(lines[0], values))
  }

  lemma LegacyNext(names: seq<string>, lines: seq<string>, values: Values)
    requires lines != []
    ensures var line := LegacyLine(names, lines[0]);
            LegacyLines(names, lines, values) ==
            if line.Reject? then None else LegacyLines(names, lines[1..], After(line, values))
  {
  }

  lemma {:induction false} LegacyIsFold(names: seq<string>, lines: seq<string>, values: Values)
    ensures LegacyLines(names, lines, values) == LegacyFold(LegacyRead(names, lines), values)
    decreases |lines|
  {
    if lines != [] {
      LegacyNext(names, lines, values);
      assert LegacyRead(names, lines)[1..] == LegacyRead(names, lines[1..]);
      LegacyIsFold(names, lines[1..], After(LegacyLine(names, lines[0]), values));
    }
  }

  lemma {:induction false} LegacyFoldHolds(lines: seq<Line>, values: Values, name: string)
    ensures LegacyFold(lines, values).Some? <==> NoReject(lines)
    ensures LegacyFold(lines, values).Some? ==>
              At(LegacyFold(lines, values).value, name) == Later(lines, name, At(values, name))
    decreases |lines|
  {
    if lines != [] {
      assert lines == [lines[0]] + lines[1..];
      LastCons(lines[0], lines[1..], name);
      MeetsCons(lines[0], lines[1..], values);
      LegacyFoldHolds(lines[1..], After(lines[0], values), name);
    }
  }

  /** A strict file parses when no line is rejected and no name is given twice; each
      name has the value its line gives, and no other name has one. */
  lemma StrictFileIff(names: seq<string>, data: string, name: string)
    ensures var read, r := StrictRead(names, Split(data, '\n')), ParseStrict(names, data);
            && (r.Some? <==> NoReject(read) && !Repeats(read))
            && (r.Some? ==> At(r.value, name) == Last(read, name))
  {
    var lines := Split(data, '\n');
    StrictIsFold(names, lines, map[]);
    FoldIsClear(StrictRead(names, lines), map[]);
    if ParseStrict(names, data).Some? {
      StrictFoldHolds(StrictRead(names, lines), map[], name);
    }
  }

  /** A lenient file parses when no line is rejected; each name has the value that the
      last line naming it gives. */
  lemma LegacyFileIff(names: seq<string>, data: string, name: string)
    ensures var read, r := LegacyRead(names, Split(data, '\n')), ParseLegacy(names, data);
            && (r.Some? <==> NoReject(read))
            && (r.Some? ==> At(r.value, name) == Last(read, name))
  {
    var lines := Split(data, '\n');
    LegacyIsFold(names, lines, map[]);
    LegacyFoldHolds(LegacyRead(names, lines), map[], name);
  }

  /** The environment yields the variables of these names that are not blank. */
  lemma CollectedIff(names: seq<string>, env: Values, name: string)
    ensures At(Collected(names, env), name)
         == if name in names && name in env && !AllBlank(IsSpace, env[name]) then Some(env[name]) else None
  {
    if name in env {
      TrimIsEmptyIff(IsSpace, env[name]);
    }
  }
}
