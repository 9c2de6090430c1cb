/** Formatting, parsing and formatting again gives the same bytes. */
module TemplateRoundTrip {
  import opened Basics
  import opened Text
  import opened Frontmatter
  import opened TemplateFormat

  // ---- the lines of a header -----------------------------------------------------------

  /** The lines that entries make; an entry with newlines makes several. */
  function Flatten(entries: seq<string>): seq<string> {
    if entries == [] then [] else Split(entries[0], '\n') + Flatten(entries[1..])
  }

  lemma {:induction false} UnlinesSplit(s: string)
    ensures Unlines(Split(s, '\n')) == s + "\n"
    decreases |s|
  {
    var i := IndexOf(s, '\n');
    if i == |s| {
      OneEntry(s);
    } else {
      var rest := Split(s[i + 1..], '\n');
      UnlinesSplit(s[i + 1..]);
      UnlinesCons([s[..i]] + rest, "");
      assert ([s[..i]] + rest)[1..] == rest;
      assert s == s[..i] + ['\n'] + s[i + 1..];
    }
  }

  lemma {:induction false} FlattenWritesTheSame(entries: seq<string>)
    ensures Unlines(Flatten(entries)) == Unlines(entries)
    ensures SingleLines(Flatten(entries)) && (entries != [] ==> Flatten(entries) != [])
    decreases |entries|
  {
    if entries != [] {
      FlattenWritesTheSame(entries[1..]);
      UnlinesSplit(entries[0]);
      UnlinesAppend(Split(entries[0], '\n'), Flatten(entries[1..]));
    }
  }

  ghost function HeaderLines(y: Yaml, m: Metadata): seq<string>
    requires SortsKeys(y, m)
  {
    Flatten(Entries(y, m))
  }

  /** For any scalar encoding, even of several lines: splitting gives back the
      header lines and the trimmed body exactly when no header line is a mark. */
  lemma SplitFormatIff(y: Yaml, m: Metadata, body: string)
    requires SortsKeys(y, m) && '\r' !in Format(y, m, body)
    ensures SplitText(Format(y, m, body)) == Ok((Join(HeaderLines(y, m), '\n'), TrimSpace(body)))
       <==> forall l | l in HeaderLines(y, m) :: !IsMark(l)
  {
    FlattenWritesTheSame(Entries(y, m));
    FrameReturnsIff(HeaderLines(y, m), body);
  }

  // ---- a codec of single lines -----------------------------------------------------------

  ghost predicate SingleLineCodec(y: Yaml) {
    && (forall s :: '\n' !in y.scalar(s))
    && forall n :: '\n' !in y.show(n)
  }

  lemma MarkIsDashes(line: string, k: nat)
    requires IsMark(line) && k < |line|
    ensures line[k] == '-' || IsSpace(line[k])
  {
    var w, v := TrimSplits(IsSpace, line);
    assert line == w + MARK + v;
    if k < |w| {
      assert line[k] == w[k] && w[k] in w;
    } else if k < |w| + 3 {
      assert line[k] == MARK[k - |w|];
    } else {
      assert line[k] == v[k - |w| - 3] && v[k - |w| - 3] in v;
    }
  }

  /** An entry that names a key is no mark. */
  lemma ColonIsNoMark(entry: string)
    requires ':' in entry
    ensures !IsMark(entry)
  {
    var k :| 0 <= k < |entry| && entry[k] == ':';
    if IsMark(entry) {
      MarkIsDashes(entry, k);
    }
  }

  /** A list item is no mark: its dash is followed by a space. */
  lemma ItemIsNoMark(s: string)
    ensures !IsMark("  - " + s)
  {
    var entry := "  - " + s;
    assert entry[2] == '-' && Leading(IsSpace, entry, 0) == 2;
    var core := TrimLeft(IsSpace, entry);
    assert core == "- " + s;
    assert TrimSpace(entry) <= core && |core| > 1 && core[1] == ' ';
    assert MARK[1] == '-';
  }

  lemma EntriesAreNoMarks(y: Yaml, m: Metadata)
    requires SortsKeys(y, m)
    ensures forall e | e in Entries(y, m) :: !IsMark(e)
  {
    forall e | e in Entries(y, m)
      ensures !IsMark(e)
    {
      if ':' in e {
        ColonIsNoMark(e);
      } else {
        EntryForms(y, m, e);
        var s :| e == Item(y, s);
        ItemIsNoMark(y.scalar(s));
      }
    }
  }

  lemma ScalarNames(y: Yaml, key: string, value: string)
    ensures ':' in Scalar(y, key, value)
  {
    assert Scalar(y, key, value)[|key|] == ':';
  }

  lemma ListForms(y: Yaml, key: string, values: seq<string>, e: string)
    requires e in ListEntries(y, key, values)
    ensures ':' in e || exists s :: e == Item(y, s)
  {
    if e == key + ":" {
      assert e[|key|] == ':';
    } else {
      var k :| 0 <= k < |values| && e == Item(y, values[k]);
    }
  }

  lemma EntryForms(y: Yaml, m: Metadata, e: string)
    requires SortsKeys(y, m) && e in Entries(y, m)
    ensures ':' in e || exists s :: e == Item(y, s)
  {
    if e in ScalarEntries(y, m) {
      ScalarNames(y, "id", m.id);
      ScalarNames(y, "name", m.name);
      ScalarNames(y, "description", m.description);
      ScalarNames(y, "kind", m.kind);
      assert ("version: " + y.show(m.version))[7] == ':';
    } else if e in EvaluationEntries(y, m) {
      EvaluationForms(y, m, e);
    } else if e in ListEntries(y, "capabilities", m.capabilities) {
      ListForms(y, "capabilities", m.capabilities, e);
    } else if e in ListEntries(y, "runtime_compatibility", m.runtimes) {
      ListForms(y, "runtime_compatibility", m.runtimes, e);
    } else if e in ListEntries(y, "tags", m.tags) {
      ListForms(y, "tags", m.tags, e);
    } else if e in ListEntries(y, "inputs", m.inputs) {
      ListForms(y, "inputs", m.inputs, e);
    } else {
      ListForms(y, "outputs", m.outputs, e);
    }
  }

  lemma EvaluationForms(y: Yaml, m: Metadata, e: string)
    requires SortsKeys(y, m) && e in EvaluationEntries(y, m)
    ensures ':' in e
  {
    var keys := y.sort(m.evaluation.Keys);
    if e == "evaluation:" {
      assert e[10] == ':';
    } else {
      var k :| 0 <= k < |keys| && e == Scalar(y, "  " + keys[k], m.evaluation[keys[k]]);
      ScalarNames(y, "  " + keys[k], m.evaluation[keys[k]]);
    }
  }

  // ---- keys of several lines ---------------------------------------------------------------

  predicate HasMark(lines: seq<string>) { exists l :: l in lines && IsMark(l) }

  function Init<T>(s: seq<T>): seq<T>
    requires s != []
  {
    s[..|s| - 1]
  }

  /** The text put behind the last line. */
  function Tagged(lines: seq<string>, v: string): seq<string>
    requires lines != []
  {
    Init(lines) + [lines[|lines| - 1] + v]
  }

  /** The lines of a key that stand on their own in the header: all but the last,
      which goes on with a colon. */
  function Inner(key: string): seq<string> { Init(Split(key, '\n')) }

  /** No key puts a mark on a line of its own. */
  predicate KeysAreCalm(m: Metadata) { forall key | key in m.evaluation :: !HasMark(Inner(key)) }

  lemma SplitNone(s: string)
    ensures '\n' !in s ==> Split(s, '\n') == [s]
    ensures '\n' in s ==> var i := IndexOf(s, '\n'); Split(s, '\n') == [s[..i]] + Split(s[i + 1..], '\n')
  {
  }

  lemma SplitPrefix(w: string, s: string)
    requires '\n' !in w
    ensures var lines := Split(s, '\n'); Split(w + s, '\n') == [w + lines[0]] + lines[1..]
  {
    SplitNone(s);
    if '\n' !in s {
      SplitNone(w + s);
    } else {
      var i := IndexOf(s, '\n');
      assert w + s == (w + s[..i]) + ['\n'] + s[i + 1..];
      SplitCons(w + s[..i], '\n', s[i + 1..]);
    }
  }

  lemma CutLine(s: string)
    requires '\n' in s
    ensures var i := IndexOf(s, '\n'); s == s[..i] + ['\n'] + s[i + 1..] && '\n' !in s[..i]
  {
  }

  lemma InitCons<T>(x: T, s: seq<T>)
    requires s != []
    ensures Init([x] + s) == [x] + Init(s) && ([x] + s)[|s|] == s[|s| - 1]
  {
  }

  /** The last line of a text goes on with the text put behind it. */
  lemma {:induction false} SplitAppend(s: string, v: string)
    ensures var lines := Split(s, '\n');
            Split(s + v, '\n') == Init(lines) + Split(lines[|lines| - 1] + v, '\n')
    decreases |s|
  {
    SplitNone(s);
    if '\n' in s {
      CutLine(s);
      var i := IndexOf(s, '\n');
      SplitAppend(s[i + 1..], v);
      SplitAppendStep(s[..i], s[i + 1..], v);
    } else {
      assert Init([s]) == [];
    }
  }

  lemma SplitAppendStep(line: string, rest: string, v: string)
    requires '\n' !in line
    requires var lines := Split(rest, '\n');
             Split(rest + v, '\n') == Init(lines) + Split(lines[|lines| - 1] + v, '\n')
    ensures var s := line + ['\n'] + rest;
            var lines := Split(s, '\n');
            Split(s + v, '\n') == Init(lines) + Split(lines[|lines| - 1] + v, '\n')
  {
    var lines := Split(rest, '\n');
    SplitCons(line, '\n', rest);
    SplitCons(line, '\n', rest + v);
    Reassociate(line + ['\n'], rest, v);
    InitCons(line, lines);
    Reassociate([line], Init(lines), Split(lines[|lines| - 1] + v, '\n'));
  }

  lemma SplitSuffix(s: string, v: string)
    requires '\n' !in v
    ensures Split(s + v, '\n') == Tagged(Split(s, '\n'), v)
  {
    var lines := Split(s, '\n');
    SplitAppend(s, v);
    assert '\n' !in lines[|lines| - 1];
    SplitNone(lines[|lines| - 1] + v);
  }

  lemma BlanksAreTrimmed(w: string, line: string)
    requires AllBlank(IsSpace, w)
    ensures TrimSpace(w + line) == TrimSpace(line)
  {
    var a, b := TrimSplits(IsSpace, line);
    var core := TrimSpace(line);
    Reassociate(w, a, core);
    Reassociate(w, a + core, b);
    TrimPadded(IsSpace, w + a, core, b);
  }

  lemma MarkedParts(a: seq<string>, b: seq<string>)
    ensures HasMark(a + b) <==> HasMark(a) || HasMark(b)
  {
    if l :| l in a && IsMark(l) {
      assert l in a + b;
    }
    if l :| l in b && IsMark(l) {
      assert l in a + b;
    }
  }

  lemma MarkedOne(line: string)
    ensures HasMark([line]) <==> IsMark(line)
  {
    assert line in [line];
  }

  lemma PaddedMarks(line: string, rest: seq<string>)
    ensures HasMark(["  " + line] + rest) <==> HasMark([line] + rest)
  {
    BlanksAreTrimmed("  ", line);
    MarkedParts(["  " + line], rest);
    MarkedParts([line], rest);
    MarkedOne("  " + line);
    MarkedOne(line);
  }

  /** The marks among the lines of an evaluation entry are those of its key. */
  lemma EntryMarks(y: Yaml, key: string, value: string)
    requires '\n' !in y.scalar(value)
    ensures HasMark(Split(Scalar(y, "  " + key, value), '\n')) <==> HasMark(Inner(key))
  {
    var lines, colon := Split(key, '\n'), ": " + y.scalar(value);
    var padded := ["  " + lines[0]] + lines[1..];
    SplitPrefix("  ", key);
    SplitSuffix("  " + key, colon);
    Reassociate("  " + key, ": ", y.scalar(value));
    TaggedMarks(padded, colon);
    PaddedInit(lines);
  }

  lemma PaddedInit(lines: seq<string>)
    requires lines != []
    ensures HasMark(Init(["  " + lines[0]] + lines[1..])) <==> HasMark(Init(lines))
  {
    var padded := ["  " + lines[0]] + lines[1..];
    if |lines| > 1 {
      var rest := Init(lines[1..]);
      assert Init(padded) == ["  " + lines[0]] + rest && Init(lines) == [lines[0]] + rest;
      PaddedMarks(lines[0], rest);
    }
  }

  lemma TaggedMarks(lines: seq<string>, v: string)
    requires lines != [] && ':' in v
    ensures HasMark(Tagged(lines, v)) <==> HasMark(Init(lines))
  {
    var last := lines[|lines| - 1] + v;
    ColonIsNoMark(last);
    MarkedParts(Init(lines), [last]);
    MarkedOne(last);
  }

  /** A key with a mark on a line of its own breaks the split, for any encoding of
      the scalars ... */
  lemma InnerMarkStays(y: Yaml, key: string, value: string)
    requires HasMark(Inner(key))
    ensures HasMark(Split(Scalar(y, "  " + key, value), '\n'))
  {
    var lines, colon := Split(key, '\n'), ": " + y.scalar(value);
    var padded := ["  " + lines[0]] + lines[1..];
    SplitPrefix("  ", key);
    SplitAppend("  " + key, colon);
    Reassociate("  " + key, ": ", y.scalar(value));
    PaddedInit(lines);
    MarkedParts(Init(padded), Split(padded[|padded| - 1] + colon, '\n'));
  }

  lemma {:induction false} FlattenMarks(entries: seq<string>)
    ensures HasMark(Flatten(entries)) <==> exists e :: e in entries && HasMark(Split(e, '\n'))
    decreases |entries|
  {
    if entries != [] {
      assert entries == [entries[0]] + entries[1..];
      FlattenMarks(entries[1..]);
      MarkedParts(Split(entries[0], '\n'), Flatten(entries[1..]));
      if e :| e in entries && HasMark(Split(e, '\n')) {
        assert e == entries[0] || e in entries[1..];
      }
      if HasMark(Split(entries[0], '\n')) {
        assert entries[0] in entries;
      }
      if e :| e in entries[1..] && HasMark(Split(e, '\n')) {
        assert e in entries;
      }
    }
  }

  lemma ListSingleLines(y: Yaml, key: string, values: seq<string>, e: string)
    requires SingleLineCodec(y) && '\n' !in key && e in ListEntries(y, key, values)
    ensures '\n' !in e
  {
  }

  /** Only an evaluation entry can have several lines. */
  lemma SeveralLines(y: Yaml, m: Metadata, e: string) returns (key: string)
    requires SortsKeys(y, m) && SingleLineCodec(y) && e in Entries(y, m) && '\n' in e
    ensures key in m.evaluation && e == Scalar(y, "  " + key, m.evaluation[key])
  {
    assert e !in ScalarEntries(y, m);
    if e in ListEntries(y, "capabilities", m.capabilities) {
      ListSingleLines(y, "capabilities", m.capabilities, e);
    } else if e in ListEntries(y, "runtime_compatibility", m.runtimes) {
      ListSingleLines(y, "runtime_compatibility", m.runtimes, e);
    } else if e in ListEntries(y, "tags", m.tags) {
      ListSingleLines(y, "tags", m.tags, e);
    } else if e in ListEntries(y, "inputs", m.inputs) {
      ListSingleLines(y, "inputs", m.inputs, e);
    } else if e in ListEntries(y, "outputs", m.outputs) {
      ListSingleLines(y, "outputs", m.outputs, e);
    }
    var keys := y.sort(m.evaluation.Keys);
    var k :| 0 <= k < |keys| && e == MapEntries(y, keys, m.evaluation)[k];
    key := keys[k];
    assert key in keys;
  }

  lemma EntryOfKey(y: Yaml, m: Metadata, key: string)
    requires SortsKeys(y, m) && key in m.evaluation
    ensures Scalar(y, "  " + key, m.evaluation[key]) in Entries(y, m)
  {
    var keys := y.sort(m.evaluation.Keys);
    assert key in keys;
    var k :| 0 <= k < |keys| && keys[k] == key;
    assert MapEntries(y, keys, m.evaluation)[k] == Scalar(y, "  " + key, m.evaluation[key]);
  }

  /** A key with a mark on a line of its own puts it into the header, for any
      encoding of the scalars. */
  lemma KeyMarksHeader(y: Yaml, m: Metadata)
    requires SortsKeys(y, m) && !KeysAreCalm(m)
    ensures HasMark(HeaderLines(y, m))
  {
    var key :| key in m.evaluation && HasMark(Inner(key));
    EntryOfKey(y, m, key);
    InnerMarkStays(y, key, m.evaluation[key]);
    FlattenMarks(Entries(y, m));
  }

  /** With scalars of one line it takes such a key. */
  lemma HeaderMarksIff(y: Yaml, m: Metadata)
    requires SortsKeys(y, m) && SingleLineCodec(y)
    ensures HasMark(HeaderLines(y, m)) <==> !KeysAreCalm(m)
  {
    FlattenMarks(Entries(y, m));
    EntriesAreNoMarks(y, m);
    if e :| e in Entries(y, m) && HasMark(Split(e, '\n')) {
      if '\n' in e {
        var key := SeveralLines(y, m, e);
        EntryMarks(y, key, m.evaluation[key]);
      } else {
        SplitNone(e);
        MarkedOne(e);
      }
    }
    if !KeysAreCalm(m) {
      KeyMarksHeader(y, m);
    }
  }

  lemma {:induction false} UnlinesIsJoin(lines: seq<string>)
    requires lines != []
    ensures Unlines(lines) == Join(lines, '\n') + "\n"
    decreases |lines|
  {
    if |lines| == 1 {
      assert lines == [lines[0]];
      OneEntry(lines[0]);
    } else {
      UnlinesIsJoin(lines[1..]);
      Reassociate(lines[0] + ['\n'], Join(lines[1..], '\n'), "\n");
    }
  }

  /** The header lines are the entries, however these are cut. */
  lemma HeaderIsEntries(y: Yaml, m: Metadata)
    requires SortsKeys(y, m)
    ensures Join(HeaderLines(y, m), '\n') == Join(Entries(y, m), '\n')
  {
    var a, b := Join(HeaderLines(y, m), '\n'), Join(Entries(y, m), '\n');
    FlattenWritesTheSame(Entries(y, m));
    UnlinesIsJoin(HeaderLines(y, m));
    UnlinesIsJoin(Entries(y, m));
    assert (a + "\n")[..|a|] == a && (b + "\n")[..|b|] == b;
  }

  /** With scalars of one line, splitting a formatted template gives back exactly
      the header entries and the trimmed body, whatever the body holds, if and only
      if no evaluation key has a mark on a line of its own. */
  lemma SplitUndoesFormatIff(y: Yaml, m: Metadata, body: string)
    requires SortsKeys(y, m) && SingleLineCodec(y) && '\r' !in Format(y, m, body)
    ensures SplitText(Format(y, m, body)) == Ok((Join(Entries(y, m), '\n'), TrimSpace(body))) <==> KeysAreCalm(m)
  {
    HeaderIsEntries(y, m);
    HeaderMarksIff(y, m);
    SplitFormatIff(y, m, body);
  }

  lemma MarkBreaks(y: Yaml, m: Metadata, body: string)
    requires SortsKeys(y, m) && '\r' !in Format(y, m, body) && HasMark(HeaderLines(y, m))
    ensures SplitText(Format(y, m, body)) != Ok((Join(Entries(y, m), '\n'), TrimSpace(body)))
  {
    HeaderIsEntries(y, m);
    SplitFormatIff(y, m, body);
  }

  lemma TwoLines(a: string, b: string)
    requires '\n' !in a && '\n' !in b
    ensures Split(a + ['\n'] + b, '\n') == [a, b]
  {
    SplitCons(a, '\n', b);
    SplitNone(b);
  }

  const BAD_KEY := "a\n---\nb"

  lemma BadKeyLines()
    ensures HasMark(Inner(BAD_KEY))
  {
    assert "---\nb" == "---" + ['\n'] + "b" && BAD_KEY == "a" + ['\n'] + "---\nb";
    TwoLines("---", "b");
    SplitCons("a", '\n', "---\nb");
    assert Inner(BAD_KEY) == ["a", MARK];
    MarkIsMark();
    assert MARK in Inner(BAD_KEY);
  }

  /** For any encoding: this key breaks the split. */
  lemma BadKeyBreaks(y: Yaml, m: Metadata, body: string)
    requires SortsKeys(y, m) && '\r' !in Format(y, m, body) && BAD_KEY in m.evaluation
    ensures SplitText(Format(y, m, body)) != Ok((Join(Entries(y, m), '\n'), TrimSpace(body)))
  {
    BadKeyLines();
    KeyMarksHeader(y, m);
    MarkBreaks(y, m, body);
  }

  /** The encoding of a text of three lines as a literal block. */
  const BLOCK := "|-\n    a\n    ---\n    b"

  lemma MarkBetween(a: string, mark: string, b: string)
    requires IsMark(mark) && '\n' !in mark
    ensures HasMark(Split(a + (['\n'] + (mark + ['\n'] + b)), '\n'))
  {
    var lines, rest := Split(a, '\n'), mark + ['\n'] + b;
    var last := lines[|lines| - 1];
    SplitAppend(a, ['\n'] + rest);
    Reassociate(last, ['\n'], rest);
    SplitCons(last, '\n', rest);
    SplitCons(mark, '\n', b);
    assert mark in [mark] + Split(b, '\n') && mark in [last] + ([mark] + Split(b, '\n'));
    MarkedParts(Init(lines), [last] + ([mark] + Split(b, '\n')));
  }

  lemma BlockLines(w: string)
    ensures HasMark(Split(w + BLOCK, '\n'))
  {
    var rest := ['\n'] + ("    ---" + ['\n'] + "    b");
    assert BLOCK == "|-\n    a" + rest && "    ---" == "    " + MARK;
    Reassociate(w, "|-\n    a", rest);
    BlanksAreTrimmed("    ", MARK);
    MarkIsMark();
    MarkBetween(w + "|-\n    a", "    ---", "    b");
  }

  /** And so does a description encoded like this. */
  lemma BlockBreaks(y: Yaml, m: Metadata, body: string)
    requires SortsKeys(y, m) && '\r' !in Format(y, m, body) && y.scalar(m.description) == BLOCK
    ensures SplitText(Format(y, m, body)) != Ok((Join(Entries(y, m), '\n'), TrimSpace(body)))
  {
    var entry := Scalar(y, "description", m.description);
    BlockLines("description" + ": ");
    assert entry == ScalarEntries(y, m)[2] && entry in Entries(y, m);
    FlattenMarks(Entries(y, m));
    MarkBreaks(y, m, body);
  }

  // ---- format, parse, format ---------------------------------------------------------------

  ghost predicate Iterates(y: Yaml) { forall m :: Enumerates(y.iterate(m), m) }

  /** `ParseTemplateContent`. */
  ghost function Parse(y: Yaml, content: string): Option<(Metadata, string)>
    requires Iterates(y)
  {
    var split := SplitText(content);
    if split.Err? then None
    else
      var raw := y.decode(split.value.0);
      if raw.None? then None
      else
        assert Enumerates(y.iterate(raw.value.evaluation), raw.value.evaluation);
        var m := Normalize(raw.value, y.iterate(raw.value.evaluation));
        if !y.valid(m) || TrimSpace(split.value.1) == "" then None else Some((m, split.value.1))
  }

  /** What parsing returns is in normal form and valid, and comes with a body that is
      not blank; nothing else is refused once the header decodes. */
  lemma ParsedIff(y: Yaml, content: string)
    requires Iterates(y)
    ensures var split, parsed := SplitText(content), Parse(y, content);
            && (parsed.Some? ==> Normal(parsed.value.0) && y.valid(parsed.value.0)
                                 && !AllBlank(IsSpace, parsed.value.1) && split.Ok? && split.value.1 == parsed.value.1)
            && (split.Ok? && y.decode(split.value.0).Some? && !AllBlank(IsSpace, split.value.1) ==>
                  var raw := y.decode(split.value.0).value;
                  parsed.Some? <==> y.valid(Normalize(raw, y.iterate(raw.evaluation))))
  {
    var split := SplitText(content);
    if split.Ok? {
      TrimIsEmptyIff(IsSpace, split.value.1);
      var raw := y.decode(split.value.0);
      if raw.Some? {
        NormalizeIsNormal(raw.value, y.iterate(raw.value.evaluation));
      }
    }
  }

  /** The YAML library reads a written header back, up to loose blanks. */
  ghost predicate ReadsBack(y: Yaml, m: Metadata)
    requires Iterates(y) && SortsKeys(y, m)
  {
    var raw := y.decode(Join(HeaderLines(y, m), '\n'));
    raw.Some? && Enumerates(y.iterate(raw.value.evaluation), raw.value.evaluation)
    && Normalize(raw.value, y.iterate(raw.value.evaluation)) == m
  }

  lemma TrimTwice(s: string)
    ensures TrimSpace(TrimSpace(s)) == TrimSpace(s)
  {
    TrimTrimmed(IsSpace, TrimSpace(s));
  }

  /** What a template needs to be read back: m is the normal form of its metadata,
      the library reads the header back, and the result is accepted. */
  ghost predicate Readable(y: Yaml, metadata: Metadata, m: Metadata, body: string) {
    && Iterates(y) && Enumerates(y.iterate(metadata.evaluation), metadata.evaluation)
    && m == Normalize(metadata, y.iterate(metadata.evaluation))
    && SortsKeys(y, m) && ReadsBack(y, m) && y.valid(m) && TrimSpace(body) != "" && '\r' !in Format(y, m, body)
  }

  /** A formatted template parses to its normalized metadata and trimmed body, and
      formatting those again gives the same bytes. */
  lemma FormatParseFormat(y: Yaml, metadata: Metadata, m: Metadata, body: string)
    requires Readable(y, metadata, m, body) && forall l | l in HeaderLines(y, m) :: !IsMark(l)
    ensures Parse(y, Format(y, m, body)) == Some((m, TrimSpace(body)))
    ensures Enumerates(y.iterate(m.evaluation), m.evaluation) && Normalize(m, y.iterate(m.evaluation)) == m
    ensures Format(y, m, TrimSpace(body)) == Format(y, m, body)
  {
    SplitFormatIff(y, m, body);
    TrimTwice(body);
    NormalizeIsNormal(metadata, y.iterate(metadata.evaluation));
    NormalizeIsNormal(m, y.iterate(m.evaluation));
  }

  /** With scalars of one line nothing more is needed of the header than that no
      key breaks it. */
  lemma SingleLineFixpoint(y: Yaml, metadata: Metadata, m: Metadata, body: string)
    requires Readable(y, metadata, m, body) && SingleLineCodec(y) && KeysAreCalm(m)
    ensures Parse(y, Format(y, m, body)) == Some((m, TrimSpace(body)))
    ensures Format(y, m, TrimSpace(body)) == Format(y, m, body)
  {
    HeaderMarksIff(y, m);
    FormatParseFormat(y, metadata, m, body);
  }
}
