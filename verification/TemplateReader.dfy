/** A reader of template headers, line by line and apart from the writer: it gives
    back every field under the key the writer put it, so the YAML library's part in
    the round trip can be played by it. */
module TemplateReader {
  import opened Basics
  import opened Text
  import opened Frontmatter
  import opened TemplateFormat
  import opened TemplateRoundTrip

  /** How scalars and numbers are read. */
  datatype Codec = Codec(unquote: string -> string, number: string -> int)

  ghost predicate Inverts(c: Codec, y: Yaml) {
    (forall s :: c.unquote(y.scalar(s)) == s) && forall n :: c.number(y.show(n)) == n
  }

  /** The key whose indented lines are being read. */
  datatype Section = Top | Capabilities | Runtimes | Tags | Inputs | Outputs | Evaluation

  datatype Reading = Reading(m: Metadata, section: Section)

  const BLANK := Metadata("", "", "", "", 0, [], [], [], [], [], map[])

  function AddItem(m: Metadata, section: Section, value: string): Metadata {
    match section
    case Capabilities => m.(capabilities := m.capabilities + [value])
    case Runtimes => m.(runtimes := m.runtimes + [value])
    case Tags => m.(tags := m.tags + [value])
    case Inputs => m.(inputs := m.inputs + [value])
    case Outputs => m.(outputs := m.outputs + [value])
    case _ => m
  }

  /** What follows the colon and the space after it. */
  function AfterColon(line: string): string {
    var colon := IndexOf(line, ':');
    if colon + 2 <= |line| then line[colon + 2..] else ""
  }

  /** A line that is not indented. */
  function ReadTop(c: Codec, m: Metadata, line: string): Reading {
    var key, rest := line[..IndexOf(line, ':')], AfterColon(line);
    if key == "id" then Reading(m.(id := c.unquote(rest)), Top)
    else if key == "name" then Reading(m.(name := c.unquote(rest)), Top)
    else if key == "description" then Reading(m.(description := c.unquote(rest)), Top)
    else if key == "kind" then Reading(m.(kind := c.unquote(rest)), Top)
    else if key == "version" then Reading(m.(version := c.number(rest)), Top)
    else if key == "capabilities" then Reading(m, Capabilities)
    else if key == "runtime_compatibility" then Reading(m, Runtimes)
    else if key == "tags" then Reading(m, Tags)
    else if key == "inputs" then Reading(m, Inputs)
    else if key == "outputs" then Reading(m, Outputs)
    else if key == "evaluation" then Reading(m, Evaluation)
    else Reading(m, Top)
  }

  function ReadLine(c: Codec, r: Reading, line: string): Reading {
    if |line| < 2 || line[0] != ' ' then ReadTop(c, r.m, line)
    else if r.section == Evaluation then
      var entry := line[2..];
      r.(m := r.m.(evaluation := r.m.evaluation[entry[..IndexOf(entry, ':')] := c.unquote(AfterColon(entry))]))
    else if |line| >= 4 then r.(m := AddItem(r.m, r.section, c.unquote(line[4..])))
    else r
  }

  function ReadLines(c: Codec, r: Reading, lines: seq<string>): Reading
    decreases |lines|
  {
    if lines == [] then r else ReadLines(c, ReadLine(c, r, lines[0]), lines[1..])
  }

  function ReadHeader(c: Codec, header: string): Metadata {
    ReadLines(c, Reading(BLANK, Top), Split(header, '\n')).m
  }

  lemma {:induction false} ReadLinesAppend(c: Codec, r: Reading, a: seq<string>, b: seq<string>)
    ensures ReadLines(c, r, a + b) == ReadLines(c, ReadLines(c, r, a), b)
    decreases |a|
  {
    if a == [] {
      assert a + b == b;
    } else {
      assert (a + b)[1..] == a[1..] + b;
      ReadLinesAppend(c, ReadLine(c, r, a[0]), a[1..], b);
    }
  }

  lemma ReadOne(c: Codec, r: Reading, line: string)
    ensures ReadLines(c, r, [line]) == ReadLine(c, r, line)
  {
    assert [line][1..] == [];
    assert ReadLines(c, r, [line]) == ReadLines(c, ReadLine(c, r, line), []);
  }

  // ---- one line of each kind -----------------------------------------------------------

  lemma CutsAtColon(key: string, rest: string)
    requires ':' !in key
    ensures var line := key + ": " + rest; line[..IndexOf(line, ':')] == key && AfterColon(line) == rest
  {
    assert key + ": " + rest == key + [':'] + (" " + rest);
    IndexOfIs(key, ':', " " + rest);
  }

  lemma KeyLine(key: string)
    requires ':' !in key
    ensures var line := key + ":"; line[..IndexOf(line, ':')] == key
  {
    assert key + ":" == key + [':'] + "";
    IndexOfIs(key, ':', "");
  }

  lemma ScalarIsRead(c: Codec, y: Yaml, r: Reading, key: string, value: string)
    requires Inverts(c, y) && ':' !in key && key != "" && key[0] != ' '
    ensures var line := Scalar(y, key, value);
            && ReadLine(c, r, line) == ReadTop(c, r.m, line)
            && line[..IndexOf(line, ':')] == key && c.unquote(AfterColon(line)) == value
  {
    CutsAtColon(key, y.scalar(value));
  }

  lemma EntryIsRead(c: Codec, y: Yaml, r: Reading, key: string, value: string)
    requires Inverts(c, y) && ':' !in key && r.section == Evaluation
    ensures ReadLine(c, r, Scalar(y, "  " + key, value))
         == r.(m := r.m.(evaluation := r.m.evaluation[key := value]))
  {
    var line := Scalar(y, "  " + key, value);
    CutsAtColon(key, y.scalar(value));
    assert line == "  " + (key + ": " + y.scalar(value));
    assert line[2..] == key + ": " + y.scalar(value);
  }

  lemma ItemIsRead(c: Codec, y: Yaml, r: Reading, value: string)
    requires Inverts(c, y) && r.section != Evaluation
    ensures ReadLine(c, r, Item(y, value)) == r.(m := AddItem(r.m, r.section, value))
  {
    assert Item(y, value)[4..] == y.scalar(value);
  }

  // ---- the parts of a header -----------------------------------------------------------------

  lemma TopScalar(c: Codec, y: Yaml, r: Reading, key: string, value: string)
    requires Inverts(c, y) && key in {"id", "name", "description", "kind"}
    ensures ReadLine(c, r, Scalar(y, key, value))
         == Reading(if key == "id" then r.m.(id := value) else if key == "name" then r.m.(name := value)
                    else if key == "description" then r.m.(description := value) else r.m.(kind := value), Top)
  {
    ScalarIsRead(c, y, r, key, value);
  }

  lemma TopVersion(c: Codec, y: Yaml, r: Reading, n: int)
    requires Inverts(c, y)
    ensures ReadLine(c, r, "version: " + y.show(n)) == Reading(r.m.(version := n), Top)
  {
    assert "version: " == "version" + ": ";
    CutsAtColon("version", y.show(n));
  }

  lemma FiveLines(c: Codec, r: Reading, a: string, b: string, d: string, e: string, f: string)
    ensures ReadLines(c, r, [a, b, d, e, f])
         == ReadLine(c, ReadLine(c, ReadLine(c, ReadLine(c, ReadLine(c, r, a), b), d), e), f)
  {
    assert [a, b, d, e, f][1..] == [b, d, e, f] && [b, d, e, f][1..] == [d, e, f];
    assert [d, e, f][1..] == [e, f] && [e, f][1..] == [f];
    var r1 := ReadLine(c, r, a);
    var r2 := ReadLine(c, r1, b);
    var r3 := ReadLine(c, r2, d);
    assert ReadLines(c, r, [a, b, d, e, f]) == ReadLines(c, r1, [b, d, e, f]) == ReadLines(c, r2, [d, e, f]);
    assert ReadLines(c, r2, [d, e, f]) == ReadLines(c, r3, [e, f]) == ReadLines(c, ReadLine(c, r3, e), [f]);
    ReadOne(c, ReadLine(c, r3, e), f);
  }

  lemma ScalarsAreRead(c: Codec, y: Yaml, r: Reading, m: Metadata)
    requires Inverts(c, y)
    ensures ReadLines(c, r, ScalarEntries(y, m))
         == Reading(r.m.(id := m.id, name := m.name, description := m.description, kind := m.kind,
                         version := m.version), Top)
  {
    var m1 := r.m.(id := m.id);
    var m2 := m1.(name := m.name);
    var m3 := m2.(description := m.description);
    var m4 := m3.(kind := m.kind);
    TopScalar(c, y, r, "id", m.id);
    TopScalar(c, y, Reading(m1, Top), "name", m.name);
    TopScalar(c, y, Reading(m2, Top), "description", m.description);
    TopScalar(c, y, Reading(m3, Top), "kind", m.kind);
    TopVersion(c, y, Reading(m4, Top), m.version);
    FiveLines(c, r, Scalar(y, "id", m.id), Scalar(y, "name", m.name), Scalar(y, "description", m.description),
              Scalar(y, "kind", m.kind), "version: " + y.show(m.version));
  }

  function Appended(m: Metadata, section: Section, values: seq<string>): Metadata {
    match section
    case Capabilities => m.(capabilities := m.capabilities + values)
    case Runtimes => m.(runtimes := m.runtimes + values)
    case Tags => m.(tags := m.tags + values)
    case Inputs => m.(inputs := m.inputs + values)
    case Outputs => m.(outputs := m.outputs + values)
    case _ => m
  }

  function Items(y: Yaml, values: seq<string>): seq<string> {
    seq(|values|, k requires 0 <= k < |values| => Item(y, values[k]))
  }

  lemma AddThenAppend(m: Metadata, section: Section, values: seq<string>)
    requires values != []
    ensures Appended(AddItem(m, section, values[0]), section, values[1..]) == Appended(m, section, values)
  {
    assert values == [values[0]] + values[1..];
    Reassociate(m.capabilities, [values[0]], values[1..]);
    Reassociate(m.runtimes, [values[0]], values[1..]);
    Reassociate(m.tags, [values[0]], values[1..]);
    Reassociate(m.inputs, [values[0]], values[1..]);
    Reassociate(m.outputs, [values[0]], values[1..]);
  }

  lemma NothingAppended(m: Metadata, section: Section)
    ensures Appended(m, section, []) == m
  {
    assert m.capabilities + [] == m.capabilities && m.runtimes + [] == m.runtimes && m.tags + [] == m.tags;
    assert m.inputs + [] == m.inputs && m.outputs + [] == m.outputs;
  }

  lemma {:induction false} ItemsAreRead(c: Codec, y: Yaml, m: Metadata, section: Section, values: seq<string>)
    requires Inverts(c, y) && section != Evaluation
    ensures ReadLines(c, Reading(m, section), Items(y, values)) == Reading(Appended(m, section, values), section)
    decreases |values|
  {
    if values == [] {
      NothingAppended(m, section);
    } else {
      ItemIsRead(c, y, Reading(m, section), values[0]);
      assert Items(y, values)[0] == Item(y, values[0]) && Items(y, values)[1..] == Items(y, values[1..]);
      ItemsAreRead(c, y, AddItem(m, section, values[0]), section, values[1..]);
      AddThenAppend(m, section, values);
    }
  }

  /** The keys of the five lists. */
  predicate ListKey(key: string, section: Section) {
    match section
    case Capabilities => key == "capabilities"
    case Runtimes => key == "runtime_compatibility"
    case Tags => key == "tags"
    case Inputs => key == "inputs"
    case Outputs => key == "outputs"
    case _ => false
  }

  lemma ListKeyOpens(c: Codec, m: Metadata, line: string, section: Section)
    requires ListKey(line[..IndexOf(line, ':')], section)
    ensures ReadTop(c, m, line) == Reading(m, section)
  {
  }

  lemma ListKeyIsPlain(key: string, section: Section)
    requires ListKey(key, section)
    ensures ':' !in key && key != "" && key[0] != ' '
  {
  }

  lemma ListKeyIsRead(c: Codec, r: Reading, key: string, section: Section)
    requires ListKey(key, section)
    ensures ReadLine(c, r, key + ":") == Reading(r.m, section)
  {
    ListKeyIsPlain(key, section);
    KeyLine(key);
    ListKeyOpens(c, r.m, key + ":", section);
  }

  lemma ListIsRead(c: Codec, y: Yaml, r: Reading, key: string, section: Section, values: seq<string>)
    requires Inverts(c, y) && ListKey(key, section)
    ensures ReadLines(c, r, ListEntries(y, key, values)) == Reading(Appended(r.m, section, values), section)
  {
    assert ListEntries(y, key, values) == [key + ":"] + Items(y, values);
    ListKeyIsRead(c, r, key, section);
    ReadOne(c, r, key + ":");
    ReadLinesAppend(c, r, [key + ":"], Items(y, values));
    ItemsAreRead(c, y, r.m, section, values);
  }

  /** Storing the values of these keys, one after the other. */
  function Stored(keys: seq<string>, from: map<string, string>, into: map<string, string>): map<string, string>
    requires forall key | key in keys :: key in from
    decreases |keys|
  {
    if keys == [] then into else Stored(keys[1..], from, into[keys[0] := from[keys[0]]])
  }

  lemma {:induction false} StoredIs(keys: seq<string>, from: map<string, string>, into: map<string, string>)
    requires forall key | key in keys :: key in from
    ensures forall key :: key in Stored(keys, from, into) <==> key in keys || key in into
    ensures forall key | key in keys :: Stored(keys, from, into)[key] == from[key]
    ensures forall key | key in into && key !in keys :: Stored(keys, from, into)[key] == into[key]
    decreases |keys|
  {
    if keys != [] {
      assert keys == [keys[0]] + keys[1..];
      StoredIs(keys[1..], from, into[keys[0] := from[keys[0]]]);
    }
  }

  lemma {:induction false} MapIsRead(c: Codec, y: Yaml, m: Metadata, keys: seq<string>, from: map<string, string>)
    requires Inverts(c, y) && forall key | key in keys :: key in from && ':' !in key
    ensures ReadLines(c, Reading(m, Evaluation), MapEntries(y, keys, from))
         == Reading(m.(evaluation := Stored(keys, from, m.evaluation)), Evaluation)
    decreases |keys|
  {
    if keys != [] {
      var key, entries := keys[0], MapEntries(y, keys, from);
      assert keys == [key] + keys[1..];
      EntryIsRead(c, y, Reading(m, Evaluation), key, from[key]);
      assert entries[0] == Scalar(y, "  " + key, from[key]) && entries[1..] == MapEntries(y, keys[1..], from);
      MapIsRead(c, y, m.(evaluation := m.evaluation[key := from[key]]), keys[1..], from);
    }
  }

  // ---- the whole header ------------------------------------------------------------------------

  /** Keys of one line without a colon. */
  predicate PlainKeys(m: Metadata) { forall key | key in m.evaluation :: ':' !in key && '\n' !in key }

  lemma StoresAll(keys: seq<string>, m: map<string, string>)
    requires Enumerates(keys, m)
    ensures Stored(keys, m, map[]) == m
  {
    StoredIs(keys, m, map[]);
  }

  lemma EvaluationKeyIsRead(c: Codec, r: Reading)
    ensures ReadLines(c, r, ["evaluation:"]) == Reading(r.m, Evaluation)
  {
    assert "evaluation:" == "evaluation" + ":";
    KeyLine("evaluation");
    ReadOne(c, r, "evaluation:");
  }

  lemma EvaluationIsRead(c: Codec, y: Yaml, r: Reading, m: Metadata)
    requires Inverts(c, y) && SortsKeys(y, m) && PlainKeys(m) && r.m.evaluation == map[]
    ensures ReadLines(c, r, EvaluationEntries(y, m)).m == r.m.(evaluation := m.evaluation)
  {
    if m.evaluation != map[] {
      var keys := y.sort(m.evaluation.Keys);
      assert forall key | key in keys :: key in m.evaluation;
      EvaluationKeyIsRead(c, r);
      ReadLinesAppend(c, r, ["evaluation:"], MapEntries(y, keys, m.evaluation));
      MapIsRead(c, y, r.m, keys, m.evaluation);
      StoresAll(keys, m.evaluation);
    }
  }

  lemma ListNext(c: Codec, y: Yaml, done: seq<string>, m: Metadata, key: string, section: Section,
                 values: seq<string>)
    requires Inverts(c, y) && ListKey(key, section) && ReadLines(c, Reading(BLANK, Top), done).m == m
    ensures ReadLines(c, Reading(BLANK, Top), done + ListEntries(y, key, values)).m == Appended(m, section, values)
  {
    ReadLinesAppend(c, Reading(BLANK, Top), done, ListEntries(y, key, values));
    ListIsRead(c, y, ReadLines(c, Reading(BLANK, Top), done), key, section, values);
  }

  /** Every entry is read back under its own key. */
  lemma EntriesAreRead(c: Codec, y: Yaml, m: Metadata)
    requires Inverts(c, y) && SortsKeys(y, m) && PlainKeys(m)
    ensures ReadLines(c, Reading(BLANK, Top), Entries(y, m)).m == m
  {
    var done := ScalarEntries(y, m);
    var read := BLANK.(id := m.id, name := m.name, description := m.description, kind := m.kind, version := m.version);
    ScalarsAreRead(c, y, Reading(BLANK, Top), m);
    ListNext(c, y, done, read, "capabilities", Capabilities, m.capabilities);
    done, read := done + ListEntries(y, "capabilities", m.capabilities), read.(capabilities := m.capabilities);
    ListNext(c, y, done, read, "runtime_compatibility", Runtimes, m.runtimes);
    done, read := done + ListEntries(y, "runtime_compatibility", m.runtimes), read.(runtimes := m.runtimes);
    ListNext(c, y, done, read, "tags", Tags, m.tags);
    done, read := done + ListEntries(y, "tags", m.tags), read.(tags := m.tags);
    ListNext(c, y, done, read, "inputs", Inputs, m.inputs);
    done, read := done + ListEntries(y, "inputs", m.inputs), read.(inputs := m.inputs);
    ListNext(c, y, done, read, "outputs", Outputs, m.outputs);
    done, read := done + ListEntries(y, "outputs", m.outputs), read.(outputs := m.outputs);
    ReadLinesAppend(c, Reading(BLANK, Top), done, EvaluationEntries(y, m));
    EvaluationIsRead(c, y, ReadLines(c, Reading(BLANK, Top), done), m);
  }

  lemma EntriesAreLines(y: Yaml, m: Metadata)
    requires SortsKeys(y, m) && SingleLineCodec(y) && PlainKeys(m)
    ensures forall e | e in Entries(y, m) :: '\n' !in e
  {
    forall key | key in m.evaluation
      ensures '\n' !in Scalar(y, "  " + key, m.evaluation[key])
    {
      assert '\n' !in "  " + key && '\n' !in ": " + y.scalar(m.evaluation[key]);
    }
    forall e | e in Entries(y, m)
      ensures '\n' !in e
    {
      if '\n' in e {
        var key := SeveralLines(y, m, e);
      }
    }
  }

  /** The text between the marks holds every field of the metadata, each under its
      own key: a line reader finds them there. */
  lemma HeaderIsReadBack(c: Codec, y: Yaml, m: Metadata)
    requires SortsKeys(y, m) && SingleLineCodec(y) && Inverts(c, y) && PlainKeys(m)
    ensures ReadHeader(c, Join(HeaderLines(y, m), '\n')) == m
  {
    HeaderIsEntries(y, m);
    EntriesAreLines(y, m);
    assert Entries(y, m)[0] == Scalar(y, "id", m.id);
    SplitJoin(Entries(y, m), '\n');
    EntriesAreRead(c, y, m);
  }

  /** A library that reads headers as the line reader does. */
  ghost predicate DecodesByLine(y: Yaml, c: Codec) { forall h :: y.decode(h) == Some(ReadHeader(c, h)) }

  lemma LinesReadBack(c: Codec, y: Yaml, m: Metadata)
    requires Iterates(y) && SortsKeys(y, m) && SingleLineCodec(y) && Inverts(c, y) && PlainKeys(m)
    requires DecodesByLine(y, c) && Normal(m)
    ensures ReadsBack(y, m)
  {
    HeaderIsReadBack(c, y, m);
    NormalizeIsNormal(m, y.iterate(m.evaluation));
  }

  lemma PlainIsCalm(m: Metadata)
    requires PlainKeys(m)
    ensures KeysAreCalm(m)
  {
    forall key | key in m.evaluation
      ensures !HasMark(Inner(key))
    {
      SplitNone(key);
      assert Inner(key) == [];
    }
  }

  /** With the line reader for the YAML library nothing is left to suppose: a
      template is formatted, parsed to what it was written from, and formatted again
      to the same bytes. */
  lemma LineRoundTrip(c: Codec, y: Yaml, metadata: Metadata, m: Metadata, body: string)
    requires Iterates(y) && Enumerates(y.iterate(metadata.evaluation), metadata.evaluation)
    requires m == Normalize(metadata, y.iterate(metadata.evaluation)) && SortsKeys(y, m) && y.valid(m)
    requires SingleLineCodec(y) && Inverts(c, y) && DecodesByLine(y, c) && PlainKeys(m)
    requires TrimSpace(body) != "" && '\r' !in Format(y, m, body)
    ensures Parse(y, Format(y, m, body)) == Some((m, TrimSpace(body)))
    ensures Format(y, m, TrimSpace(body)) == Format(y, m, body)
  {
    NormalizeIsNormal(metadata, y.iterate(metadata.evaluation));
    LinesReadBack(c, y, m);
    PlainIsCalm(m);
    SingleLineFixpoint(y, metadata, m, body);
  }
}
