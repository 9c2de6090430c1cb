/** Formatting and parsing a template: metadata normalization, the YAML header, and
    the round trip through both. The YAML library is a parameter. */
module TemplateFormat {
  import opened Basics
  import opened Text
  import opened Frontmatter

  datatype Metadata = Metadata(
    id: string, name: string, description: string, kind: string, version: int,
    capabilities: seq<string>, runtimes: seq<string>, tags: seq<string>, inputs: seq<string>, outputs: seq<string>,
    evaluation: map<string, string>)

  /** `scalar` is the trimmed YAML encoding of a string, `decode` reads a header,
      `sort` lists keys in order, `iterate` is the iteration order of a map, and
      `valid` is the validation of normalized metadata. */
  datatype Yaml = Yaml(
    scalar: string -> string,
    show: int -> string,
    decode: string -> Option<Metadata>,
    sort: set<string> -> seq<string>,
    iterate: map<string, string> -> seq<string>,
    valid: Metadata -> bool)

  // ---- normalization ---------------------------------------------------------------

  function Kept(value: string): seq<string> {
    if TrimSpace(value) == "" then [] else [TrimSpace(value)]
  }

  function Compact(values: seq<string>): seq<string> {
    if values == [] then [] else Kept(values[0]) + Compact(values[1..])
  }

  lemma CompactNext(done: seq<string>, values: seq<string>, k: nat)
    requires k < |values|
    ensures done + Compact(values[k..]) == done + Kept(values[k]) + Compact(values[k + 1..])
  {
    assert values[k..][1..] == values[k + 1..];
  }

  method CompactMetadataStrings(values: seq<string>) returns (compacted: seq<string>)
    ensures compacted == Compact(values)
  {
    compacted := [];
    for k := 0 to |values|
      invariant compacted + Compact(values[k..]) == Compact(values)
    {
      CompactNext(compacted, values, k);
      var value := TrimSpace(values[k]);
      if value != "" {
        compacted := compacted + [value];
      } else {
        assert compacted + [] == compacted;
      }
    }
  }

  ghost predicate Enumerates(order: seq<string>, m: map<string, string>) { forall key :: key in order <==> key in m }

  /** Trimming the entries of a map one by one, in some iteration order. */
  function TrimEntries(order: seq<string>, m: map<string, string>, done: map<string, string>): map<string, string>
    requires forall key | key in order :: key in m
    decreases |order|
  {
    if order == [] then done
    else
      var key, value := TrimSpace(order[0]), TrimSpace(m[order[0]]);
      TrimEntries(order[1..], m, if key != "" && value != "" then done[key := value] else done)
  }

  method NormalizeEvaluation(order: seq<string>, m: map<string, string>) returns (normalized: map<string, string>)
    requires forall key | key in order :: key in m
    ensures normalized == TrimEntries(order, m, map[])
  {
    normalized := map[];
    for k := 0 to |order|
      invariant TrimEntries(order[k..], m, normalized) == TrimEntries(order, m, map[])
    {
      assert order[k..][1..] == order[k + 1..];
      var key, value := TrimSpace(order[k]), TrimSpace(m[order[k]]);
      if key != "" && value != "" {
        normalized := normalized[key := value];
      }
    }
  }

  function Normalize(m: Metadata, order: seq<string>): Metadata
    requires forall key | key in order :: key in m.evaluation
  {
    Metadata(TrimSpace(m.id), TrimSpace(m.name), TrimSpace(m.description), TrimSpace(m.kind), m.version,
             Compact(m.capabilities), Compact(m.runtimes), Compact(m.tags), Compact(m.inputs), Compact(m.outputs),
             if m.evaluation == map[] then m.evaluation else TrimEntries(order, m.evaluation, map[]))
  }

  predicate Core(s: string) { Trimmed(IsSpace, s) }

  predicate Solid(values: seq<string>) { forall v | v in values :: v != "" && Core(v) }

  predicate SolidMap(m: map<string, string>) {
    forall key | key in m :: key != "" && Core(key) && m[key] != "" && Core(m[key])
  }

  predicate Normal(m: Metadata) {
    && Core(m.id) && Core(m.name) && Core(m.description) && Core(m.kind)
    && Solid(m.capabilities) && Solid(m.runtimes) && Solid(m.tags) && Solid(m.inputs) && Solid(m.outputs)
    && SolidMap(m.evaluation)
  }

  lemma {:induction false} CompactIsSolid(values: seq<string>)
    ensures Solid(Compact(values))
    ensures Solid(values) ==> Compact(values) == values
    decreases |values|
  {
    if values != [] {
      CompactIsSolid(values[1..]);
      assert values == [values[0]] + values[1..];
      assert values[0] in values;
      if Solid(values) {
        TrimTrimmed(IsSpace, values[0]);
        assert forall v | v in values[1..] :: v in values;
      }
    }
  }

  lemma {:induction false} TrimEntriesIsSolid(order: seq<string>, m: map<string, string>, done: map<string, string>)
    requires SolidMap(done) && forall key | key in order :: key in m
    ensures SolidMap(TrimEntries(order, m, done))
    decreases |order|
  {
    if order != [] {
      var key, value := TrimSpace(order[0]), TrimSpace(m[order[0]]);
      TrimEntriesIsSolid(order[1..], m, if key != "" && value != "" then done[key := value] else done);
    }
  }

  /** A map without loose blanks is unchanged, in any iteration order. */
  lemma {:induction false} TrimSolidEntries(order: seq<string>, m: map<string, string>, done: map<string, string>)
    requires SolidMap(m) && forall key | key in order :: key in m
    requires forall key | key in done :: key in m && done[key] == m[key]
    requires forall key | key in m :: key in done || key in order
    ensures TrimEntries(order, m, done) == m
    decreases |order|
  {
    if order != [] {
      assert order[0] in m;
      TrimTrimmed(IsSpace, order[0]);
      TrimTrimmed(IsSpace, m[order[0]]);
      assert order == [order[0]] + order[1..];
      TrimSolidEntries(order[1..], m, done[order[0] := m[order[0]]]);
    }
  }

  /** Normalization reaches a normal form, and leaves normal forms alone. */
  lemma NormalizeIsNormal(m: Metadata, order: seq<string>)
    requires Enumerates(order, m.evaluation)
    ensures Normal(Normalize(m, order))
    ensures Normal(m) ==> Normalize(m, order) == m
  {
    CompactIsSolid(m.capabilities);
    CompactIsSolid(m.runtimes);
    CompactIsSolid(m.tags);
    CompactIsSolid(m.inputs);
    CompactIsSolid(m.outputs);
    TrimEntriesIsSolid(order, m.evaluation, map[]);
    if Normal(m) {
      TrimSolidEntries(order, m.evaluation, map[]);
      TrimTrimmed(IsSpace, m.id);
      TrimTrimmed(IsSpace, m.name);
      TrimTrimmed(IsSpace, m.description);
      TrimTrimmed(IsSpace, m.kind);
    }
  }

  predicate Around(s: string, w: string, core: string, v: string) {
    AllBlank(IsSpace, w) && AllBlank(IsSpace, v) && s == w + core + v
  }

  /** The core has no blank at either end; s is the core with blanks around it. */
  ghost predicate Wraps(s: string, core: string) { Core(core) && exists w, v :: Around(s, w, core, v) }

  /** The values are these cores with blanks around them, and blank values between. */
  ghost predicate WrapAll(values: seq<string>, cores: seq<string>)
    decreases |values|
  {
    if values == [] then cores == []
    else
      || (Wraps(values[0], "") && WrapAll(values[1..], cores))
      || (cores != [] && cores[0] != "" && Wraps(values[0], cores[0]) && WrapAll(values[1..], cores[1..]))
  }

  lemma WrapsIff(s: string, core: string)
    ensures Wraps(s, core) <==> TrimSpace(s) == core
  {
    if w, v :| Core(core) && Around(s, w, core, v) {
      TrimPadded(IsSpace, w, core, v);
    }
    if TrimSpace(s) == core {
      var w, v := TrimSplits(IsSpace, s);
      assert Around(s, w, core, v);
    }
  }

  lemma {:induction false} CompactUnwraps(values: seq<string>)
    ensures WrapAll(values, Compact(values))
    decreases |values|
  {
    if values != [] {
      CompactUnwraps(values[1..]);
      WrapsIff(values[0], TrimSpace(values[0]));
      var rest := Compact(values[1..]);
      if TrimSpace(values[0]) == "" {
        assert [] + rest == rest;
      } else {
        assert ([TrimSpace(values[0])] + rest)[1..] == rest;
      }
    }
  }

  /** The entry that a key of the map makes, if neither its text nor its value is blank. */
  ghost predicate Makes(m: map<string, string>, key: string, k: string, v: string) {
    key in m && k != "" && v != "" && Wraps(key, k) && Wraps(m[key], v)
  }

  lemma MakesIff(m: map<string, string>, key: string, k: string, v: string)
    requires key in m
    ensures Makes(m, key, k, v) <==> k != "" && v != "" && TrimSpace(key) == k && TrimSpace(m[key]) == v
  {
    WrapsIff(key, k);
    WrapsIff(m[key], v);
  }

  /** Every entry of the result is made by a key of the order or was there before. */
  lemma {:induction false} EntriesAreMade(order: seq<string>, m: map<string, string>, done: map<string, string>,
                                          k: string)
    requires forall key | key in order :: key in m
    requires k in TrimEntries(order, m, done)
    ensures var v := TrimEntries(order, m, done)[k];
            (k in done && v == done[k]) || exists key :: key in order && Makes(m, key, k, v)
    decreases |order|
  {
    if order != [] {
      var key := order[0];
      var k', v' := TrimSpace(key), TrimSpace(m[key]);
      var next := if k' != "" && v' != "" then done[k' := v'] else done;
      assert order == [key] + order[1..];
      assert TrimEntries(order, m, done) == TrimEntries(order[1..], m, next);
      MakesIff(m, key, k', v');
      EntriesAreMade(order[1..], m, next, k);
    }
  }

  lemma {:induction false} EntriesStay(order: seq<string>, m: map<string, string>, done: map<string, string>,
                                       k: string)
    requires (forall key | key in order :: key in m) && k in done
    ensures k in TrimEntries(order, m, done)
    decreases |order|
  {
    if order != [] {
      var k', v' := TrimSpace(order[0]), TrimSpace(m[order[0]]);
      EntriesStay(order[1..], m, if k' != "" && v' != "" then done[k' := v'] else done, k);
    }
  }

  /** And what a key makes is there, unless a later key makes another value for it. */
  lemma {:induction false} MadeIsThere(order: seq<string>, m: map<string, string>, done: map<string, string>,
                                       key: string)
    requires (forall k | k in order :: k in m) && key in order
    requires TrimSpace(key) != "" && TrimSpace(m[key]) != ""
    ensures TrimSpace(key) in TrimEntries(order, m, done)
    decreases |order|
  {
    var k', v' := TrimSpace(order[0]), TrimSpace(m[order[0]]);
    var next := if k' != "" && v' != "" then done[k' := v'] else done;
    if order[0] == key {
      EntriesStay(order[1..], m, next, k');
    } else {
      assert order == [order[0]] + order[1..];
      MadeIsThere(order[1..], m, next, key);
    }
  }

  ghost predicate WrapScalars(m: Metadata, n: Metadata) {
    && Wraps(m.id, n.id) && Wraps(m.name, n.name) && Wraps(m.description, n.description)
    && Wraps(m.kind, n.kind) && n.version == m.version
  }

  ghost predicate WrapLists(m: Metadata, n: Metadata) {
    && WrapAll(m.capabilities, n.capabilities) && WrapAll(m.runtimes, n.runtimes) && WrapAll(m.tags, n.tags)
    && WrapAll(m.inputs, n.inputs) && WrapAll(m.outputs, n.outputs)
  }

  ghost predicate MakeEntries(m: map<string, string>, n: map<string, string>) {
    && (forall k | k in n :: exists key :: Makes(m, key, k, n[k]))
    && (forall key, k, v :: Makes(m, key, k, v) ==> k in n)
  }

  lemma ScalarsUnwrap(m: Metadata, n: Metadata)
    requires n.id == TrimSpace(m.id) && n.name == TrimSpace(m.name) && n.description == TrimSpace(m.description)
    requires n.kind == TrimSpace(m.kind) && n.version == m.version
    ensures WrapScalars(m, n)
  {
    WrapsIff(m.id, n.id);
    WrapsIff(m.name, n.name);
    WrapsIff(m.description, n.description);
    WrapsIff(m.kind, n.kind);
  }

  lemma ListsUnwrap(m: Metadata, n: Metadata)
    requires n.capabilities == Compact(m.capabilities) && n.runtimes == Compact(m.runtimes)
    requires n.tags == Compact(m.tags) && n.inputs == Compact(m.inputs) && n.outputs == Compact(m.outputs)
    ensures WrapLists(m, n)
  {
    CompactUnwraps(m.capabilities);
    CompactUnwraps(m.runtimes);
    CompactUnwraps(m.tags);
    CompactUnwraps(m.inputs);
    CompactUnwraps(m.outputs);
  }

  lemma EntriesUnwrap(order: seq<string>, m: map<string, string>)
    requires Enumerates(order, m)
    ensures MakeEntries(m, TrimEntries(order, m, map[]))
  {
    var r := TrimEntries(order, m, map[]);
    forall k | k in r
      ensures exists key :: Makes(m, key, k, r[k])
    {
      EntriesAreMade(order, m, map[], k);
    }
    forall key, k, v | Makes(m, key, k, v)
      ensures k in r
    {
      MakesIff(m, key, k, v);
      MadeIsThere(order, m, map[], key);
    }
  }

  /** Normalization takes the blanks around every value away, drops blank values, and
      does nothing else: scalars, lists in their order, and the map. */
  lemma NormalizeUnwraps(m: Metadata, order: seq<string>)
    requires Enumerates(order, m.evaluation)
    ensures var n := Normalize(m, order);
            WrapScalars(m, n) && WrapLists(m, n) && MakeEntries(m.evaluation, n.evaluation)
  {
    ScalarsUnwrap(m, Normalize(m, order));
    ListsUnwrap(m, Normalize(m, order));
    EntriesUnwrap(order, m.evaluation);
  }

  // ---- writing the header ------------------------------------------------------------

  function Scalar(y: Yaml, key: string, value: string): string { key + ": " + y.scalar(value) }

  function Item(y: Yaml, value: string): string { "  - " + y.scalar(value) }

  function ListEntries(y: Yaml, key: string, values: seq<string>): seq<string> {
    [key + ":"] + seq(|values|, k requires 0 <= k < |values| => Item(y, values[k]))
  }

  function MapEntries(y: Yaml, keys: seq<string>, m: map<string, string>): seq<string>
    requires forall key | key in keys :: key in m
  {
    seq(|keys|, k requires 0 <= k < |keys| => Scalar(y, "  " + keys[k], m[keys[k]]))
  }

  ghost predicate SortsKeys(y: Yaml, m: Metadata) { Enumerates(y.sort(m.evaluation.Keys), m.evaluation) }

  ghost function EvaluationEntries(y: Yaml, m: Metadata): seq<string>
    requires SortsKeys(y, m)
  {
    if m.evaluation == map[] then []
    else ["evaluation:"] + MapEntries(y, y.sort(m.evaluation.Keys), m.evaluation)
  }

  function ScalarEntries(y: Yaml, m: Metadata): seq<string> {
    [Scalar(y, "id", m.id), Scalar(y, "name", m.name), Scalar(y, "description", m.description),
     Scalar(y, "kind", m.kind), "version: " + y.show(m.version)]
  }

  /** What the header is written from: one entry at a time, each ended by a newline. */
  ghost function Entries(y: Yaml, m: Metadata): seq<string>
    requires SortsKeys(y, m)
  {
    ScalarEntries(y, m)
    + ListEntries(y, "capabilities", m.capabilities)
    + ListEntries(y, "runtime_compatibility", m.runtimes)
    + ListEntries(y, "tags", m.tags)
    + ListEntries(y, "inputs", m.inputs)
    + ListEntries(y, "outputs", m.outputs)
    + EvaluationEntries(y, m)
  }

  ghost function Format(y: Yaml, m: Metadata, body: string): string
    requires SortsKeys(y, m)
  {
    Frame(Unlines(Entries(y, m)), body)
  }

  method WriteYamlScalar(y: Yaml, text: string, key: string, value: string) returns (more: string)
    ensures more == text + Unlines([Scalar(y, key, value)])
  {
    more := text + key + ": " + y.scalar(value) + "\n";
    assert [Scalar(y, key, value)][1..] == [];
    assert Unlines([Scalar(y, key, value)]) == Scalar(y, key, value) + "\n" + Unlines([]);
  }

  method WriteYamlList(y: Yaml, text: string, key: string, values: seq<string>) returns (more: string)
    ensures more == text + Unlines(ListEntries(y, key, values))
  {
    ghost var entries := ListEntries(y, key, values);
    more := text + key + ":\n";
    assert entries[..1] == [key + ":"] && [key + ":"][1..] == [];
    assert Unlines([key + ":"]) == key + ":" + "\n" + Unlines([]);
    for k := 0 to |values|
      invariant more == text + Unlines(entries[..k + 1])
    {
      assert entries[..k + 2] == entries[..k + 1] + [Item(y, values[k])];
      UnlinesSnoc(entries[..k + 1], Item(y, values[k]));
      more := more + "  - " + y.scalar(values[k]) + "\n";
    }
    assert entries[..|values| + 1] == entries;
  }

  lemma Extend(text: string, done: seq<string>, entries: seq<string>) returns (more: seq<string>)
    requires text == MARK + "\n" + Unlines(done)
    ensures more == done + entries
    ensures text + Unlines(entries) == MARK + "\n" + Unlines(more)
  {
    more := done + entries;
    UnlinesAppend(done, entries);
  }

  lemma OneEntry(entry: string)
    ensures Unlines([entry]) == entry + "\n"
  {
    assert [entry][1..] == [];
    assert Unlines([entry]) == entry + "\n" + Unlines([]);
  }

  /** The leading scalars of the header. */
  method WriteScalars(y: Yaml, m: Metadata) returns (text: string)
    ensures text == MARK + "\n" + Unlines(ScalarEntries(y, m))
  {
    ghost var done := [];
    text := "---\n";
    assert Unlines(done) == "" && MARK + "\n" + "" == text;
    done := Extend(text, done, [Scalar(y, "id", m.id)]);
    text := WriteYamlScalar(y, text, "id", m.id);
    done := Extend(text, done, [Scalar(y, "name", m.name)]);
    text := WriteYamlScalar(y, text, "name", m.name);
    done := Extend(text, done, [Scalar(y, "description", m.description)]);
    text := WriteYamlScalar(y, text, "description", m.description);
    done := Extend(text, done, [Scalar(y, "kind", m.kind)]);
    text := WriteYamlScalar(y, text, "kind", m.kind);
    done := Extend(text, done, ["version: " + y.show(m.version)]);
    OneEntry("version: " + y.show(m.version));
    text := text + ("version: " + y.show(m.version) + "\n");
    assert done == ScalarEntries(y, m);
  }

  /** The map of evaluation entries, in key order. */
  method WriteEvaluation(y: Yaml, text: string, m: Metadata) returns (more: string)
    requires SortsKeys(y, m)
    ensures more == text + Unlines(EvaluationEntries(y, m))
  {
    if m.evaluation == map[] {
      return text;
    }
    var keys := y.sort(m.evaluation.Keys);
    ghost var entries := EvaluationEntries(y, m);
    OneEntry("evaluation:");
    assert entries[..1] == ["evaluation:"];
    more := text + "evaluation:" + "\n";
    for k := 0 to |keys|
      invariant more == text + Unlines(entries[..k + 1])
    {
      var entry := Scalar(y, "  " + keys[k], m.evaluation[keys[k]]);
      assert entries[..k + 2] == entries[..k + 1] + [entry];
      UnlinesSnoc(entries[..k + 1], entry);
      OneEntry(entry);
      more := WriteYamlScalar(y, more, "  " + keys[k], m.evaluation[keys[k]]);
    }
    assert entries[..|keys| + 1] == entries;
  }

  method FormatTemplateContent(y: Yaml, metadata: Metadata, body: string) returns (text: string)
    requires Enumerates(y.iterate(metadata.evaluation), metadata.evaluation)
    requires SortsKeys(y, Normalize(metadata, y.iterate(metadata.evaluation)))
    ensures text == Format(y, Normalize(metadata, y.iterate(metadata.evaluation)), body)
  {
    var m := Normalize(metadata, y.iterate(metadata.evaluation));
    text := WriteScalars(y, m);
    ghost var done := Extend(text, ScalarEntries(y, m), ListEntries(y, "capabilities", m.capabilities));
    text := WriteYamlList(y, text, "capabilities", m.capabilities);
    done := Extend(text, done, ListEntries(y, "runtime_compatibility", m.runtimes));
    text := WriteYamlList(y, text, "runtime_compatibility", m.runtimes);
    done := Extend(text, done, ListEntries(y, "tags", m.tags));
    text := WriteYamlList(y, text, "tags", m.tags);
    done := Extend(text, done, ListEntries(y, "inputs", m.inputs));
    text := WriteYamlList(y, text, "inputs", m.inputs);
    done := Extend(text, done, ListEntries(y, "outputs", m.outputs));
    text := WriteYamlList(y, text, "outputs", m.outputs);
    done := Extend(text, done, EvaluationEntries(y, m));
    text := WriteEvaluation(y, text, m);
    assert done == Entries(y, m);
    text := text + MARK + "\n\n" + TrimSpace(body) + "\n";
  }
}
