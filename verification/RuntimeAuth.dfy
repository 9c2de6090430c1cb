/** The daemon's runtime-auth file: rendering, the strict parser, the lenient parser
    of its legacy form, and the one-time bootstrap from it. */
module RuntimeAuth {
  import opened Basics
  import opened Text

  type Values = map<string, string>

  const NAMES: seq<string> := ["CLAUDE_CODE_OAUTH_TOKEN", "ANTHROPIC_API_KEY", "ANTHROPIC_AUTH_TOKEN"]
  const MIN_BYTES := 16
  const MAX_BYTES := 4096

  /** The length in bytes of a character in UTF-8. */
  function Width(c: char): nat {
    if c < '\U{0080}' then 1 else if c < '\U{0800}' then 2 else if c < '\U{10000}' then 3 else 4
  }

  function Bytes(s: string): nat {
    if s == "" then 0 else Width(s[0]) + Bytes(s[1..])
  }

  predicate ValidValue(v: string) {
    MIN_BYTES <= Bytes(v) <= MAX_BYTES && forall c | c in v :: !IsSpace(c) && c != '\U{0000}'
  }

  predicate ValidValues(names: seq<string>, m: Values) {
    forall name | name in m :: name in names && ValidValue(m[name])
  }

  // ---- one line ---------------------------------------------------------------------

  datatype Line = Skip | Entry(name: string, value: string) | Reject

  function StripCr(raw: string): string {
    if raw != "" && raw[|raw| - 1] == '\r' then raw[..|raw| - 1] else raw
  }

  predicate IsComment(trimmed: string) { trimmed == "" || trimmed[0] == '#' }

  function StrictLine(names: seq<string>, raw: string): Line {
    var line := StripCr(raw);
    var eq := IndexOf(line, '=');
    if IsComment(TrimSpace(line)) then Skip
    else if eq == |line| || TrimSpace(line[..eq]) !in names || !ValidValue(line[eq + 1..]) then Reject
    else Entry(TrimSpace(line[..eq]), line[eq + 1..])
  }

  function LegacyLine(names: seq<string>, raw: string): Line {
    var line := TrimSpace(raw);
    var eq := IndexOf(line, '=');
    if IsComment(line) then Skip
    else if eq == |line| || TrimSpace(line[..eq]) !in names || TrimSpace(line[eq + 1..]) == "" then Skip
    else if !ValidValue(line[eq + 1..]) then Reject
    else Entry(TrimSpace(line[..eq]), line[eq + 1..])
  }

  // ---- the two parsers ---------------------------------------------------------------

  function StrictLines(names: seq<string>, lines: seq<string>, values: Values): Option<Values>
    decreases |lines|
  {
    if lines == [] then Some(values)
    else
      match StrictLine(names, lines[0])
      case Skip => StrictLines(names, lines[1..], values)
      case Reject => None
      case Entry(name, value) =>
        if name in values then None else StrictLines(names, lines[1..], values[name := value])
  }

  function LegacyLines(names: seq<string>, lines: seq<string>, values: Values): Option<Values>
    decreases |lines|
  {
    if lines == [] then Some(values)
    else
      match LegacyLine(names, lines[0])
      case Skip => LegacyLines(names, lines[1..], values)
      case Reject => None
      case Entry(name, value) => LegacyLines(names, lines[1..], values[name := value])
  }

  function ParseStrict(names: seq<string>, data: string): Option<Values> {
    StrictLines(names, Split(data, '\n'), map[])
  }

  function ParseLegacy(names: seq<string>, data: string): Option<Values> {
    LegacyLines(names, Split(data, '\n'), map[])
  }

  lemma StrictNext(names: seq<string>, lines: seq<string>, values: Values)
    requires lines != []
    ensures var line := StrictLine(names, lines[0]);
            && (line.Skip? ==> StrictLines(names, lines, values) == StrictLines(names, lines[1..], values))
            && (line.Reject? ==> StrictLines(names, lines, values) == None)
            && (line.Entry? && line.name in values ==> StrictLines(names, lines, values) == None)
            && (line.Entry? && line.name !in values ==>
                  StrictLines(names, lines, values) == StrictLines(names, lines[1..], values[line.name := line.value]))
  {
  }

  method ParseRuntimeAuthFile(names: seq<string>, data: string) returns (r: Option<Values>)
    ensures r == ParseStrict(names, data)
  {
    var lines := Split(data, '\n');
    var values: Values := map[];
    for k := 0 to |lines|
      invariant StrictLines(names, lines[k..], values) == StrictLines(names, lines, map[])
    {
      StrictNext(names, lines[k..], values);
      assert lines[k..][1..] == lines[k + 1..];
      var line := StripCr(lines[k]);
      var trimmed := TrimSpace(line);
      if trimmed == "" || trimmed[0] == '#' {
        continue;
      }
      var eq := IndexOf(line, '=');
      if eq == |line| || TrimSpace(line[..eq]) !in names {
        return None;
      }
      var name, value := TrimSpace(line[..eq]), line[eq + 1..];
      if name in values || !ValidValue(value) {
        return None;
      }
      values := values[name := value];
    }
    return Some(values);
  }

  method ParseLegacyFile(names: seq<string>, data: string) returns (r: Option<Values>)
    ensures r == ParseLegacy(names, data)
  {
    var lines := Split(data, '\n');
    var values: Values := map[];
    for k := 0 to |lines|
      invariant LegacyLines(names, lines[k..], values) == LegacyLines(names, lines, map[])
    {
      assert lines[k..][1..] == lines[k + 1..];
      var line := TrimSpace(lines[k]);
      if line == "" || line[0] == '#' {
        continue;
      }
      var eq := IndexOf(line, '=');
      if eq == |line| || TrimSpace(line[..eq]) !in names || TrimSpace(line[eq + 1..]) == "" {
        continue;
      }
      if !ValidValue(line[eq + 1..]) {
        return None;
      }
      values := values[TrimSpace(line[..eq]) := line[eq + 1..]];
    }
    return Some(values);
  }

  // ---- rendering ----------------------------------------------------------------------

  function EntryLine(name: string, value: string): string { name + ['='] + value }

  /** The lines for the k-th name on. */
  function Rendered(m: Values, names: seq<string>, k: nat): seq<string>
    requires k <= |names|
    decreases |names| - k
  {
    if k == |names| then []
    else (if names[k] in m then [EntryLine(names[k], m[names[k]])] else []) + Rendered(m, names, k + 1)
  }

  predicate Renders(m: Values, names: seq<string>) {
    forall k | 0 <= k < |names| && names[k] in m :: ValidValue(m[names[k]])
  }

  function FileText(names: seq<string>, m: Values): string { Unlines(Rendered(m, names, 0)) }

  /** The body that `writeRuntimeAuthFile` writes. */
  method Render(names: seq<string>, m: Values) returns (body: Option<string>)
    ensures body == if Renders(m, names) then Some(FileText(names, m)) else None
  {
    var text := "";
    for k := 0 to |names|
      invariant text + Unlines(Rendered(m, names, k)) == Unlines(Rendered(m, names, 0))
      invariant forall j | 0 <= j < k && names[j] in m :: ValidValue(m[names[j]])
    {
      RenderedStep(m, names, k);
      if names[k] in m {
        if !ValidValue(m[names[k]]) {
          return None;
        }
        ghost var line := EntryLine(names[k], m[names[k]]) + ['\n'];
        Reassociate(text, line, Unlines(Rendered(m, names, k + 1)));
        text := text + (EntryLine(names[k], m[names[k]]) + ['\n']);
      }
    }
    assert text + [] == text;
    return Some(text);
  }

  lemma RenderedStep(m: Values, names: seq<string>, k: nat)
    requires k < |names|
    ensures Unlines(Rendered(m, names, k))
         == (if names[k] in m then EntryLine(names[k], m[names[k]]) + ['\n'] else [])
            + Unlines(Rendered(m, names, k + 1))
  {
    var rest := Rendered(m, names, k + 1);
    if names[k] in m {
      var line := EntryLine(names[k], m[names[k]]);
      assert ([line] + rest)[1..] == rest;
    } else {
      assert [] + rest == rest;
    }
  }

  // ---- the strict parser inverts rendering ---------------------------------------------

  /** What the parsers need of the variable names. */
  predicate Clean(name: string) {
    name != "" && '=' !in name && name[0] != '#' && forall c | c in name :: !IsSpace(c)
  }

  predicate CleanNames(names: seq<string>) {
    && (forall name | name in names :: Clean(name))
    && forall i, j | 0 <= i < j < |names| :: names[i] != names[j]
  }

  lemma NamesAreClean()
    ensures CleanNames(NAMES)
  {
    assert |NAMES| == 3 && |NAMES[0]| == 23 && |NAMES[1]| == 17 && |NAMES[2]| == 20;
    assert forall k | 0 <= k < 3 :: Clean(NAMES[k]);
  }

  lemma TrimNoSpace(s: string)
    requires forall c | c in s :: !IsSpace(c)
    ensures TrimSpace(s) == s
  {
    assert s != [] ==> s[0] in s && s[|s| - 1] in s;
    TrimTrimmed(IsSpace, s);
  }

  lemma EntryParts(name: string, value: string)
    requires Clean(name)
    ensures var line := EntryLine(name, value);
            && IndexOf(line, '=') == |name| && line[..|name|] == name && line[|name| + 1..] == value
            && line[0] == name[0]
  {
    IndexOfIs(name, '=', value);
  }

  lemma EntryHasNoSpace(name: string, value: string)
    requires Clean(name) && ValidValue(value)
    ensures forall c | c in EntryLine(name, value) :: !IsSpace(c)
    ensures StripCr(EntryLine(name, value)) == EntryLine(name, value)
  {
    var line := EntryLine(name, value);
    assert forall c | c in line :: c in name || c == '=' || c in value;
    assert line[|line| - 1] in line;
  }

  lemma ReadsEntry(names: seq<string>, name: string, value: string)
    requires name in names && Clean(name) && ValidValue(value)
    ensures StrictLine(names, EntryLine(name, value)) == Entry(name, value)
  {
    EntryParts(name, value);
    EntryHasNoSpace(name, value);
    TrimNoSpace(EntryLine(name, value));
    TrimNoSpace(name);
  }

  lemma ReadsNext(names: seq<string>, name: string, value: string, rest: seq<string>, acc: Values)
    requires name in names && Clean(name) && ValidValue(value) && name !in acc
    ensures StrictLines(names, [EntryLine(name, value)] + rest, acc) == StrictLines(names, rest, acc[name := value])
  {
    ReadsEntry(names, name, value);
    assert ([EntryLine(name, value)] + rest)[1..] == rest;
  }

  /** The part of m under the first k names. */
  function Under(m: Values, names: seq<string>, k: nat): Values
    requires k <= |names|
  {
    map name | name in m && name in names[..k] :: m[name]
  }

  lemma UnderNext(m: Values, names: seq<string>, k: nat)
    requires k < |names| && CleanNames(names)
    ensures names[k] !in Under(m, names, k)
    ensures Under(m, names, k + 1)
         == if names[k] in m then Under(m, names, k)[names[k] := m[names[k]]] else Under(m, names, k)
  {
    assert names[..k + 1] == names[..k] + [names[k]];
  }

  lemma ReadsEnd(names: seq<string>, acc: Values)
    ensures StrictLines(names, [""], acc) == Some(acc)
  {
    assert [""][1..] == [];
    assert TrimSpace("") == "";
  }

  lemma RenderedNext(m: Values, names: seq<string>, k: nat, end: seq<string>)
    requires k < |names|
    ensures Rendered(m, names, k) + end
         == (if names[k] in m then [EntryLine(names[k], m[names[k]])] else []) + (Rendered(m, names, k + 1) + end)
  {
  }

  lemma {:induction false} ReadsRendered(m: Values, names: seq<string>, k: nat)
    requires k <= |names| && ValidValues(names, m) && CleanNames(names)
    ensures StrictLines(names, Rendered(m, names, k) + [""], Under(m, names, k)) == Some(m)
    decreases |names| - k
  {
    if k == |names| {
      assert names[..k] == names && Under(m, names, k) == m;
      assert [] + [""] == [""];
      ReadsEnd(names, m);
    } else {
      var rest := Rendered(m, names, k + 1) + [""];
      RenderedNext(m, names, k, [""]);
      UnderNext(m, names, k);
      ReadsRendered(m, names, k + 1);
      if names[k] in m {
        ReadsNext(names, names[k], m[names[k]], rest, Under(m, names, k));
      } else {
        assert [] + rest == rest;
      }
    }
  }

  lemma {:induction false} RenderedLines(m: Values, names: seq<string>, k: nat)
    requires k <= |names| && ValidValues(names, m) && CleanNames(names)
    ensures forall line | line in Rendered(m, names, k) :: '\n' !in line
    decreases |names| - k
  {
    if k < |names| {
      RenderedLines(m, names, k + 1);
      if names[k] in m {
        EntryHasNoSpace(names[k], m[names[k]]);
      }
    }
  }

  /** Parsing the rendered file gives back every valid map. */
  lemma RoundTrip(names: seq<string>, m: Values)
    requires ValidValues(names, m) && CleanNames(names)
    ensures ParseStrict(names, FileText(names, m)) == Some(m)
  {
    var lines := Rendered(m, names, 0);
    RenderedLines(m, names, 0);
    SplitUnlines(lines, "");
    assert FileText(names, m) + "" == FileText(names, m);
    assert Split("", '\n') == [""];
    ReadsRendered(m, names, 0);
    assert Under(m, names, 0) == map[];
  }

  // ---- the lenient parser agrees wherever the strict one accepts -------------------------

  lemma TrimTail(line: string, c: char)
    requires IsSpace(c)
    ensures TrimSpace(line + [c]) == TrimSpace(line)
  {
    var w, v := TrimSplits(IsSpace, line);
    var core := TrimSpace(line);
    Reassociate(w + core, v, [c]);
    TrimPadded(IsSpace, w, core, v + [c]);
  }

  lemma TrimCr(raw: string)
    ensures TrimSpace(raw) == TrimSpace(StripCr(raw))
  {
    if StripCr(raw) != raw {
      assert raw == StripCr(raw) + ['\r'];
      TrimTail(StripCr(raw), '\r');
    }
  }

  lemma TrimLeftTrim(s: string)
    ensures TrimSpace(TrimLeft(IsSpace, s)) == TrimSpace(s)
  {
    var core := TrimLeft(IsSpace, s);
    assert Leading(IsSpace, core, 0) == 0;
    assert TrimLeft(IsSpace, core) == core;
  }

  /** An assignment line is trimmed at the left of its name only. */
  lemma TrimAssignment(name: string, value: string)
    requires value != "" && !IsSpace(value[|value| - 1])
    ensures TrimSpace(name + ['='] + value) == TrimLeft(IsSpace, name) + ['='] + value
  {
    var core := TrimLeft(IsSpace, name);
    var w := name[..|name| - |core|];
    var rest := core + ['='] + value;
    assert name == w + core;
    assert w + rest + [] == name + ['='] + value;
    assert rest[0] == (if core != [] then core[0] else '=') && rest[|rest| - 1] == value[|value| - 1];
    TrimPadded(IsSpace, w, rest, []);
  }

  lemma TrimLeftKeeps(s: string, c: char)
    requires c !in s
    ensures c !in TrimLeft(IsSpace, s)
  {
    var core := TrimLeft(IsSpace, s);
    assert forall k | 0 <= k < |core| :: core[k] == s[k + |s| - |core|];
  }

  lemma LegacyReads(names: seq<string>, raw: string, core: string, value: string)
    requires TrimSpace(raw) == core + ['='] + value && !IsComment(TrimSpace(raw))
    requires '=' !in core && ValidValue(value) && TrimSpace(core) in names
    ensures LegacyLine(names, raw) == Entry(TrimSpace(core), value)
  {
    var line := core + ['='] + value;
    assert line[..|core|] == core && line[|core| + 1..] == value;
    IndexOfIs(core, '=', value);
    TrimNoSpace(value);
  }

  lemma CutRejoins(line: string, eq: nat)
    requires eq < |line| && line[eq] == '='
    ensures line == line[..eq] + ['='] + line[eq + 1..]
  {
  }

  lemma LinesAgree(names: seq<string>, raw: string)
    requires !StrictLine(names, raw).Reject?
    ensures LegacyLine(names, raw) == StrictLine(names, raw)
  {
    TrimCr(raw);
    var line := StripCr(raw);
    if !IsComment(TrimSpace(line)) {
      var eq := IndexOf(line, '=');
      var name, value := line[..eq], line[eq + 1..];
      CutRejoins(line, eq);
      assert value[|value| - 1] in value;
      TrimAssignment(name, value);
      TrimLeftKeeps(name, '=');
      TrimLeftTrim(name);
      LegacyReads(names, raw, TrimLeft(IsSpace, name), value);
    }
  }

  lemma {:induction false} FoldsAgree(names: seq<string>, lines: seq<string>, values: Values)
    requires StrictLines(names, lines, values).Some?
    ensures LegacyLines(names, lines, values) == StrictLines(names, lines, values)
    decreases |lines|
  {
    if lines != [] {
      var line := StrictLine(names, lines[0]);
      LinesAgree(names, lines[0]);
      FoldsAgree(names, lines[1..], if line.Entry? then values[line.name := line.value] else values);
    }
  }

  /** Whatever the strict parser accepts, the lenient one reads as the same map. */
  lemma StrictImpliesLegacy(names: seq<string>, data: string)
    requires ParseStrict(names, data).Some?
    ensures ParseLegacy(names, data) == ParseStrict(names, data)
  {
    FoldsAgree(names, Split(data, '\n'), map[]);
  }

  lemma {:induction false} LegacyIsValid(names: seq<string>, lines: seq<string>, values: Values)
    requires ValidValues(names, values) && LegacyLines(names, lines, values).Some?
    ensures ValidValues(names, LegacyLines(names, lines, values).value)
    decreases |lines|
  {
    if lines != [] {
      var line := LegacyLine(names, lines[0]);
      LegacyIsValid(names, lines[1..], if line.Entry? then values[line.name := line.value] else values);
    }
  }

  // ---- the bootstrap -----------------------------------------------------------------------

  datatype Bootstrapped = Wrote | Untouched | Failed

  /** `collectRuntimeAuthEnv`. */
  function Collected(names: seq<string>, env: Values): Values {
    map name | name in env && name in names && TrimSpace(env[name]) != "" :: env[name]
  }

  /** Where the first runtime-auth file comes from. */
  function Source(names: seq<string>, legacy: Option<string>, env: Values): Option<Values> {
    if legacy.Some? then ParseLegacy(names, legacy.value) else Some(Collected(names, env))
  }

  /** A file-system error before the new file is renamed into place, or at the
      last change of its mode. */
  datatype Fault = Fine | BeforeRename | AfterRename

  /** There is something to write, and it can be written. */
  predicate Usable(names: seq<string>, legacy: Option<string>, secure: bool, env: Values) {
    if legacy.Some? then secure && ParseLegacy(names, legacy.value).Some?
    else Collected(names, env) != map[] && ValidValues(names, Collected(names, env))
  }

  /** The files of a daemon home; `secure` tells whether the legacy file is a
      regular file with owner-only permissions. */
  class Home {
    var auth: Option<string>
    const legacy: Option<string>
    const secure: bool

    constructor (auth: Option<string>, legacy: Option<string>, secure: bool)
      ensures this.auth == auth && this.legacy == legacy && this.secure == secure
    {
      this.auth, this.legacy, this.secure := auth, legacy, secure;
    }

    /** `writeRuntimeAuthFile`. */
    method Write(names: seq<string>, m: Values, fault: Fault) returns (ok: bool)
      modifies this
      ensures ok == (Renders(m, names) && fault.Fine?)
      ensures auth == if Renders(m, names) && !fault.BeforeRename? then Some(FileText(names, m)) else old(auth)
    {
      var body := Render(names, m);
      if body.None? || fault.BeforeRename? {
        return false;
      }
      auth := body;
      return fault.Fine?;
    }

    /** An existing file is never rewritten; a new one parses to the legacy map, or
        without a legacy file to the collected environment, even when the last step
        of writing it fails and the call reports so. */
    method Bootstrap(names: seq<string>, env: Values, fault: Fault) returns (r: Bootstrapped)
      requires CleanNames(names)
      modifies this
      ensures old(auth).Some? ==> r.Untouched?
      ensures old(auth).None? ==> (r.Untouched? <==> legacy.None? && Collected(names, env) == map[])
      ensures r.Wrote? <==> old(auth).None? && Usable(names, legacy, secure, env) && fault.Fine?
      ensures auth == old(auth) || (old(auth).None? && auth.Some?)
      ensures auth != old(auth) <==> old(auth).None? && Usable(names, legacy, secure, env) && !fault.BeforeRename?
      ensures auth != old(auth) ==> ParseStrict(names, auth.value) == Source(names, legacy, env)
    {
      if auth.Some? {
        return Untouched;
      }
      if legacy.Some? {
        if !secure {
          return Failed;
        }
        var m := ParseLegacyFile(names, legacy.value);
        if m.None? {
          return Failed;
        }
        LegacyIsValid(names, Split(legacy.value, '\n'), map[]);
        RoundTrip(names, m.value);
        var ok := Write(names, m.value, fault);
        return if ok then Wrote else Failed;
      }
      var ambient := Collected(names, env);
      if ambient == map[] {
        return Untouched;
      }
      RendersIsValid(names, ambient);
      if ValidValues(names, ambient) {
        RoundTrip(names, ambient);
      }
      var ok := Write(names, ambient, fault);
      return if ok then Wrote else Failed;
    }
  }

  lemma RendersIsValid(names: seq<string>, m: Values)
    requires forall name | name in m :: name in names
    ensures Renders(m, names) <==> ValidValues(names, m)
  {
    if Renders(m, names) {
      forall name | name in m
        ensures ValidValue(m[name])
      {
        var k :| 0 <= k < |names| && names[k] == name;
      }
    }
  }
}
