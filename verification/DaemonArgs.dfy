/** The daemon's start arguments: how a configuration is printed for the child
    process, read back on restart, overlaid with new flags and parsed. */
module DaemonArgs {
  import opened Basics
  import opened Text

  /** The number and duration libraries. Durations are in nanoseconds. */
  datatype Library = Library(
    itoa: int -> string,
    parseInt: string -> Option<int>,
    showDuration: int -> string,
    parseDuration: string -> Option<int>,
    parseBool: string -> Option<bool>)

  predicate NotAFlag(s: string) { s != [] && s[0] != '-' }

  ghost predicate Lawful(lib: Library) {
    && (forall n | n > 0 :: lib.parseInt(lib.itoa(n)) == Some(n) && NotAFlag(lib.itoa(n)))
    && (forall d | d > 0 :: lib.parseDuration(lib.showDuration(d)) == Some(d) && NotAFlag(lib.showDuration(d)))
  }

  // ---- the flag parser -------------------------------------------------------------

  datatype Flag = Home | Repo | Session | Root | Poll | Workers | Reviews | Issues | Scheduler | Parallel

  function Name(flag: Flag): string {
    match flag
    case Home => "home"
    case Repo => "repo"
    case Session => "session"
    case Root => "root"
    case Poll => "poll"
    case Workers => "workers"
    case Reviews => "watch-skillopt-reviews"
    case Issues => "watch-issues"
    case Scheduler => "scheduler"
    case Parallel => "parallel"
  }

  function Lookup(name: string): Option<Flag> {
    if name == "home" then Some(Home) else if name == "repo" then Some(Repo)
    else if name == "session" then Some(Session) else if name == "root" then Some(Root)
    else if name == "poll" then Some(Poll) else if name == "workers" then Some(Workers)
    else if name == "watch-skillopt-reviews" then Some(Reviews)
    else if name == "watch-issues" then Some(Issues)
    else if name == "scheduler" then Some(Scheduler) else if name == "parallel" then Some(Parallel)
    else None
  }

  predicate IsSwitch(flag: Flag) { flag.Reviews? || flag.Issues? }

  datatype Flags = Flags(
    home: string, repo: string, session: string, poll: int, workers: int,
    reviews: bool, issues: bool, scheduler: string, parallel: int, seen: set<Flag>)

  const THIRTY_SECONDS := 30_000_000_000
  const DEFAULTS := Flags("", "", "", THIRTY_SECONDS, 1, false, false, "barrier", 0, {})

  function Assign(lib: Library, f: Flags, flag: Flag, value: string): Option<Flags> {
    var g := f.(seen := f.seen + {flag});
    match flag
    case Home => Some(g.(home := value))
    case Repo => Some(g.(repo := value))
    case Session => Some(g.(session := value))
    case Root => Some(g.(session := value))
    case Scheduler => Some(g.(scheduler := value))
    case Poll =>
      var d := lib.parseDuration(value);
      if d.Some? then Some(g.(poll := d.value)) else None
    case Workers =>
      var n := lib.parseInt(value);
      if n.Some? then Some(g.(workers := n.value)) else None
    case Parallel =>
      var n := lib.parseInt(value);
      if n.Some? then Some(g.(parallel := n.value)) else None
    case Reviews =>
      var b := lib.parseBool(value);
      if b.Some? then Some(g.(reviews := b.value)) else None
    case Issues =>
      var b := lib.parseBool(value);
      if b.Some? then Some(g.(issues := b.value)) else None
  }

  /** A switch without a value. */
  function TurnOn(f: Flags, flag: Flag): Flags {
    var g := f.(seen := f.seen + {flag});
    if flag.Issues? then g.(issues := true) else g.(reviews := true)
  }

  datatype Outcome<+T> = Ok(value: T) | Help | Bad

  /** `flag.FlagSet.Parse`: the flags, and the positional rest. */
  function ParseFlags(lib: Library, args: seq<string>, f: Flags): Outcome<(Flags, seq<string>)>
    decreases |args|
  {
    if args == [] || |args[0]| < 2 || args[0][0] != '-' then Ok((f, args))
    else if args[0] == "--" then Ok((f, args[1..]))
    else
      var body := if args[0][1] == '-' then args[0][2..] else args[0][1..];
      var eq := IndexOf(body, '=');
      var name := body[..eq];
      var flag := Lookup(name);
      if name == "" || name[0] == '-' then Bad
      else if flag.None? then if name == "help" || name == "h" then Help else Bad
      else if eq < |body| then
        var next := Assign(lib, f, flag.value, body[eq + 1..]);
        if next.None? then Bad else ParseFlags(lib, args[1..], next.value)
      else if IsSwitch(flag.value) then ParseFlags(lib, args[1..], TurnOn(f, flag.value))
      else if |args| < 2 then Bad
      else
        var next := Assign(lib, f, flag.value, args[1]);
        if next.None? then Bad else ParseFlags(lib, args[2..], next.value)
  }

  // ---- parseDaemonStartConfig ---------------------------------------------------------

  datatype Config = Config(
    home: string, repo: string, session: string, poll: int, workers: int,
    reviews: bool, issues: bool, scheduler: string)

  /** A configuration and the flags that were given explicitly. */
  datatype Parsed = Parsed(config: Config, explicit: set<Flag>)

  predicate IsPool(mode: string) { TrimSpace(mode) == "pool" }

  predicate IsMode(mode: string) { IsPool(mode) || TrimSpace(mode) == "" || TrimSpace(mode) == "barrier" }

  predicate IsRepository(repo: string) {
    var parts := Split(TrimSpace(repo), '/');
    |parts| == 2 && parts[0] != "" && parts[1] != ""
  }

  function AutoSelect(scheduler: string, workers: int, explicit: bool): string {
    if !explicit && workers > 1 && !IsPool(scheduler) then "pool" else scheduler
  }

  predicate Valid(c: Config) {
    (c.repo == "" || IsRepository(c.repo)) && c.poll > 0 && c.workers > 0 && IsMode(c.scheduler)
  }

  function Finish(f: Flags): Outcome<Parsed> {
    var parallel := Parallel in f.seen;
    if parallel && (Workers in f.seen || Scheduler in f.seen || f.parallel <= 0) then Bad
    else
      var explicit := if parallel then f.seen + {Workers, Scheduler} else f.seen;
      var workers := if parallel then f.parallel else f.workers;
      var scheduler := AutoSelect(if parallel then "pool" else f.scheduler, workers, Scheduler in explicit);
      var c := Config(f.home, f.repo, f.session, f.poll, workers, f.reviews, f.issues, scheduler);
      if Valid(c) then Ok(Parsed(c, explicit)) else Bad
  }

  function Parse(lib: Library, args: seq<string>): Outcome<Parsed> {
    var r := ParseFlags(lib, args, DEFAULTS);
    if r.Ok? then if r.value.1 != [] then Bad else Finish(r.value.0)
    else if r.Help? then Help else Bad
  }

  // ---- printing, recovering and editing arguments ---------------------------------------

  function Dashed(name: string): string { "--" + name }

  method ChildArgs(lib: Library, c: Config) returns (args: seq<string>)
    ensures args == RUN + Render(ChildItems(lib, c))
  {
    args := ["daemon", "run", "--poll", lib.showDuration(c.poll), "--workers", lib.itoa(c.workers)];
    DashedNames();
    ghost var items := Always(lib, c);
    StartsWithTwo(args, items[0], items[1]);
    items := Grow(args, items, c.home != "", Pair(Home, c.home));
    if c.home != "" {
      args := args + ["--home", c.home];
    }
    items := Grow(args, items, c.repo != "", Pair(Repo, c.repo));
    if c.repo != "" {
      args := args + ["--repo", c.repo];
    }
    items := Grow(args, items, c.session != "", Pair(Session, c.session));
    if c.session != "" {
      args := args + ["--session", c.session];
    }
    items := Grow(args, items, c.reviews, Switch(Reviews));
    if c.reviews {
      args := args + ["--watch-skillopt-reviews"];
    }
    items := Grow(args, items, c.issues, Switch(Issues));
    if c.issues {
      args := args + ["--watch-issues"];
    }
    items := Grow(args, items, IsPool(c.scheduler), Pair(Scheduler, "pool"));
    if IsPool(c.scheduler) {
      args := args + ["--scheduler", "pool"];
    }
  }

  const DRY_RUN := "--dry-run"

  function Kept(args: seq<string>): seq<string> {
    if args == [] then []
    else (if args[0] == DRY_RUN then [] else [args[0]]) + Kept(args[1..])
  }

  function StartArgs(args: seq<string>): seq<string> {
    Kept(if |args| >= 2 && args[0] == "daemon" && args[1] == "run" then args[2..] else args)
  }

  method StartArgsFromRunArgs(args: seq<string>) returns (start: seq<string>)
    ensures start == StartArgs(args)
  {
    var rest := args;
    if |rest| >= 2 && rest[0] == "daemon" && rest[1] == "run" {
      rest := rest[2..];
    }
    start := [];
    for i := 0 to |rest|
      invariant start + Kept(rest[i..]) == Kept(rest)
    {
      assert rest[i..][1..] == rest[i + 1..];
      if rest[i] == DRY_RUN {
        continue;
      }
      assert start + ([rest[i]] + Kept(rest[i + 1..])) == start + [rest[i]] + Kept(rest[i + 1..]);
      start := start + [rest[i]];
    }
  }

  predicate Names(arg: string, name: string) {
    arg == Dashed(name) || Dashed(name) + "=" <= arg
  }

  /** What the flag editor keeps. */
  function Cleaned(args: seq<string>, name: string): seq<string>
    decreases |args|
  {
    if args == [] then []
    else if args[0] == Dashed(name) then Cleaned(if |args| > 1 then args[2..] else [], name)
    else if Names(args[0], name) then Cleaned(args[1..], name)
    else [args[0]] + Cleaned(args[1..], name)
  }

  function WithFlag(args: seq<string>, name: string, value: string): seq<string> {
    Cleaned(args, name) + if value == "" then [] else [Dashed(name), value]
  }

  method WithDaemonFlagArg(args: seq<string>, name: string, value: string) returns (r: seq<string>)
    ensures r == WithFlag(args, name, value)
  {
    var cleaned := [];
    var i := 0;
    while i < |args|
      invariant i <= |args| + 1
      invariant cleaned + Cleaned(if i <= |args| then args[i..] else [], name) == Cleaned(args, name)
    {
      assert args[i..][1..] == args[i + 1..];
      assert i + 2 <= |args| ==> args[i..][2..] == args[i + 2..];
      if args[i] == Dashed(name) {
        i := i + 1;
      } else if Dashed(name) + "=" <= args[i] {
      } else {
        cleaned := cleaned + [args[i]];
      }
      i := i + 1;
    }
    return if value == "" then cleaned else cleaned + [Dashed(name), value];
  }

  function CleanedSwitch(args: seq<string>, name: string): seq<string> {
    if args == [] then []
    else (if Names(args[0], name) then [] else [args[0]]) + CleanedSwitch(args[1..], name)
  }

  function WithSwitch(args: seq<string>, name: string, enabled: bool): seq<string> {
    CleanedSwitch(args, name) + if enabled then [Dashed(name)] else []
  }

  /** Reading one more argument, behind those that are kept. */
  lemma CleanedNext(args: seq<string>, i: nat, name: string, cleaned: seq<string>)
    requires i < |args|
    ensures cleaned + CleanedSwitch(args[i..], name)
         == (if Names(args[i], name) then cleaned else cleaned + [args[i]]) + CleanedSwitch(args[i + 1..], name)
  {
    assert args[i..][1..] == args[i + 1..] && args[i..][0] == args[i];
    assert [] + CleanedSwitch(args[i + 1..], name) == CleanedSwitch(args[i + 1..], name);
    Reassociate(cleaned, [args[i]], CleanedSwitch(args[i + 1..], name));
  }

  method WithDaemonBoolFlagArg(args: seq<string>, name: string, enabled: bool) returns (r: seq<string>)
    ensures r == WithSwitch(args, name, enabled)
  {
    var cleaned := [];
    for i := 0 to |args|
      invariant cleaned + CleanedSwitch(args[i..], name) == CleanedSwitch(args, name)
    {
      CleanedNext(args, i, name, cleaned);
      if args[i] == Dashed(name) || Dashed(name) + "=" <= args[i] {
        continue;
      }
      cleaned := cleaned + [args[i]];
    }
    return if enabled then cleaned + [Dashed(name)] else cleaned;
  }

  // ---- arguments as a list of flags -----------------------------------------------------

  datatype Item = Pair(flag: Flag, value: string) | Switch(flag: Flag)

  function Spell(item: Item): seq<string> {
    if item.Pair? then [Dashed(Name(item.flag)), item.value] else [Dashed(Name(item.flag))]
  }

  function Render(items: seq<Item>): seq<string> {
    if items == [] then [] else Spell(items[0]) + Render(items[1..])
  }

  lemma {:induction false} RenderAppend(a: seq<Item>, b: seq<Item>)
    ensures Render(a + b) == Render(a) + Render(b)
    decreases |a|
  {
    if a == [] {
      assert a + b == b;
    } else {
      assert (a + b)[1..] == a[1..] + b;
      RenderAppend(a[1..], b);
    }
  }

  function When(c: bool, item: Item): seq<Item> { if c then [item] else [] }

  function Always(lib: Library, c: Config): seq<Item> {
    [Pair(Poll, lib.showDuration(c.poll)), Pair(Workers, lib.itoa(c.workers))]
  }

  function ChildItems(lib: Library, c: Config): seq<Item> {
    Always(lib, c)
    + When(c.home != "", Pair(Home, c.home))
    + When(c.repo != "", Pair(Repo, c.repo))
    + When(c.session != "", Pair(Session, c.session))
    + When(c.reviews, Switch(Reviews))
    + When(c.issues, Switch(Issues))
    + When(IsPool(c.scheduler), Pair(Scheduler, "pool"))
  }

  lemma RenderTwo(a: Item, b: Item)
    ensures Render([a, b]) == Spell(a) + Spell(b)
  {
    assert [a, b][1..] == [b] && [b][1..] == [];
    assert Render([b]) == Spell(b) + Render([]);
  }

  const RUN := ["daemon", "run"]

  lemma StartsWithTwo(args: seq<string>, a: Item, b: Item)
    requires args == RUN + (Spell(a) + Spell(b))
    ensures args == RUN + Render([a, b])
  {
    RenderTwo(a, b);
  }

  /** One more optional flag at the end of the child arguments. */
  lemma Grow(args: seq<string>, items: seq<Item>, c: bool, item: Item) returns (more: seq<Item>)
    requires args == RUN + Render(items)
    ensures more == items + When(c, item)
    ensures (if c then args + Spell(item) else args) == RUN + Render(more)
  {
    more := items + When(c, item);
    RenderAppend(items, When(c, item));
    assert [item][1..] == [];
    assert Render([item]) == Spell(item) + Render([]);
    assert RUN + Render(items) + Spell(item) == RUN + (Render(items) + Spell(item));
  }

  lemma DashedNames()
    ensures Dashed(Name(Poll)) == "--poll" && Dashed(Name(Workers)) == "--workers" && Dashed(Name(Home)) == "--home"
    ensures Dashed(Name(Repo)) == "--repo" && Dashed(Name(Session)) == "--session"
    ensures Dashed(Name(Scheduler)) == "--scheduler"
    ensures Dashed(Name(Reviews)) == "--watch-skillopt-reviews" && Dashed(Name(Issues)) == "--watch-issues"
  {
  }
}
