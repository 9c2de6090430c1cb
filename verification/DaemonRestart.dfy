/** What survives the trip of a daemon configuration through the child's argument
    list, a restart's overlay and the parser. */
module DaemonRestart {
  import opened Basics
  import opened Text
  import opened DaemonArgs

  // ---- parsing a list of flags -------------------------------------------------------

  /** Flags as the daemon prints them: switches bare, the others with a value that parses. */
  predicate Printable(lib: Library, item: Item) {
    && item.Switch? == IsSwitch(item.flag)
    && !item.flag.Root? && !item.flag.Parallel?
    && (item.flag.Poll? ==> lib.parseDuration(item.value).Some?)
    && (item.flag.Workers? ==> lib.parseInt(item.value).Some?)
  }

  predicate AllPrintable(lib: Library, items: seq<Item>) {
    forall item | item in items :: Printable(lib, item)
  }

  lemma NamesAreClean(flag: Flag)
    ensures var n := Name(flag); n != "" && n[0] != '-' && '=' !in n && Lookup(n) == Some(flag)
  {
  }

  function Take(lib: Library, f: Flags, item: Item): Flags
    requires Printable(lib, item)
  {
    if item.Switch? then TurnOn(f, item.flag) else Assign(lib, f, item.flag, item.value).value
  }

  lemma ParseItem(lib: Library, item: Item, rest: seq<string>, f: Flags)
    requires Printable(lib, item)
    ensures ParseFlags(lib, Spell(item) + rest, f) == ParseFlags(lib, rest, Take(lib, f, item))
  {
    var name := Name(item.flag);
    NamesAreClean(item.flag);
    var args := Spell(item) + rest;
    assert args[0] == Dashed(name) && args[0][2..] == name;
    assert name[..|name|] == name;
    if item.Switch? {
      assert args[1..] == rest;
    } else {
      assert args[1] == item.value && args[2..] == rest;
    }
  }

  function TakeAll(lib: Library, f: Flags, items: seq<Item>): Flags
    requires AllPrintable(lib, items)
    decreases |items|
  {
    if items == [] then f else TakeAll(lib, Take(lib, f, items[0]), items[1..])
  }

  lemma {:induction false} ParsePrefix(lib: Library, items: seq<Item>, rest: seq<string>, f: Flags)
    requires AllPrintable(lib, items)
    ensures ParseFlags(lib, Render(items) + rest, f) == ParseFlags(lib, rest, TakeAll(lib, f, items))
    decreases |items|
  {
    if items == [] {
      assert Render(items) + rest == rest;
    } else {
      var more := Render(items[1..]) + rest;
      assert Render(items) + rest == Spell(items[0]) + more;
      ParseItem(lib, items[0], more, f);
      ParsePrefix(lib, items[1..], rest, Take(lib, f, items[0]));
    }
  }

  lemma ParseItems(lib: Library, items: seq<Item>, f: Flags)
    requires AllPrintable(lib, items)
    ensures ParseFlags(lib, Render(items), f) == Ok((TakeAll(lib, f, items), []))
  {
    assert Render(items) + [] == Render(items);
    ParsePrefix(lib, items, [], f);
  }

  /** The last value given to a flag; a switch counts as "". */
  function Latest(items: seq<Item>, flag: Flag): Option<string>
    decreases |items|
  {
    if items == [] then None
    else
      var last := items[|items| - 1];
      if last.flag == flag then Some(if last.Pair? then last.value else "")
      else Latest(items[..|items| - 1], flag)
  }

  function Or<T>(a: Option<T>, b: T): T { if a.Some? then a.value else b }

  /** The configuration that a list of flags describes. */
  function Reading(lib: Library, items: seq<Item>): Config
  {
    var scheduler := Latest(items, Scheduler);
    var poll, workers := Latest(items, Poll), Latest(items, Workers);
    var n := if workers.Some? then Or(lib.parseInt(workers.value), 0) else DEFAULTS.workers;
    Config(Or(Latest(items, Home), ""), Or(Latest(items, Repo), ""), Or(Latest(items, Session), ""),
           if poll.Some? then Or(lib.parseDuration(poll.value), 0) else DEFAULTS.poll, n,
           Latest(items, Reviews).Some?, Latest(items, Issues).Some?,
           AutoSelect(Or(scheduler, "barrier"), n, scheduler.Some?))
  }

  /** What the parsed flags hold for a flag whose last value is `last`. */
  predicate Holds(lib: Library, f: Flags, flag: Flag, last: Option<string>) {
    match flag
    case Home => f.home == Or(last, "")
    case Repo => f.repo == Or(last, "")
    case Session => f.session == Or(last, "")
    case Scheduler => f.scheduler == Or(last, "barrier") && (Scheduler in f.seen <==> last.Some?)
    case Reviews => f.reviews <==> last.Some?
    case Issues => f.issues <==> last.Some?
    case Poll => f.poll == if last.Some? then Or(lib.parseDuration(last.value), 0) else DEFAULTS.poll
    case Workers => f.workers == if last.Some? then Or(lib.parseInt(last.value), 0) else DEFAULTS.workers
    case Parallel => Parallel !in f.seen
    case Root => true
  }

  predicate Reads(lib: Library, items: seq<Item>, f: Flags) {
    forall flag :: Holds(lib, f, flag, Latest(items, flag))
  }

  function Value(item: Item): string { if item.Pair? then item.value else "" }

  lemma LatestSnoc(items: seq<Item>, item: Item, flag: Flag)
    ensures Latest(items + [item], flag) == if item.flag == flag then Some(Value(item)) else Latest(items, flag)
  {
    var more := items + [item];
    assert more[|more| - 1] == item && more[..|more| - 1] == items;
  }

  lemma TakeHolds(lib: Library, f: Flags, item: Item, flag: Flag, last: Option<string>)
    requires Printable(lib, item) && Holds(lib, f, flag, last)
    ensures Holds(lib, Take(lib, f, item), flag, if item.flag == flag then Some(Value(item)) else last)
  {
  }

  lemma TakeReads(lib: Library, done: seq<Item>, item: Item, f: Flags)
    requires Printable(lib, item) && Reads(lib, done, f)
    ensures Reads(lib, done + [item], Take(lib, f, item))
  {
    forall flag
      ensures Holds(lib, Take(lib, f, item), flag, Latest(done + [item], flag))
    {
      LatestSnoc(done, item, flag);
      TakeHolds(lib, f, item, flag, Latest(done, flag));
    }
  }

  lemma {:induction false} TakeAllReads(lib: Library, done: seq<Item>, items: seq<Item>, f: Flags)
    requires AllPrintable(lib, items) && Reads(lib, done, f)
    ensures Reads(lib, done + items, TakeAll(lib, f, items))
    decreases |items|
  {
    if items == [] {
      assert done + items == done;
    } else {
      TakeReads(lib, done, items[0], f);
      TakeAllReads(lib, done + [items[0]], items[1..], Take(lib, f, items[0]));
      assert done + [items[0]] + items[1..] == done + items;
    }
  }

  lemma HoldsReading(lib: Library, items: seq<Item>, f: Flags)
    requires Reads(lib, items, f)
    ensures Finish(f) == (if Valid(Reading(lib, items)) then Ok(Parsed(Reading(lib, items), f.seen)) else Bad)
  {
    assert Holds(lib, f, Home, Latest(items, Home)) && Holds(lib, f, Repo, Latest(items, Repo));
    assert Holds(lib, f, Session, Latest(items, Session)) && Holds(lib, f, Scheduler, Latest(items, Scheduler));
    assert Holds(lib, f, Reviews, Latest(items, Reviews)) && Holds(lib, f, Issues, Latest(items, Issues));
    assert Holds(lib, f, Poll, Latest(items, Poll)) && Holds(lib, f, Workers, Latest(items, Workers));
    assert Holds(lib, f, Parallel, Latest(items, Parallel));
  }

  /** Parsing printed flags reads the last value of each. */
  lemma ParseReads(lib: Library, items: seq<Item>)
    requires AllPrintable(lib, items)
    ensures var r := Parse(lib, Render(items));
            if Valid(Reading(lib, items)) then r.Ok? && r.value.config == Reading(lib, items) else r.Bad?
  {
    ParseItems(lib, items, DEFAULTS);
    assert Reads(lib, [], DEFAULTS);
    assert [] + items == items;
    TakeAllReads(lib, [], items, DEFAULTS);
    HoldsReading(lib, items, TakeAll(lib, DEFAULTS, items));
  }

  // ---- the child's arguments -----------------------------------------------------------

  /** What the child's arguments say about each flag. */
  function Printed(lib: Library, c: Config, flag: Flag): Option<string> {
    match flag
    case Poll => Some(lib.showDuration(c.poll))
    case Workers => Some(lib.itoa(c.workers))
    case Home => if c.home != "" then Some(c.home) else None
    case Repo => if c.repo != "" then Some(c.repo) else None
    case Session => if c.session != "" then Some(c.session) else None
    case Reviews => if c.reviews then Some("") else None
    case Issues => if c.issues then Some("") else None
    case Scheduler => if IsPool(c.scheduler) then Some("pool") else None
    case Root => None
    case Parallel => None
  }

  lemma LatestWhen(items: seq<Item>, c: bool, item: Item, flag: Flag) returns (more: seq<Item>)
    ensures more == items + When(c, item)
    ensures Latest(more, flag) == if c && item.flag == flag then Some(Value(item)) else Latest(items, flag)
  {
    more := items + When(c, item);
    if c {
      LatestSnoc(items, item, flag);
    } else {
      assert more == items;
    }
  }

  lemma LatestAlways(lib: Library, c: Config, flag: Flag)
    ensures Latest(Always(lib, c), flag)
         == if flag.Poll? || flag.Workers? then Printed(lib, c, flag) else None
  {
    var poll, workers := Pair(Poll, lib.showDuration(c.poll)), Pair(Workers, lib.itoa(c.workers));
    assert [] + [poll] == [poll] && [poll] + [workers] == Always(lib, c);
    LatestSnoc([], poll, flag);
    LatestSnoc([poll], workers, flag);
  }

  lemma PlacesPrint(lib: Library, c: Config, flag: Flag) returns (items: seq<Item>)
    ensures items == Always(lib, c) + When(c.home != "", Pair(Home, c.home)) + When(c.repo != "", Pair(Repo, c.repo))
                     + When(c.session != "", Pair(Session, c.session))
    ensures Latest(items, flag)
         == if flag.Reviews? || flag.Issues? || flag.Scheduler? then None else Printed(lib, c, flag)
  {
    LatestAlways(lib, c, flag);
    items := LatestWhen(Always(lib, c), c.home != "", Pair(Home, c.home), flag);
    items := LatestWhen(items, c.repo != "", Pair(Repo, c.repo), flag);
    items := LatestWhen(items, c.session != "", Pair(Session, c.session), flag);
  }

  lemma ChildPrints(lib: Library, c: Config, flag: Flag)
    ensures Latest(ChildItems(lib, c), flag) == Printed(lib, c, flag)
  {
    var items := PlacesPrint(lib, c, flag);
    items := LatestWhen(items, c.reviews, Switch(Reviews), flag);
    items := LatestWhen(items, c.issues, Switch(Issues), flag);
    items := LatestWhen(items, IsPool(c.scheduler), Pair(Scheduler, "pool"), flag);
  }

  predicate FromChild(lib: Library, c: Config, item: Item) {
    Printed(lib, c, item.flag) == Some(Value(item)) && item.Switch? == IsSwitch(item.flag)
  }

  lemma FromWhen(lib: Library, c: Config, items: seq<Item>, on: bool, item: Item) returns (more: seq<Item>)
    requires forall i | i in items :: FromChild(lib, c, i)
    requires on ==> FromChild(lib, c, item)
    ensures more == items + When(on, item)
    ensures forall i | i in more :: FromChild(lib, c, i)
  {
    more := items + When(on, item);
  }

  lemma ChildItem(lib: Library, c: Config)
    ensures forall item | item in ChildItems(lib, c) :: FromChild(lib, c, item)
  {
    var items := FromWhen(lib, c, Always(lib, c), c.home != "", Pair(Home, c.home));
    items := FromWhen(lib, c, items, c.repo != "", Pair(Repo, c.repo));
    items := FromWhen(lib, c, items, c.session != "", Pair(Session, c.session));
    items := FromWhen(lib, c, items, c.reviews, Switch(Reviews));
    items := FromWhen(lib, c, items, c.issues, Switch(Issues));
    items := FromWhen(lib, c, items, IsPool(c.scheduler), Pair(Scheduler, "pool"));
  }

  lemma FromChildPrintable(lib: Library, c: Config, item: Item)
    requires Lawful(lib) && c.poll > 0 && c.workers > 0 && FromChild(lib, c, item)
    ensures Printable(lib, item)
  {
  }

  lemma ChildIsPrintable(lib: Library, c: Config)
    requires Lawful(lib) && c.poll > 0 && c.workers > 0
    ensures AllPrintable(lib, ChildItems(lib, c))
  {
    ChildItem(lib, c);
    forall item | item in ChildItems(lib, c)
      ensures Printable(lib, item)
    {
      FromChildPrintable(lib, c, item);
    }
  }

  /** The mode a child ends up with. */
  function Survivor(c: Config): string {
    if IsPool(c.scheduler) || c.workers > 1 then "pool" else "barrier"
  }

  lemma PoolIsPool()
    ensures IsPool("pool") && !IsPool("barrier") && IsMode("pool") && IsMode("barrier") && IsMode("")
  {
    TrimTrimmed(IsSpace, "pool");
    TrimTrimmed(IsSpace, "barrier");
    TrimTrimmed(IsSpace, "");
  }

  lemma ChildReads(lib: Library, c: Config)
    requires Lawful(lib) && Valid(c)
    ensures Reading(lib, ChildItems(lib, c)) == c.(scheduler := Survivor(c))
  {
    PoolIsPool();
    forall flag
      ensures Latest(ChildItems(lib, c), flag) == Printed(lib, c, flag)
    {
      ChildPrints(lib, c, flag);
    }
  }

  // ---- recovering start arguments -------------------------------------------------------

  lemma {:induction false} KeptIff(args: seq<string>)
    ensures DRY_RUN !in Kept(args) && |Kept(args)| <= |args|
    ensures Kept(args) == args <==> DRY_RUN !in args
    decreases |args|
  {
    if args != [] {
      KeptIff(args[1..]);
      assert args == [args[0]] + args[1..];
    }
  }

  lemma {:induction false} KeptAppend(a: seq<string>, b: seq<string>)
    ensures Kept(a + b) == Kept(a) + Kept(b)
    decreases |a|
  {
    if a == [] {
      assert a + b == b;
    } else {
      assert (a + b)[1..] == a[1..] + b;
      KeptAppend(a[1..], b);
    }
  }

  /** Every dry-run flag is dropped, and each other argument stays in place. */
  lemma KeptBetween(a: seq<string>, arg: string, b: seq<string>)
    ensures Kept(a + [arg] + b) == Kept(a) + (if arg == "--dry-run" then [] else [arg]) + Kept(b)
  {
    KeptAppend(a + [arg], b);
    KeptAppend(a, [arg]);
    assert [arg][1..] == [] && Kept([arg]) == (if arg == "--dry-run" then [] else [arg]) + Kept([]);
  }

  /** From the arguments of a running daemon its command is dropped, if it is the two
      words it should be. */
  lemma StartArgsIff(args: seq<string>)
    ensures StartArgs(["daemon", "run"] + args) == Kept(args)
    ensures !(["daemon", "run"] <= args) ==> StartArgs(args) == Kept(args)
  {
    assert (["daemon", "run"] + args)[2..] == args;
    if |args| >= 2 && args[0] == "daemon" && args[1] == "run" {
      assert args[..2] == ["daemon", "run"];
    }
  }

  lemma {:induction false} InRender(items: seq<Item>, arg: string)
    ensures arg in Render(items) <==> exists item :: item in items && arg in Spell(item)
    decreases |items|
  {
    if items != [] {
      InRender(items[1..], arg);
      assert items == [items[0]] + items[1..];
    }
  }

  lemma {:induction false} TrimKeepsChars(s: string, c: char)
    ensures c in TrimSpace(s) ==> c in s
  {
    var core := TrimLeft(IsSpace, s);
    assert forall k | 0 <= k < |core| :: core[k] == s[k + |s| - |core|];
  }

  lemma RepositoryHasSlash(repo: string)
    requires IsRepository(repo)
    ensures '/' in repo
  {
    TrimKeepsChars(repo, '/');
  }

  lemma NoFlagIsDryRun(flag: Flag)
    ensures Dashed(Name(flag)) != DRY_RUN
  {
    assert Lookup("dry-run") == None;
    NamesAreClean(flag);
    assert Dashed(Name(flag))[2..] == Name(flag) && DRY_RUN[2..] == "dry-run";
  }

  lemma NotDryRun(s: string)
    requires NotAFlag(s) || '/' in s || s == ""
    ensures s != DRY_RUN
  {
  }

  lemma ItemDryRun(lib: Library, c: Config, item: Item)
    requires FromChild(lib, c, item)
    requires NotAFlag(lib.showDuration(c.poll)) && NotAFlag(lib.itoa(c.workers)) && (c.repo == "" || '/' in c.repo)
    ensures DRY_RUN in Spell(item) ==> c.home == DRY_RUN || c.session == DRY_RUN
  {
    NoFlagIsDryRun(item.flag);
    if item.Pair? && !item.flag.Home? && !item.flag.Session? {
      assert NotAFlag("pool");
      NotDryRun(item.value);
    }
  }

  lemma ChildDryRunIff(lib: Library, c: Config)
    requires Lawful(lib) && Valid(c)
    ensures DRY_RUN in Render(ChildItems(lib, c)) <==> c.home == DRY_RUN || c.session == DRY_RUN
  {
    var items := ChildItems(lib, c);
    InRender(items, DRY_RUN);
    ChildItem(lib, c);
    if c.repo != "" {
      RepositoryHasSlash(c.repo);
    }
    forall item | item in items
      ensures DRY_RUN in Spell(item) ==> c.home == DRY_RUN || c.session == DRY_RUN
    {
      ItemDryRun(lib, c, item);
    }
    if c.home == DRY_RUN {
      assert Pair(Home, DRY_RUN) in items;
      assert DRY_RUN in Spell(Pair(Home, DRY_RUN));
    } else if c.session == DRY_RUN {
      assert Pair(Session, DRY_RUN) in items;
      assert DRY_RUN in Spell(Pair(Session, DRY_RUN));
    }
  }

  /** The start arguments recovered from a child are the printed flags, exactly
      when neither the home nor the session is spelt like the dropped flag. */
  lemma RecoveredIff(lib: Library, c: Config)
    requires Lawful(lib) && Valid(c)
    ensures StartArgs(RUN + Render(ChildItems(lib, c))) == Render(ChildItems(lib, c))
       <==> c.home != DRY_RUN && c.session != DRY_RUN
  {
    var flags := Render(ChildItems(lib, c));
    var run := RUN + flags;
    assert run[0] == "daemon" && run[1] == "run" && run[2..] == flags;
    KeptIff(flags);
    ChildDryRunIff(lib, c);
  }

  /** The round trip: the recovered arguments parse to the same settings, up to
      the scheduler mode. */
  lemma RoundTrip(lib: Library, c: Config)
    requires Lawful(lib) && Valid(c) && c.home != DRY_RUN && c.session != DRY_RUN
    ensures var r := Parse(lib, StartArgs(RUN + Render(ChildItems(lib, c))));
            r.Ok? && r.value.config == c.(scheduler := Survivor(c))
  {
    RecoveredIff(lib, c);
    ChildIsPrintable(lib, c);
    ParseReads(lib, ChildItems(lib, c));
    ChildReads(lib, c);
    PoolIsPool();
  }
}
