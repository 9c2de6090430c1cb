/** Exactly when a daemon's arguments, recovered from its child process, parse to
    the configuration they were printed from. */
module DaemonRoundTrip {
  import opened DaemonArgs
  import opened DaemonMisread
  import opened DaemonRestart
  import opened Text

  // ---- the child's arguments, from the texts on ------------------------------------------

  /** What is printed after the three texts. */
  function Tail(c: Config): seq<Item> {
    When(c.reviews, Switch(Reviews))
    + (When(c.issues, Switch(Issues)) + When(IsPool(c.scheduler), Pair(Scheduler, "pool")))
  }

  function TextItem(g: Flag, value: string): seq<Item> { When(value != "", Pair(g, value)) }

  function FromSession(c: Config): seq<Item> { TextItem(Session, c.session) + Tail(c) }

  function FromRepo(c: Config): seq<Item> { TextItem(Repo, c.repo) + FromSession(c) }

  lemma GroupSeven<T>(a: seq<T>, b: seq<T>, c: seq<T>, d: seq<T>, e: seq<T>, f: seq<T>, g: seq<T>)
    ensures a + b + c + d + e + f + g == a + (b + (c + (d + (e + (f + g)))))
  {
    Reassociate(a + b + c + d + e, f, g);
    Reassociate(a + b + c + d, e, f + g);
    Reassociate(a + b + c, d, e + (f + g));
    Reassociate(a + b, c, d + (e + (f + g)));
    Reassociate(a, b, c + (d + (e + (f + g))));
  }

  lemma ChildSplits(lib: Library, c: Config)
    ensures ChildItems(lib, c) == Always(lib, c) + (TextItem(Home, c.home) + FromRepo(c))
  {
    GroupSeven(Always(lib, c), TextItem(Home, c.home), TextItem(Repo, c.repo), TextItem(Session, c.session),
               When(c.reviews, Switch(Reviews)), When(c.issues, Switch(Issues)),
               When(IsPool(c.scheduler), Pair(Scheduler, "pool")));
  }

  lemma RenderWhen(on: bool, item: Item, rest: seq<Item>)
    ensures Render(When(on, item) + rest) == (if on then Spell(item) else []) + Render(rest)
  {
    RenderAppend(When(on, item), rest);
    RenderOne(item);
  }

  lemma TailIsClosed(c: Config)
    ensures Closed(Render(Tail(c)))
  {
    DashedNames();
    var mode := When(IsPool(c.scheduler), Pair(Scheduler, "pool"));
    RenderWhen(IsPool(c.scheduler), Pair(Scheduler, "pool"), []);
    assert mode + [] == mode;
    ClosedGrows([]);
    assert Closed(Render(mode)) by {
      assert ["--scheduler", "pool"] + [] == ["--scheduler", "pool"];
    }
    RenderWhen(c.issues, Switch(Issues), mode);
    ClosedWhen(c.issues, "--watch-issues", Render(mode));
    RenderWhen(c.reviews, Switch(Reviews), When(c.issues, Switch(Issues)) + mode);
    ClosedWhen(c.reviews, "--watch-skillopt-reviews", Render(When(c.issues, Switch(Issues)) + mode));
  }

  lemma ClosedWhen(on: bool, arg: string, t: seq<string>)
    requires Closed(t) && arg in {"--watch-skillopt-reviews", "--watch-issues"}
    ensures Closed((if on then [arg] else []) + t)
  {
    ClosedGrows(t);
    assert [] + t == t;
  }

  // ---- what is recovered -------------------------------------------------------------------

  lemma {:induction false} KeptAppend(a: seq<string>, b: seq<string>)
    ensures Kept(a + b) == Kept(a) + Kept(b)
    decreases |a|
  {
    if a == [] {
      assert a + b == b;
    } else {
      assert (a + b)[1..] == a[1..] + b;
      KeptAppend(a[1..], b);
    }
  }

  function PartOf(value: string): Part {
    if value == "" then Gone else if value == DRY_RUN then Lost else Whole
  }

  lemma KeptText(g: Flag, value: string)
    requires IsText(g)
    ensures Kept(Render(TextItem(g, value))) == Words(PartOf(value), g, value)
  {
    RenderOne(Pair(g, value));
    NoFlagIsDryRun(g);
    KeptAppend([Dashed(Name(g))], [value]);
    assert [Dashed(Name(g))] + [value] == [Dashed(Name(g)), value];
    KeptIff([Dashed(Name(g))]);
    if value == DRY_RUN {
      assert [value][1..] == [] && Kept([value]) == [];
    } else {
      KeptIff([value]);
    }
  }

  lemma KeptItem(g: Flag, value: string, rest: seq<Item>)
    requires IsText(g)
    ensures Kept(Render(TextItem(g, value) + rest)) == Words(PartOf(value), g, value) + Kept(Render(rest))
  {
    RenderAppend(TextItem(g, value), rest);
    KeptAppend(Render(TextItem(g, value)), Render(rest));
    KeptText(g, value);
  }

  lemma KeptTail(c: Config)
    ensures Kept(Render(Tail(c))) == Render(Tail(c)) && DRY_RUN !in Render(Tail(c))
  {
    TailIsClosed(c);
    ClosedIsQuiet(Render(Tail(c)));
    KeptIff(Render(Tail(c)));
  }

  lemma KeptAlways(lib: Library, c: Config)
    requires Lawful(lib) && Valid(c)
    ensures Kept(Render(Always(lib, c))) == Render(Always(lib, c))
  {
    RenderTwo(Always(lib, c)[0], Always(lib, c)[1]);
    NoFlagIsDryRun(Poll);
    NoFlagIsDryRun(Workers);
    NotDryRun(lib.showDuration(c.poll));
    NotDryRun(lib.itoa(c.workers));
    KeptIff(Render(Always(lib, c)));
  }

  /** The recovered arguments from the repository on. */
  function Recovered(c: Config): seq<string> {
    Words(PartOf(c.repo), Repo, c.repo) + After(PartOf(c.session), c, Render(Tail(c)), [])
  }

  lemma RecoveredWords(lib: Library, c: Config)
    requires Lawful(lib) && Valid(c)
    ensures StartArgs(RUN + Render(ChildItems(lib, c)))
         == Render(Always(lib, c)) + (Words(PartOf(c.home), Home, c.home) + Recovered(c))
  {
    var flags := Render(ChildItems(lib, c));
    var run := RUN + flags;
    assert run[0] == "daemon" && run[1] == "run" && run[2..] == flags;
    ChildSplits(lib, c);
    var texts := TextItem(Home, c.home) + FromRepo(c);
    RenderAppend(Always(lib, c), texts);
    KeptAppend(Render(Always(lib, c)), Render(texts));
    KeptAlways(lib, c);
    KeptItem(Home, c.home, FromRepo(c));
    KeptItem(Repo, c.repo, FromSession(c));
    KeptItem(Session, c.session, Tail(c));
    KeptTail(c);
    assert Render(Tail(c)) + Render([]) == Render(Tail(c));
  }

  // ---- and how it is parsed ------------------------------------------------------------------

  /** The flags after the two that are always printed. */
  function Opened(lib: Library, c: Config): Flags
    requires AllPrintable(lib, Always(lib, c))
  {
    TakeAll(lib, DEFAULTS, Always(lib, c))
  }

  lemma OpenedIsFresh(lib: Library, c: Config)
    requires AllPrintable(lib, Always(lib, c))
    ensures var f := Opened(lib, c);
            f.home == "" && f.repo == "" && f.session == "" && !f.reviews && !f.issues
  {
    var poll, workers := Always(lib, c)[0], Always(lib, c)[1];
    assert Printable(lib, poll) && Printable(lib, workers);
    assert Always(lib, c)[1..] == [workers] && [workers][1..] == [];
    assert Opened(lib, c) == Take(lib, Take(lib, DEFAULTS, poll), workers) by {
      assert TakeAll(lib, Take(lib, DEFAULTS, poll), [workers]) == Take(lib, Take(lib, DEFAULTS, poll), workers);
    }
  }

  lemma AlwaysPrintable(lib: Library, c: Config)
    requires Lawful(lib) && Valid(c)
    ensures AllPrintable(lib, Always(lib, c))
  {
  }

  /** With the home spelt like the dropped flag. */
  lemma HomeIsLost(lib: Library, c: Config, f: Flags)
    requires Valid(c) && c.home == DRY_RUN && f.repo == "" && f.session == ""
    ensures !Right(ParseFlags(lib, Words(PartOf(c.home), Home, c.home) + Recovered(c), f), c)
  {
    TailIsClosed(c);
    KeptTail(c);
    NoFlagIsDryRun(Session);
    NoFlagIsDryRun(Repo);
    if c.repo != "" {
      RepositoryHasSlash(c.repo);
    }
    TakesRepo(lib, PartOf(c.repo), PartOf(c.session), Render(Tail(c)), [], f, c);
  }

  lemma WordsStep(lib: Library, g: Flag, value: string, rest: seq<string>, f: Flags)
      returns (next: Flags)
    requires IsText(g) && value != DRY_RUN
    ensures ParseFlags(lib, Words(PartOf(value), g, value) + rest, f) == ParseFlags(lib, rest, next)
  {
    if value == "" {
      assert [] + rest == rest;
      next := f;
    } else {
      PairStep(lib, g, value, rest, f);
      next := Assign(lib, f, g, value).value;
    }
  }

  /** With only the session spelt like it. */
  lemma SessionIsLost(lib: Library, c: Config, f: Flags)
    requires c.home != DRY_RUN && c.repo != DRY_RUN && c.session == DRY_RUN
    ensures !Right(ParseFlags(lib, Words(PartOf(c.home), Home, c.home) + Recovered(c), f), c)
  {
    var last := After(Lost, c, Render(Tail(c)), []);
    assert Recovered(c) == Words(PartOf(c.repo), Repo, c.repo) + last;
    var f1 := WordsStep(lib, Home, c.home, Recovered(c), f);
    var f2 := WordsStep(lib, Repo, c.repo, last, f1);
    NothingFollows(lib, c, f2);
  }

  lemma NothingFollows(lib: Library, c: Config, f: Flags)
    requires c.session == DRY_RUN
    ensures !Right(ParseFlags(lib, After(Lost, c, Render(Tail(c)), []), f), c)
  {
    TailIsClosed(c);
    KeptTail(c);
    TakesNext(lib, Session, Render(Tail(c)), [], f, c);
  }

  lemma RepoIsNotDryRun(c: Config)
    requires Valid(c)
    ensures c.repo != DRY_RUN
  {
    if c.repo != "" {
      RepositoryHasSlash(c.repo);
    }
    NotDryRun(c.repo);
  }

  lemma RecoveredIsWrong(lib: Library, c: Config)
    requires Lawful(lib) && Valid(c) && (c.home == DRY_RUN || c.session == DRY_RUN)
    ensures !Right(ParseFlags(lib, StartArgs(RUN + Render(ChildItems(lib, c))), DEFAULTS), c)
  {
    RecoveredWords(lib, c);
    AlwaysPrintable(lib, c);
    OpenedIsFresh(lib, c);
    RepoIsNotDryRun(c);
    ParsePrefix(lib, Always(lib, c), Words(PartOf(c.home), Home, c.home) + Recovered(c), DEFAULTS);
    if c.home == DRY_RUN {
      HomeIsLost(lib, c, Opened(lib, c));
    } else {
      SessionIsLost(lib, c, Opened(lib, c));
    }
  }

  /** Reading what was meant, whatever becomes of the mode. */
  lemma ParsedIsRight(lib: Library, args: seq<string>, u: Config, mode: string)
    requires !Right(ParseFlags(lib, args, DEFAULTS), u)
    ensures var r := Parse(lib, args); !(r.Ok? && r.value.config == u.(scheduler := mode))
  {
  }

  /** The round trip: the recovered arguments parse to the configuration they were
      printed from, with the mode that survives, if and only if neither the home
      nor the session is spelt like the dropped flag. */
  lemma RoundTripIff(lib: Library, c: Config)
    requires Lawful(lib) && Valid(c)
    ensures var r := Parse(lib, StartArgs(RUN + Render(ChildItems(lib, c))));
            (r.Ok? && r.value.config == c.(scheduler := Survivor(c))) <==> c.home != DRY_RUN && c.session != DRY_RUN
  {
    if c.home != DRY_RUN && c.session != DRY_RUN {
      RoundTrip(lib, c);
    } else {
      RecoveredIsWrong(lib, c);
      ParsedIsRight(lib, StartArgs(RUN + Render(ChildItems(lib, c))), c, Survivor(c));
    }
  }

  /** The mode of the parsed configuration is the printed one exactly when that is
      pool or there is one worker. */
  lemma ModeSurvivesIff(lib: Library, c: Config)
    requires Lawful(lib) && Valid(c) && c.home != DRY_RUN && c.session != DRY_RUN
    ensures var r := Parse(lib, StartArgs(RUN + Render(ChildItems(lib, c))));
            && r.Ok?
            && (IsPool(r.value.config.scheduler) == IsPool(c.scheduler) <==> IsPool(c.scheduler) || c.workers == 1)
  {
    RoundTrip(lib, c);
    PoolIsPool();
  }
}
