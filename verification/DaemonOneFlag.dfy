/** Exactly when a restart with one explicit flag comes out as meant. */
module DaemonOneFlag {
  import opened DaemonArgs
  import opened DaemonMisread
  import opened DaemonOverlay
  import opened DaemonRestart
  import opened DaemonRoundTrip
  import opened Text

  // ---- editing the printed arguments, piece by piece -------------------------------------

  lemma StripCons(arg: string, rest: seq<string>, flag: Flag)
    ensures !Names(arg, Name(flag)) ==> Strip([arg] + rest, flag) == [arg] + Strip(rest, flag)
    ensures Names(arg, Name(flag)) && (arg != Dashed(Name(flag)) || IsSwitch(flag)) ==>
              Strip([arg] + rest, flag) == Strip(rest, flag)
    ensures arg == Dashed(Name(flag)) && !IsSwitch(flag) ==>
              Strip([arg] + rest, flag) == Strip(if rest == [] then [] else rest[1..], flag)
  {
    var args := [arg] + rest;
    assert args[1..] == rest;
    if rest != [] {
      assert args[2..] == rest[1..];
    }
  }

  /** What the edit leaves of a text: it loses a value spelt like the edited flag. */
  function Piece(flag: Flag, g: Flag, value: string): Part {
    if value == "" || g == flag then Gone else if Names(value, Name(flag)) then Lost else Whole
  }

  /** The editor also takes the argument after a value that is the flag itself. */
  predicate Swallows(flag: Flag, g: Flag, value: string) {
    g != flag && !IsSwitch(flag) && value == Dashed(Name(flag))
  }

  function Next(swallows: bool, rest: seq<string>): seq<string> {
    if swallows && rest != [] then rest[1..] else rest
  }

  lemma StripText(flag: Flag, g: Flag, value: string, rest: seq<string>)
    requires IsText(g)
    ensures Strip(Render(TextItem(g, value)) + rest, flag)
         == Words(Piece(flag, g, value), g, value) + Strip(Next(Swallows(flag, g, value), rest), flag)
  {
    FlagNames(g, flag);
    RenderOne(Pair(g, value));
    var name := Dashed(Name(g));
    if value == "" {
      assert Render([]) + rest == rest;
    } else if g == flag {
      assert [name, value] + rest == [name] + ([value] + rest);
      assert ([value] + rest)[1..] == rest;
      StripCons(name, [value] + rest, flag);
    } else {
      assert [name, value] + rest == [name] + ([value] + rest);
      StripCons(name, [value] + rest, flag);
      StripCons(value, rest, flag);
      assert rest == [] ==> Next(true, rest) == [];
    }
  }

  // ---- what the edit leaves after the texts -------------------------------------------------

  predicate Foreign(t: seq<string>, flag: Flag) { forall arg | arg in t :: !Names(arg, Name(flag)) }

  lemma ClosedKept(arg: string, t: seq<string>)
    requires Closed(t) && arg in {"--watch-skillopt-reviews", "--watch-issues", "pool"}
    ensures Closed([arg] + t)
  {
    assert ([arg] + t)[1..] == t;
  }

  lemma QuietNames(flag: Flag)
    ensures Names("--watch-skillopt-reviews", Name(flag)) <==> flag.Reviews?
    ensures Names("--watch-issues", Name(flag)) <==> flag.Issues?
    ensures Names("--scheduler", Name(flag)) <==> flag.Scheduler?
    ensures !Names("pool", Name(flag))
  {
    DashedNames();
    FlagNames(Reviews, flag);
    FlagNames(Issues, flag);
    FlagNames(Scheduler, flag);
  }

  lemma {:induction false} StripClosed(t: seq<string>, flag: Flag)
    requires Closed(t)
    ensures Closed(Strip(t, flag)) && Foreign(Strip(t, flag), flag)
    decreases |t|
  {
    forall arg | arg in Strip(t, flag)
      ensures !Names(arg, Name(flag))
    {
      StripLeavesNone(t, flag, arg);
    }
    if t != [] {
      ClosedTail(t);
      var rest := t[1..];
      assert t == [t[0]] + rest;
      QuietNames(flag);
      StripCons(t[0], rest, flag);
      if t[0] == "--scheduler" {
        assert rest == ["pool"] + t[2..];
        StripCons("pool", t[2..], flag);
        StripClosed(t[2..], flag);
        ClosedMore(t[0], Strip(t[2..], flag));
      } else {
        StripClosed(rest, flag);
        ClosedKept(t[0], Strip(rest, flag));
      }
    }
  }

  lemma ClosedMore(arg: string, t: seq<string>)
    requires Closed(t) && arg == "--scheduler"
    ensures Closed([arg] + (["pool"] + t))
  {
    ClosedGrows(t);
    assert [arg] + (["pool"] + t) == ["--scheduler", "pool"] + t;
  }

  function Rest(c: Config, flag: Flag): seq<string> {
    Strip(Next(Swallows(flag, Session, c.session), Render(Tail(c))), flag)
  }

  lemma RestIsClosed(c: Config, flag: Flag)
    ensures Closed(Rest(c, flag)) && Foreign(Rest(c, flag), flag)
  {
    var t := Render(Tail(c));
    TailIsClosed(c);
    if t != [] {
      ClosedTail(t);
    }
    StripClosed(Next(Swallows(flag, Session, c.session), t), flag);
  }

  function SessionLeft(c: Config, flag: Flag): seq<string> {
    Words(Piece(flag, Session, c.session), Session, c.session) + Rest(c, flag)
  }

  function RepoLeft(c: Config, flag: Flag): seq<string> {
    Words(Piece(flag, Repo, c.repo), Repo, c.repo) + SessionLeft(c, flag)
  }

  lemma SessionStage(c: Config, flag: Flag)
    ensures Strip(Render(FromSession(c)), flag) == SessionLeft(c, flag)
  {
    RenderAppend(TextItem(Session, c.session), Tail(c));
    StripText(flag, Session, c.session, Render(Tail(c)));
  }

  lemma RepoIsNoFlag(c: Config, flag: Flag)
    requires Valid(c)
    ensures c.repo != "" ==> '/' in c.repo && c.repo != Dashed(Name(flag))
  {
    if c.repo != "" {
      RepositoryHasSlash(c.repo);
      NoSlashInNames(flag);
    }
  }

  lemma RepoStage(c: Config, flag: Flag)
    requires Valid(c)
    ensures Strip(Render(FromRepo(c)), flag) == RepoLeft(c, flag)
  {
    RepoIsNoFlag(c, flag);
    RenderAppend(TextItem(Repo, c.repo), FromSession(c));
    StripText(flag, Repo, c.repo, Render(FromSession(c)));
    SessionStage(c, flag);
  }

  /** What is left of the arguments after the two that are always printed. */
  function HomeLeft(c: Config, flag: Flag): seq<string> {
    Words(Piece(flag, Home, c.home), Home, c.home)
    + if Swallows(flag, Home, c.home) then Strip(Next(true, Render(FromRepo(c))), flag) else RepoLeft(c, flag)
  }

  lemma HomeStage(c: Config, flag: Flag)
    requires Valid(c)
    ensures Strip(Render(TextItem(Home, c.home) + FromRepo(c)), flag) == HomeLeft(c, flag)
  {
    RenderAppend(TextItem(Home, c.home), FromRepo(c));
    StripText(flag, Home, c.home, Render(FromRepo(c)));
    RepoStage(c, flag);
  }

  // ---- a lost value is never recovered ---------------------------------------------------------

  /** `added` sets the edited flag as it is meant; the other texts are meant as they
      were recorded. */
  predicate Meets(c: Config, u: Config, flag: Flag, added: seq<Item>) {
    && Fits(added, u) && (forall item | item in added :: item.flag == flag)
    && (!flag.Home? ==> u.home == c.home) && (!flag.Repo? ==> u.repo == c.repo)
    && (!flag.Session? ==> u.session == c.session)
  }

  predicate Fresh(f: Flags, added: seq<Item>) { f.repo == "" && f.session == "" && AllUnread(f, added) }

  lemma SessionIsFair(c: Config, u: Config, flag: Flag, added: seq<Item>)
    requires Meets(c, u, flag, added)
    ensures var part := Piece(flag, Session, c.session);
            && Fair(part, u, Rest(c, flag), added)
            && After(part, u, Rest(c, flag), added) == SessionLeft(c, flag) + Render(added)
  {
    var part := Piece(flag, Session, c.session);
    RestIsClosed(c, flag);
    Reassociate(Words(part, Session, c.session), Rest(c, flag), Render(added));
  }

  lemma SessionGoes(lib: Library, c: Config, u: Config, flag: Flag, added: seq<Item>, f: Flags)
    requires Meets(c, u, flag, added) && Piece(flag, Session, c.session) == Lost && AllUnread(f, added)
    ensures !Right(ParseFlags(lib, SessionLeft(c, flag) + Render(added), f), u)
  {
    SessionIsFair(c, u, flag, added);
    TakesNext(lib, Session, Rest(c, flag), added, f, u);
  }

  lemma RepoGoes(lib: Library, c: Config, u: Config, flag: Flag, added: seq<Item>, f: Flags)
    requires Valid(c) && Meets(c, u, flag, added) && Piece(flag, Repo, c.repo) == Lost && Fresh(f, added)
    ensures !Right(ParseFlags(lib, RepoLeft(c, flag) + Render(added), f), u)
  {
    SessionIsFair(c, u, flag, added);
    RestIsClosed(c, flag);
    RepoIsNoFlag(c, Session);
    Reassociate([Dashed(Name(Repo))], SessionLeft(c, flag), Render(added));
    TakesSession(lib, Repo, Piece(flag, Session, c.session), Rest(c, flag), added, f, u);
  }

  lemma HomeGoes(lib: Library, c: Config, u: Config, flag: Flag, added: seq<Item>, f: Flags)
    requires Valid(c) && Meets(c, u, flag, added) && Piece(flag, Home, c.home) == Lost && Fresh(f, added)
    requires !Swallows(flag, Home, c.home)
    ensures !Right(ParseFlags(lib, HomeLeft(c, flag) + Render(added), f), u)
  {
    SessionIsFair(c, u, flag, added);
    RestIsClosed(c, flag);
    RepoIsNoFlag(c, flag);
    FlagNames(Repo, flag);
    FlagNames(Session, flag);
    var repo := Piece(flag, Repo, c.repo);
    Reassociate([Dashed(Name(Home))], RepoLeft(c, flag), Render(added));
    Reassociate(Words(repo, Repo, c.repo), SessionLeft(c, flag), Render(added));
    TakesRepo(lib, repo, Piece(flag, Session, c.session), Rest(c, flag), added, f, u);
  }

  /** The home takes this argument for its value. */
  lemma HomeTakes(lib: Library, arg: string, rest: seq<string>, added: seq<Item>, f: Flags) returns (next: Flags)
    requires AllUnread(f, added) && !IsAdded(added, Home)
    ensures ParseFlags(lib, [Dashed(Name(Home))] + ([arg] + rest), f) == ParseFlags(lib, rest, next)
    ensures next.home == arg && AllUnread(next, added)
  {
    assert [Dashed(Name(Home))] + ([arg] + rest) == [Dashed(Name(Home)), arg] + rest;
    PairStep(lib, Home, arg, rest, f);
    TextUnread(lib, f, Home, arg, added);
    next := Assign(lib, f, Home, arg).value;
  }

  predicate Swallowed(c: Config, u: Config, flag: Flag, added: seq<Item>, f: Flags) {
    Valid(c) && Meets(c, u, flag, added) && Swallows(flag, Home, c.home) && Fresh(f, added)
  }

  lemma NotTheHome(c: Config, u: Config, flag: Flag, added: seq<Item>, f: Flags, arg: string)
    requires Swallowed(c, u, flag, added, f)
    ensures !IsAdded(added, Home) && u.home == c.home
    ensures !Names(arg, Name(flag)) ==> arg != u.home
    ensures !flag.Session? ==> u.home != Dashed(Name(Session))
  {
    FlagNames(Session, flag);
  }

  /** The repository's flag was swallowed, and its value too. */
  lemma RepoDropped(lib: Library, c: Config, u: Config, flag: Flag, added: seq<Item>, f: Flags)
    requires Swallowed(c, u, flag, added, f)
    ensures !Right(ParseFlags(lib, [Dashed(Name(Home))] + (SessionLeft(c, flag) + Render(added)), f), u)
  {
    SessionIsFair(c, u, flag, added);
    RestIsClosed(c, flag);
    NotTheHome(c, u, flag, added, f, "");
    TakesSession(lib, Home, Piece(flag, Session, c.session), Rest(c, flag), added, f, u);
  }

  /** Only its flag. */
  lemma RepoTaken(lib: Library, c: Config, u: Config, flag: Flag, added: seq<Item>, f: Flags)
    requires Swallowed(c, u, flag, added, f) && !Names(c.repo, Name(flag))
    ensures !Right(ParseFlags(lib, [Dashed(Name(Home))] + ([c.repo] + SessionLeft(c, flag) + Render(added)), f), u)
  {
    var more := SessionLeft(c, flag) + Render(added);
    SessionIsFair(c, u, flag, added);
    NotTheHome(c, u, flag, added, f, c.repo);
    Reassociate([c.repo], SessionLeft(c, flag), Render(added));
    var next := HomeTakes(lib, c.repo, more, added, f);
    SessionLast(lib, Piece(flag, Session, c.session), Rest(c, flag), added, next, u, Home);
  }

  lemma RepoSwallowed(lib: Library, c: Config, u: Config, flag: Flag, added: seq<Item>, f: Flags)
    requires Swallowed(c, u, flag, added, f) && c.repo != ""
    ensures !Right(ParseFlags(lib, [Dashed(Name(Home))]
                                   + (Strip([c.repo] + Render(FromSession(c)), flag) + Render(added)), f), u)
  {
    RepoIsNoFlag(c, flag);
    StripCons(c.repo, Render(FromSession(c)), flag);
    SessionStage(c, flag);
    if Names(c.repo, Name(flag)) {
      RepoDropped(lib, c, u, flag, added, f);
    } else {
      RepoTaken(lib, c, u, flag, added, f);
    }
  }

  /** The session's flag was swallowed, there being no repository. */
  lemma SessionSwallowed(lib: Library, c: Config, u: Config, flag: Flag, added: seq<Item>, f: Flags, t: seq<string>)
    requires Swallowed(c, u, flag, added, f) && Closed(t)
    ensures !Right(ParseFlags(lib, [Dashed(Name(Home))] + (Strip([c.session] + t, flag) + Render(added)), f), u)
  {
    StripCons(c.session, t, flag);
    StripClosed(t, flag);
    NotTheHome(c, u, flag, added, f, c.session);
    if !Names(c.session, Name(flag)) {
      Reassociate([c.session], Strip(t, flag), Render(added));
      var next := HomeTakes(lib, c.session, Strip(t, flag) + Render(added), added, f);
      ClosedLast(lib, Strip(t, flag), added, next, u, Home);
    } else if c.session == Dashed(Name(flag)) && t != [] {
      TailSwallowed(lib, c, u, flag, added, f, t[1..]);
      ClosedTail(t);
    } else {
      TailSwallowed(lib, c, u, flag, added, f, t);
    }
  }

  lemma TailSwallowed(lib: Library, c: Config, u: Config, flag: Flag, added: seq<Item>, f: Flags, t: seq<string>)
    requires Swallowed(c, u, flag, added, f) && Closed(t)
    ensures !Right(ParseFlags(lib, [Dashed(Name(Home))] + (Strip(t, flag) + Render(added)), f), u)
  {
    StripClosed(t, flag);
    NotTheHome(c, u, flag, added, f, "");
    TakesNext(lib, Home, Strip(t, flag), added, f, u);
  }

  lemma AfterName(g: Flag, value: string, rest: seq<string>)
    ensures Next(true, Render(TextItem(g, value)) + rest) == if value != "" then [value] + rest else Next(true, rest)
  {
    RenderOne(Pair(g, value));
    if value == "" {
      assert Render([]) + rest == rest;
    } else {
      var name := Dashed(Name(g));
      assert [name, value] + rest == [name] + ([value] + rest);
    }
  }

  lemma AfterFlag(c: Config)
    ensures Next(true, Render(FromRepo(c))) ==
            if c.repo != "" then [c.repo] + Render(FromSession(c))
            else if c.session != "" then [c.session] + Render(Tail(c))
            else Next(true, Render(Tail(c)))
  {
    RenderAppend(TextItem(Repo, c.repo), FromSession(c));
    RenderAppend(TextItem(Session, c.session), Tail(c));
    AfterName(Repo, c.repo, Render(FromSession(c)));
    AfterName(Session, c.session, Render(Tail(c)));
  }

  lemma FlagSwallowed(lib: Library, c: Config, u: Config, flag: Flag, added: seq<Item>, f: Flags)
    requires Swallowed(c, u, flag, added, f)
    ensures !Right(ParseFlags(lib, [Dashed(Name(Home))]
                                   + (Strip(Next(true, Render(FromRepo(c))), flag) + Render(added)), f), u)
  {
    AfterFlag(c);
    TailIsClosed(c);
    if c.repo != "" {
      RepoSwallowed(lib, c, u, flag, added, f);
    } else if c.session != "" {
      SessionSwallowed(lib, c, u, flag, added, f, Render(Tail(c)));
    } else {
      NextIsClosed(Render(Tail(c)));
      TailSwallowed(lib, c, u, flag, added, f, Next(true, Render(Tail(c))));
    }
  }

  lemma NextIsClosed(t: seq<string>)
    requires Closed(t)
    ensures Closed(Next(true, t))
  {
    if t != [] {
      ClosedTail(t);
    }
  }

  lemma HomeSwallows(lib: Library, c: Config, u: Config, flag: Flag, added: seq<Item>, f: Flags)
    requires Swallowed(c, u, flag, added, f)
    ensures !Right(ParseFlags(lib, HomeLeft(c, flag) + Render(added), f), u)
  {
    SwallowedLeft(c, flag, Render(added));
    FlagSwallowed(lib, c, u, flag, added, f);
  }

  lemma SwallowedLeft(c: Config, flag: Flag, more: seq<string>)
    requires Swallows(flag, Home, c.home)
    ensures HomeLeft(c, flag) + more == [Dashed(Name(Home))] + (Strip(Next(true, Render(FromRepo(c))), flag) + more)
  {
    Reassociate([Dashed(Name(Home))], Strip(Next(true, Render(FromRepo(c))), flag), more);
  }

  lemma TextGoes(lib: Library, flag: Flag, g: Flag, value: string, rest: seq<string>, added: seq<Item>, f: Flags)
      returns (next: Flags)
    requires IsText(g) && Piece(flag, g, value) != Lost && AllUnread(f, added)
    requires forall item | item in added :: item.flag == flag
    ensures ParseFlags(lib, Words(Piece(flag, g, value), g, value) + rest, f) == ParseFlags(lib, rest, next)
    ensures AllUnread(next, added) && (g.Home? ==> next.repo == f.repo) && (!g.Session? ==> next.session == f.session)
  {
    if Piece(flag, g, value) == Gone {
      assert [] + rest == rest;
      next := f;
    } else {
      PairStep(lib, g, value, rest, f);
      TextUnread(lib, f, g, value, added);
      next := Assign(lib, f, g, value).value;
    }
  }

  /** No text of another flag is spelt like the edited flag. */
  predicate Unmistaken(c: Config, flag: Flag) {
    forall g | IsText(g) && g != flag :: !Names(Meant(c, g), Name(flag))
  }

  lemma SomeTextIsLost(c: Config, flag: Flag)
    ensures Unmistaken(c, flag) <==>
            && Piece(flag, Home, c.home) != Lost && Piece(flag, Repo, c.repo) != Lost
            && Piece(flag, Session, c.session) != Lost
  {
    assert !Names("", Name(flag));
    assert Meant(c, Home) == c.home && Meant(c, Repo) == c.repo && Meant(c, Session) == c.session;
  }

  lemma TextsGoWrong(lib: Library, c: Config, u: Config, flag: Flag, added: seq<Item>, f: Flags)
    requires Valid(c) && Meets(c, u, flag, added) && Fresh(f, added) && !Unmistaken(c, flag)
    ensures !Right(ParseFlags(lib, HomeLeft(c, flag) + Render(added), f), u)
  {
    SomeTextIsLost(c, flag);
    if Swallows(flag, Home, c.home) {
      HomeSwallows(lib, c, u, flag, added, f);
    } else if Piece(flag, Home, c.home) == Lost {
      HomeGoes(lib, c, u, flag, added, f);
    } else {
      var home := Piece(flag, Home, c.home);
      Reassociate(Words(home, Home, c.home), RepoLeft(c, flag), Render(added));
      var next := TextGoes(lib, flag, Home, c.home, RepoLeft(c, flag) + Render(added), added, f);
      RepoOrSession(lib, c, u, flag, added, next);
    }
  }

  lemma RepoOrSession(lib: Library, c: Config, u: Config, flag: Flag, added: seq<Item>, f: Flags)
    requires Valid(c) && Meets(c, u, flag, added) && Fresh(f, added)
    requires Piece(flag, Repo, c.repo) == Lost || Piece(flag, Session, c.session) == Lost
    ensures !Right(ParseFlags(lib, RepoLeft(c, flag) + Render(added), f), u)
  {
    var repo := Piece(flag, Repo, c.repo);
    if repo == Lost {
      RepoGoes(lib, c, u, flag, added, f);
    } else {
      Reassociate(Words(repo, Repo, c.repo), SessionLeft(c, flag), Render(added));
      var next := TextGoes(lib, flag, Repo, c.repo, SessionLeft(c, flag) + Render(added), added, f);
      SessionGoes(lib, c, u, flag, added, next);
    }
  }

  // ---- one flag ----------------------------------------------------------------------------------

  /** A printed number or duration is left alone, or is the edited flag. */
  lemma NumberGoes(lib: Library, item: Item, rest: seq<string>, flag: Flag, f: Flags) returns (next: Flags)
    requires item.Pair? && Printable(lib, item) && (item.flag.Poll? || item.flag.Workers?) && NotAFlag(item.value)
    ensures forall more :: ParseFlags(lib, Strip(Spell(item) + rest, flag) + more, f)
                        == ParseFlags(lib, Strip(rest, flag) + more, next)
    ensures next.home == f.home && next.repo == f.repo && next.session == f.session
    ensures next.reviews == f.reviews && next.issues == f.issues
  {
    StripItem(item, rest, flag);
    if item.flag == flag {
      next := f;
      assert [] + Strip(rest, flag) == Strip(rest, flag);
    } else {
      next := Take(lib, f, item);
      forall more
        ensures ParseFlags(lib, Spell(item) + Strip(rest, flag) + more, f)
             == ParseFlags(lib, Strip(rest, flag) + more, next)
      {
        Reassociate(Spell(item), Strip(rest, flag), more);
        ParseItem(lib, item, Strip(rest, flag) + more, f);
      }
    }
  }

  /** The edited arguments are misread when a text is spelt like the edited flag. */
  lemma EditIsWrong(lib: Library, c: Config, u: Config, ch: Change)
    requires Lawful(lib) && Valid(c) && ch.Toggle? == IsSwitch(ch.flag)
    requires Meets(c, u, ch.flag, Added(ch)) && !Unmistaken(c, ch.flag)
    ensures !Right(ParseFlags(lib, Edit(Render(ChildItems(lib, c)), ch), DEFAULTS), u)
  {
    var poll, workers := Always(lib, c)[0], Always(lib, c)[1];
    var texts, more := Render(TextItem(Home, c.home) + FromRepo(c)), Render(Added(ch));
    EditStrips(Render(ChildItems(lib, c)), ch);
    ChildWords(lib, c);
    AlwaysPrintable(lib, c);
    var f1 := NumberGoes(lib, poll, Spell(workers) + texts, ch.flag, DEFAULTS);
    var f2 := NumberGoes(lib, workers, texts, ch.flag, f1);
    HomeStage(c, ch.flag);
    AddedIsUnread(f2, Added(ch), u);
    TextsGoWrong(lib, c, u, ch.flag, Added(ch), f2);
  }

  lemma ChildWords(lib: Library, c: Config)
    ensures Render(ChildItems(lib, c))
         == Spell(Always(lib, c)[0]) + (Spell(Always(lib, c)[1]) + Render(TextItem(Home, c.home) + FromRepo(c)))
  {
    var texts := TextItem(Home, c.home) + FromRepo(c);
    ChildSplits(lib, c);
    RenderAppend(Always(lib, c), texts);
    RenderTwo(Always(lib, c)[0], Always(lib, c)[1]);
    Reassociate(Spell(Always(lib, c)[0]), Spell(Always(lib, c)[1]), Render(texts));
  }

  lemma AddedIsUnread(f: Flags, added: seq<Item>, u: Config)
    requires Fits(added, u) && f.home == "" && f.repo == "" && f.session == "" && !f.reviews && !f.issues
    ensures AllUnread(f, added)
  {
  }

  /** Only the k-th edit of the restart is made. */
  predicate OneEdit(lib: Library, p: Parsed, k: nat) {
    k < STEPS && forall j: nat | j < STEPS :: StepOf(lib, p, j).on <==> j == k
  }

  lemma {:induction false} OnlyEdit(lib: Library, p: Parsed, k: nat, args: seq<string>, items: seq<Item>, j: nat)
    requires OneEdit(lib, p, k) && j <= STEPS
    ensures EditFrom(lib, p, args, j) == if j <= k then Edit(args, StepOf(lib, p, k).change) else args
    ensures Clear(lib, p, items, j) <==> (j <= k ==> NoClash(items, StepOf(lib, p, k)))
    decreases STEPS - j
  {
    if j < STEPS {
      var step := StepOf(lib, p, j);
      OnlyEdit(lib, p, k, Made(args, step), MadeItems(items, step), j + 1);
    }
  }

  lemma ModeIsNoFlag(mode: string)
    requires IsMode(mode) && mode != ""
    ensures mode[0] != '-'
  {
    if mode[0] == '-' {
      FirstKept(mode);
    }
  }

  lemma FirstKept(s: string)
    requires s != "" && !IsSpace(s[0])
    ensures TrimSpace(s) != "" && TrimSpace(s)[0] == s[0]
  {
    assert TrimLeft(IsSpace, s) == s;
    assert Trailing(IsSpace, s, |s|) > 0;
  }

  lemma AddedText(ch: Change, u: Config)
    requires ch.Setting? && IsText(ch.flag) && (ch.value != "" ==> ch.value == Meant(u, ch.flag))
    ensures Fits(Added(ch), u)
  {
  }

  lemma AddedOther(ch: Change, u: Config)
    requires ch.Setting? && !IsText(ch.flag) && !IsSwitch(ch.flag) && !ch.flag.Root?
    requires ch.value != "" ==> ch.value[0] != '-'
    ensures Fits(Added(ch), u)
  {
  }

  lemma AddedSwitch(ch: Change, u: Config)
    requires ch.Toggle? && (ch.flag.Reviews? || ch.flag.Issues?)
    requires ch.on ==> if ch.flag.Reviews? then u.reviews else u.issues
    ensures Fits(Added(ch), u)
  {
  }

  lemma UpdateFits(lib: Library, c: Config, p: Parsed, k: nat)
    requires Lawful(lib) && Valid(p.config) && k < STEPS && StepOf(lib, p, k).on
    ensures Fits(Added(StepOf(lib, p, k).change), Updated(c, p))
  {
    var ch, u := StepOf(lib, p, k).change, Updated(c, p);
    if k < 3 {
      AddedText(ch, u);
    } else if k == 5 || k == 6 {
      AddedSwitch(ch, u);
    } else {
      if p.config.scheduler != "" {
        ModeIsNoFlag(p.config.scheduler);
      }
      AddedOther(ch, u);
    }
  }

  lemma OthersStay(lib: Library, c: Config, p: Parsed, k: nat)
    requires OneEdit(lib, p, k)
    ensures var flag, u := StepOf(lib, p, k).change.flag, Updated(c, p);
            && (!flag.Home? ==> u.home == c.home) && (!flag.Repo? ==> u.repo == c.repo)
            && (!flag.Session? ==> u.session == c.session)
  {
    assert StepOf(lib, p, 0).on <==> k == 0;
    assert StepOf(lib, p, 1).on <==> k == 1;
    assert StepOf(lib, p, 2).on <==> k == 2;
  }

  lemma UpdateMeets(lib: Library, c: Config, p: Parsed, k: nat)
    requires Lawful(lib) && Valid(p.config) && OneEdit(lib, p, k)
    ensures Meets(c, Updated(c, p), StepOf(lib, p, k).change.flag, Added(StepOf(lib, p, k).change))
  {
    OthersStay(lib, c, p, k);
    UpdateFits(lib, c, p, k);
    AddedIsOwn(StepOf(lib, p, k).change);
  }

  lemma AddedIsOwn(ch: Change)
    ensures forall item | item in Added(ch) :: item.flag == ch.flag
  {
  }

  lemma StepShape(lib: Library, p: Parsed, k: nat)
    ensures var ch := StepOf(lib, p, k).change; ch.Toggle? == IsSwitch(ch.flag)
  {
  }

  lemma NumbersAreNoFlags(lib: Library, c: Config, item: Item, flag: Flag)
    requires Lawful(lib) && Valid(c) && FromChild(lib, c, item) && Clash(item, flag)
    ensures IsText(item.flag) && Meant(c, item.flag) == item.value
  {
    var v := item.value;
    QuietNames(flag);
    assert !NotAFlag(v);
  }

  lemma UnmistakenIsClear(lib: Library, c: Config, flag: Flag)
    requires Lawful(lib) && Valid(c) && Unmistaken(c, flag)
    ensures forall item | item in ChildItems(lib, c) :: !Clash(item, flag)
  {
    ChildItem(lib, c);
    forall item | item in ChildItems(lib, c)
      ensures !Clash(item, flag)
    {
      if Clash(item, flag) {
        NumbersAreNoFlags(lib, c, item, flag);
      }
    }
  }

  /** A restart that edits one flag parses to the recorded settings with that one
      replaced, if and only if no home, repository or session recorded for another
      flag is spelt like it. */
  lemma OneFlagIff(lib: Library, c: Config, p: Parsed, k: nat)
    requires Lawful(lib) && Valid(c) && Valid(p.config) && c.home != DRY_RUN && c.session != DRY_RUN
    requires OneEdit(lib, p, k)
    ensures var r := Parse(lib, EditFrom(lib, p, StartArgs(RUN + Render(ChildItems(lib, c))), 0));
            (r.Ok? && r.value.config == Updated(c, p)) <==> Unmistaken(c, StepOf(lib, p, k).change.flag)
  {
    var items, ch := ChildItems(lib, c), StepOf(lib, p, k).change;
    RecoveredIff(lib, c);
    OnlyEdit(lib, p, k, Render(items), items, 0);
    if Unmistaken(c, ch.flag) {
      UnmistakenIsClear(lib, c, ch.flag);
      RestartIsUpdate(lib, c, p);
    } else {
      UpdateMeets(lib, c, p, k);
      StepShape(lib, p, k);
      EditIsWrong(lib, c, Updated(c, p), ch);
      ParsedIsRight(lib, Edit(Render(items), ch), Updated(c, p), Updated(c, p).scheduler);
    }
  }

  lemma OwnerAndName()
    ensures IsRepository("a/b")
  {
    TrimTrimmed(IsSpace, "a/b");
    SplitCons("a", '/', "b");
    assert "a" + ['/'] + "b" == "a/b" && Split("b", '/') == ["b"];
  }

  const RECORDED := Config("", "", "--repo", THIRTY_SECONDS, 1, false, false, "barrier")
  const ASKED := Parsed(Config("", "a/b", "", THIRTY_SECONDS, 1, false, false, "barrier"), {Repo})

  lemma OnlyTheRepository(lib: Library)
    ensures OneEdit(lib, ASKED, 1) && StepOf(lib, ASKED, 1).change.flag == Repo
  {
  }

  /** For one: a session recorded as `--repo`, and a restart for another repository. */
  lemma RestartGoesWrong(lib: Library)
    requires Lawful(lib)
    ensures var r := Parse(lib, EditFrom(lib, ASKED, StartArgs(RUN + Render(ChildItems(lib, RECORDED))), 0));
            Valid(RECORDED) && Valid(ASKED.config) && !(r.Ok? && r.value.config == Updated(RECORDED, ASKED))
  {
    PoolIsPool();
    OwnerAndName();
    OnlyTheRepository(lib);
    DashedNames();
    assert IsText(Session) && Names(Meant(RECORDED, Session), Name(Repo));
    OneFlagIff(lib, RECORDED, ASKED, 1);
  }
}
