/** The start flags of the daemon as they may be typed: what a list of them parses
    to, in any spelling, and what makes the parser refuse one. */
module DaemonFlags {
  import opened Basics
  import opened Text
  import opened DaemonArgs
  import opened DaemonRestart

  /** A flag behind one dash or two, with its value behind an equals sign or in the
      next argument. A switch may stand without a value. */
  datatype Given = Given(flag: Flag, value: string, single: bool, joined: bool)

  function Dashes(single: bool): string { if single then "-" else "--" }

  function Typed(g: Given): seq<string> {
    var name := Dashes(g.single) + Name(g.flag);
    if g.joined then [name + "=" + g.value] else if IsSwitch(g.flag) then [name] else [name, g.value]
  }

  function AllTyped(given: seq<Given>): seq<string> {
    if given == [] then [] else Typed(given[0]) + AllTyped(given[1..])
  }

  /** Its value parses as what the flag takes. */
  predicate Readable(lib: Library, g: Given) {
    match g.flag
    case Poll => lib.parseDuration(g.value).Some?
    case Workers => lib.parseInt(g.value).Some?
    case Parallel => lib.parseInt(g.value).Some?
    case Reviews => g.joined ==> lib.parseBool(g.value).Some?
    case Issues => g.joined ==> lib.parseBool(g.value).Some?
    case _ => true
  }

  predicate AllReadable(lib: Library, given: seq<Given>) { forall g | g in given :: Readable(lib, g) }

  // ---- what a list of flags describes ------------------------------------------------------

  /** `--root` is another name of `--session`. */
  function Meant(flag: Flag): Flag { if flag.Root? then Session else flag }

  /** The last one given of a flag. */
  function Last(given: seq<Given>, flag: Flag): Option<Given>
    decreases |given|
  {
    if given == [] then None
    else
      var g := given[|given| - 1];
      if Meant(g.flag) == flag then Some(g) else Last(given[..|given| - 1], flag)
  }

  function Words(g: Option<Given>, otherwise: string): string { if g.Some? then g.value.value else otherwise }

  function Number(lib: Library, g: Option<Given>, otherwise: int): int {
    if g.Some? then Or(lib.parseInt(g.value.value), 0) else otherwise
  }

  function Duration(lib: Library, g: Option<Given>, otherwise: int): int {
    if g.Some? then Or(lib.parseDuration(g.value.value), 0) else otherwise
  }

  predicate SwitchedOn(lib: Library, g: Option<Given>) {
    g.Some? && (g.value.joined ==> lib.parseBool(g.value.value) == Some(true))
  }

  predicate Names(given: seq<Given>, flag: Flag) { Last(given, flag).Some? }

  /** `--parallel` beside `--workers` or `--scheduler`, or with nothing to run in parallel. */
  predicate Contradicts(lib: Library, given: seq<Given>) {
    && Names(given, Parallel)
    && (Names(given, Workers) || Names(given, Scheduler) || Number(lib, Last(given, Parallel), 0) <= 0)
  }

  /** `--parallel` stands for workers and the
      pool; several workers alone ask for the pool too. */
  function Described(lib: Library, given: seq<Given>): Config {
    var workers := if Names(given, Parallel) then Number(lib, Last(given, Parallel), 0)
                   else Number(lib, Last(given, Workers), 1);
    var scheduler := if Names(given, Parallel) then "pool"
                     else if Names(given, Scheduler) then Words(Last(given, Scheduler), "")
                     else if workers > 1 then "pool" else "barrier";
    Config(Words(Last(given, Home), ""), Words(Last(given, Repo), ""), Words(Last(given, Session), ""),
           Duration(lib, Last(given, Poll), 30_000_000_000), workers,
           SwitchedOn(lib, Last(given, Reviews)), SwitchedOn(lib, Last(given, Issues)), scheduler)
  }

  function Flagged(given: seq<Given>): set<Flag> { set g | g in given :: g.flag }

  function Explicit(given: seq<Given>): set<Flag> {
    Flagged(given) + if Names(given, Parallel) then {Workers, Scheduler} else {}
  }

  /** An owner and a name, neither of them empty. */
  ghost predicate OwnerAndName(repo: string) {
    exists owner, name :: IsOwnerAndName(repo, owner, name)
  }

  predicate IsOwnerAndName(repo: string, owner: string, name: string) {
    && owner != "" && name != "" && '/' !in owner && '/' !in name
    && TrimSpace(repo) == owner + ['/'] + name
  }

  ghost predicate Acceptable(c: Config) {
    && (c.repo == "" || OwnerAndName(c.repo)) && c.poll > 0 && c.workers > 0
    && TrimSpace(c.scheduler) in {"", "barrier", "pool"}
  }

  lemma RepositoryIff(repo: string)
    ensures IsRepository(repo) <==> OwnerAndName(repo)
  {
    var s := TrimSpace(repo);
    var parts := Split(s, '/');
    JoinSplit(s, '/');
    if IsRepository(repo) {
      assert parts[1..] == [parts[1]] && Join(parts, '/') == parts[0] + ['/'] + parts[1];
      assert IsOwnerAndName(repo, parts[0], parts[1]);
    }
    if owner, name :| IsOwnerAndName(repo, owner, name) {
      SplitCons(owner, '/', name);
      assert Split(name, '/') == [name];
    }
  }

  lemma ValidIff(c: Config)
    ensures Valid(c) <==> Acceptable(c)
  {
    RepositoryIff(c.repo);
  }

  // ---- the parser over a list of flags -----------------------------------------------------

  function Taken(lib: Library, f: Flags, g: Given): Option<Flags> {
    if IsSwitch(g.flag) && !g.joined then Some(TurnOn(f, g.flag)) else Assign(lib, f, g.flag, g.value)
  }

  lemma TakenIff(lib: Library, f: Flags, g: Given)
    ensures Taken(lib, f, g).Some? <==> Readable(lib, g)
  {
  }

  lemma NameReads(flag: Flag, single: bool, tail: string)
    requires tail == "" || tail[0] == '='
    ensures var arg := Dashes(single) + Name(flag) + tail;
            && |arg| >= 2 && arg[0] == '-' && arg != "--"
            && (if arg[1] == '-' then arg[2..] else arg[1..]) == Name(flag) + tail
    ensures IndexOf(Name(flag) + tail, '=') == |Name(flag)|
  {
    NamesAreClean(flag);
    var body := Name(flag) + tail;
    assert Dashes(single) + Name(flag) + tail == Dashes(single) + body;
    if tail != "" {
      assert body == Name(flag) + ['='] + tail[1..];
      IndexOfIs(Name(flag), '=', tail[1..]);
    } else {
      assert body == Name(flag);
    }
  }

  lemma JoinedIsTaken(lib: Library, g: Given, rest: seq<string>, f: Flags)
    requires g.joined
    ensures ParseFlags(lib, Typed(g) + rest, f)
         == if Readable(lib, g) then ParseFlags(lib, rest, Taken(lib, f, g).value) else Bad
  {
    var name, tail := Name(g.flag), "=" + g.value;
    NamesAreClean(g.flag);
    NameReads(g.flag, g.single, tail);
    TakenIff(lib, f, g);
    Reassociate(Dashes(g.single) + name, "=", g.value);
    var args := Typed(g) + rest;
    assert args[0] == Dashes(g.single) + name + tail && args[1..] == rest;
    assert (name + tail)[..|name|] == name && (name + tail)[|name| + 1..] == g.value;
  }

  lemma ApartIsTaken(lib: Library, g: Given, rest: seq<string>, f: Flags)
    requires !g.joined
    ensures ParseFlags(lib, Typed(g) + rest, f)
         == if Readable(lib, g) then ParseFlags(lib, rest, Taken(lib, f, g).value) else Bad
  {
    var name := Name(g.flag);
    NamesAreClean(g.flag);
    NameReads(g.flag, g.single, "");
    TakenIff(lib, f, g);
    var args := Typed(g) + rest;
    assert Dashes(g.single) + name + "" == Dashes(g.single) + name && name + "" == name && name[..|name|] == name;
    if IsSwitch(g.flag) {
      assert args[1..] == rest;
    } else {
      assert args[1] == g.value && args[2..] == rest;
    }
  }

  function TakenAll(lib: Library, f: Flags, given: seq<Given>): Flags
    requires AllReadable(lib, given)
    decreases |given|
  {
    if given == [] then f
    else
      TakenIff(lib, f, given[0]);
      TakenAll(lib, Taken(lib, f, given[0]).value, given[1..])
  }

  lemma {:induction false} AllAreTaken(lib: Library, given: seq<Given>, rest: seq<string>, f: Flags)
    requires AllReadable(lib, given)
    ensures ParseFlags(lib, AllTyped(given) + rest, f) == ParseFlags(lib, rest, TakenAll(lib, f, given))
    decreases |given|
  {
    if given == [] {
      assert AllTyped(given) + rest == rest;
    } else {
      var g := given[0];
      Reassociate(Typed(g), AllTyped(given[1..]), rest);
      TakenIff(lib, f, g);
      if g.joined {
        JoinedIsTaken(lib, g, AllTyped(given[1..]) + rest, f);
      } else {
        ApartIsTaken(lib, g, AllTyped(given[1..]) + rest, f);
      }
      AllAreTaken(lib, given[1..], rest, Taken(lib, f, g).value);
    }
  }

  predicate HoldsWords(f: Flags, home: Option<Given>, repo: Option<Given>, session: Option<Given>,
                       scheduler: Option<Given>)
  {
    && f.home == Words(home, "") && f.repo == Words(repo, "") && f.session == Words(session, "")
    && f.scheduler == Words(scheduler, "barrier")
  }

  predicate HoldsRest(lib: Library, f: Flags, poll: Option<Given>, workers: Option<Given>, parallel: Option<Given>,
                      reviews: Option<Given>, issues: Option<Given>)
  {
    && f.poll == Duration(lib, poll, 30_000_000_000)
    && f.workers == Number(lib, workers, 1) && f.parallel == Number(lib, parallel, 0)
    && f.reviews == SwitchedOn(lib, reviews) && f.issues == SwitchedOn(lib, issues)
  }

  /** What the parsed flags hold after these were given. */
  predicate Carries(lib: Library, given: seq<Given>, f: Flags) {
    && HoldsWords(f, Last(given, Home), Last(given, Repo), Last(given, Session), Last(given, Scheduler))
    && HoldsRest(lib, f, Last(given, Poll), Last(given, Workers), Last(given, Parallel), Last(given, Reviews),
                 Last(given, Issues))
    && f.seen == Flagged(given)
  }

  function Newer(g: Given, flag: Flag, last: Option<Given>): Option<Given> {
    if Meant(g.flag) == flag then Some(g) else last
  }

  lemma LastSnoc(given: seq<Given>, g: Given, flag: Flag)
    ensures Last(given + [g], flag) == Newer(g, flag, Last(given, flag))
  {
    var more := given + [g];
    assert more[|more| - 1] == g && more[..|more| - 1] == given;
  }

  lemma TakenPlaces(lib: Library, g: Given, f: Flags, home: Option<Given>, repo: Option<Given>)
    requires Taken(lib, f, g).Some? && f.home == Words(home, "") && f.repo == Words(repo, "")
    ensures Taken(lib, f, g).value.home == Words(Newer(g, Home, home), "")
    ensures Taken(lib, f, g).value.repo == Words(Newer(g, Repo, repo), "")
  {
  }

  lemma TakenModes(lib: Library, g: Given, f: Flags, session: Option<Given>, scheduler: Option<Given>)
    requires Taken(lib, f, g).Some? && f.session == Words(session, "") && f.scheduler == Words(scheduler, "barrier")
    ensures Taken(lib, f, g).value.session == Words(Newer(g, Session, session), "")
    ensures Taken(lib, f, g).value.scheduler == Words(Newer(g, Scheduler, scheduler), "barrier")
  {
  }

  lemma TakenIsSeen(lib: Library, g: Given, f: Flags)
    requires Taken(lib, f, g).Some?
    ensures Taken(lib, f, g).value.seen == f.seen + {g.flag}
  {
  }

  lemma TakenPoll(lib: Library, g: Given, f: Flags, poll: Option<Given>)
    requires Taken(lib, f, g).Some? && f.poll == Duration(lib, poll, 30_000_000_000)
    ensures Taken(lib, f, g).value.poll == Duration(lib, Newer(g, Poll, poll), 30_000_000_000)
  {
  }

  lemma TakenCounts(lib: Library, g: Given, f: Flags, workers: Option<Given>, parallel: Option<Given>)
    requires Taken(lib, f, g).Some? && f.workers == Number(lib, workers, 1) && f.parallel == Number(lib, parallel, 0)
    ensures Taken(lib, f, g).value.workers == Number(lib, Newer(g, Workers, workers), 1)
    ensures Taken(lib, f, g).value.parallel == Number(lib, Newer(g, Parallel, parallel), 0)
  {
  }

  lemma TakenSwitches(lib: Library, g: Given, f: Flags, reviews: Option<Given>, issues: Option<Given>)
    requires Taken(lib, f, g).Some? && f.reviews == SwitchedOn(lib, reviews) && f.issues == SwitchedOn(lib, issues)
    ensures Taken(lib, f, g).value.reviews == SwitchedOn(lib, Newer(g, Reviews, reviews))
    ensures Taken(lib, f, g).value.issues == SwitchedOn(lib, Newer(g, Issues, issues))
  {
  }

  lemma TakenCarries(lib: Library, given: seq<Given>, g: Given, f: Flags, next: Flags)
    requires Carries(lib, given, f) && Taken(lib, f, g) == Some(next)
    ensures Carries(lib, given + [g], next)
  {
    TakenPlaces(lib, g, f, Last(given, Home), Last(given, Repo));
    TakenModes(lib, g, f, Last(given, Session), Last(given, Scheduler));
    TakenIsSeen(lib, g, f);
    TakenPoll(lib, g, f, Last(given, Poll));
    TakenCounts(lib, g, f, Last(given, Workers), Last(given, Parallel));
    TakenSwitches(lib, g, f, Last(given, Reviews), Last(given, Issues));
    LastSnoc(given, g, Home);
    LastSnoc(given, g, Repo);
    LastSnoc(given, g, Session);
    LastSnoc(given, g, Scheduler);
    LastSnoc(given, g, Poll);
    LastSnoc(given, g, Workers);
    LastSnoc(given, g, Parallel);
    LastSnoc(given, g, Reviews);
    LastSnoc(given, g, Issues);
    SeenSnoc(given, g);
  }

  lemma SeenSnoc(given: seq<Given>, g: Given)
    ensures Flagged(given + [g]) == Flagged(given) + {g.flag}
  {
    forall flag
      ensures flag in Flagged(given + [g]) <==> flag in Flagged(given) || flag == g.flag
    {
      if flag == g.flag {
        assert g in given + [g];
      } else if q :| q in given && q.flag == flag {
        assert q in given + [g];
      }
    }
  }

  lemma {:induction false} TakenAllSnoc(lib: Library, given: seq<Given>, g: Given, f: Flags)
    requires AllReadable(lib, given) && Readable(lib, g) && AllReadable(lib, given + [g])
    ensures Taken(lib, TakenAll(lib, f, given), g) == Some(TakenAll(lib, f, given + [g]))
    decreases |given|
  {
    TakenIff(lib, TakenAll(lib, f, given), g);
    if given == [] {
      assert given + [g] == [g] && [g][1..] == [];
    } else {
      TakenIff(lib, f, given[0]);
      assert (given + [g])[0] == given[0] && (given + [g])[1..] == given[1..] + [g];
      TakenAllSnoc(lib, given[1..], g, Taken(lib, f, given[0]).value);
    }
  }

  lemma {:induction false} AllCarried(lib: Library, given: seq<Given>)
    requires AllReadable(lib, given)
    ensures Carries(lib, given, TakenAll(lib, DEFAULTS, given))
    decreases |given|
  {
    if given == [] {
      assert Flagged(given) == {};
    } else {
      var n := |given| - 1;
      var before, g := given[..n], given[n];
      assert given == before + [g];
      AllCarried(lib, before);
      TakenAllSnoc(lib, before, g, DEFAULTS);
      TakenCarries(lib, before, g, TakenAll(lib, DEFAULTS, before), TakenAll(lib, DEFAULTS, given));
    }
  }

  lemma {:induction false} NamesIff(given: seq<Given>, flag: Flag)
    requires !flag.Session? && !flag.Root?
    ensures Names(given, flag) <==> flag in Flagged(given)
    decreases |given|
  {
    if given != [] {
      var n := |given| - 1;
      NamesIff(given[..n], flag);
      assert given == given[..n] + [given[n]];
      SeenSnoc(given[..n], given[n]);
    }
  }

  lemma FinishDescribes(lib: Library, given: seq<Given>, f: Flags)
    requires Carries(lib, given, f)
    ensures Finish(f) == if Contradicts(lib, given) || !Acceptable(Described(lib, given)) then Bad
                         else Ok(Parsed(Described(lib, given), Explicit(given)))
  {
    NamesIff(given, Parallel);
    NamesIff(given, Workers);
    NamesIff(given, Scheduler);
    ValidIff(Described(lib, given));
    PoolIsPool();
    assert f.seen + {} == f.seen;
  }

  /** Whatever flags are typed, in any order and spelling: as long as their values
      parse, the configuration is the one they describe, or it is refused because
      they contradict each other or because it is not acceptable. */
  lemma ParseDescribes(lib: Library, given: seq<Given>)
    requires AllReadable(lib, given)
    ensures Parse(lib, AllTyped(given))
         == if Contradicts(lib, given) || !Acceptable(Described(lib, given)) then Bad
            else Ok(Parsed(Described(lib, given), Explicit(given)))
  {
    assert AllTyped(given) + [] == AllTyped(given);
    AllAreTaken(lib, given, [], DEFAULTS);
    AllCarried(lib, given);
    FinishDescribes(lib, given, TakenAll(lib, DEFAULTS, given));
  }

  // ---- where parsing stops ---------------------------------------------------------------------

  predicate IsFlagName(name: string) {
    name in {"home", "repo", "session", "root", "poll", "workers", "watch-skillopt-reviews", "watch-issues",
             "scheduler", "parallel"}
  }

  /** A flag the daemon does not have, with or without a value. */
  predicate Unknown(arg: string, name: string, single: bool) {
    && (arg == Dashes(single) + name || Dashes(single) + name + "=" <= arg)
    && name != "" && name[0] != '-' && '=' !in name && !IsFlagName(name) && name !in {"help", "h"}
  }

  predicate LacksValue(rest: seq<string>, flag: Flag, single: bool) {
    !IsSwitch(flag) && rest == [Dashes(single) + Name(flag)]
  }

  predicate HasBadValue(lib: Library, rest: seq<string>, g: Given) {
    !Readable(lib, g) && Typed(g) <= rest
  }

  /** What no list of arguments can go on with: an argument that is no flag, also
      behind `--`, an unknown flag, a flag without its value, an unreadable value. */
  ghost predicate Stuck(lib: Library, rest: seq<string>)
    requires rest != []
  {
    || |rest[0]| < 2 || rest[0][0] != '-' || (rest[0] == "--" && |rest| > 1)
    || (exists name, single :: Unknown(rest[0], name, single))
    || (exists flag, single :: LacksValue(rest, flag, single))
    || exists g :: HasBadValue(lib, rest, g)
  }

  lemma UnknownReads(arg: string, name: string, single: bool)
    requires Unknown(arg, name, single)
    ensures |arg| >= 2 && arg[0] == '-' && arg != "--"
    ensures var body := if arg[1] == '-' then arg[2..] else arg[1..];
            var eq := IndexOf(body, '=');
            body[..eq] == name
  {
    var tail := arg[|Dashes(single) + name|..];
    assert arg == Dashes(single) + (name + tail);
    if single {
      assert arg[1..] == name + tail && arg[1] == name[0];
    } else {
      assert arg[2..] == name + tail;
    }
    if tail == "" {
      assert name + tail == name;
    } else {
      assert tail[0] == '=' && name + tail == name + ['='] + tail[1..];
      IndexOfIs(name, '=', tail[1..]);
    }
  }

  lemma UnknownIsBad(lib: Library, rest: seq<string>, f: Flags, name: string, single: bool)
    requires rest != [] && Unknown(rest[0], name, single)
    ensures ParseFlags(lib, rest, f) == Bad
  {
    UnknownReads(rest[0], name, single);
    assert Lookup(name).None?;
  }

  lemma LackIsBad(lib: Library, rest: seq<string>, f: Flags, flag: Flag, single: bool)
    requires LacksValue(rest, flag, single)
    ensures ParseFlags(lib, rest, f) == Bad
  {
    var name := Name(flag);
    NamesAreClean(flag);
    NameReads(flag, single, "");
    assert Dashes(single) + name + "" == Dashes(single) + name && name + "" == name && name[..|name|] == name;
  }

  lemma BadValueIsBad(lib: Library, rest: seq<string>, f: Flags, g: Given)
    requires HasBadValue(lib, rest, g)
    ensures ParseFlags(lib, rest, f) == Bad
  {
    var more := rest[|Typed(g)|..];
    assert rest == Typed(g) + more;
    if g.joined {
      JoinedIsTaken(lib, g, more, f);
    } else {
      ApartIsTaken(lib, g, more, f);
    }
  }

  lemma StuckStops(lib: Library, rest: seq<string>, f: Flags)
    requires rest != [] && Stuck(lib, rest)
    ensures var r := ParseFlags(lib, rest, f); r == Bad || (r.Ok? && r.value.1 != [])
  {
    if |rest[0]| < 2 || rest[0][0] != '-' || (rest[0] == "--" && |rest| > 1) {
    } else if name, single :| Unknown(rest[0], name, single) {
      UnknownIsBad(lib, rest, f, name, single);
    } else if flag, single :| LacksValue(rest, flag, single) {
      LackIsBad(lib, rest, f, flag, single);
    } else {
      var g :| HasBadValue(lib, rest, g);
      BadValueIsBad(lib, rest, f, g);
    }
  }

  /** Behind any readable flags: what is stuck is refused, a call for help is
      answered, and two lone dashes at the end change nothing. */
  lemma ParseStops(lib: Library, given: seq<Given>, rest: seq<string>)
    requires AllReadable(lib, given) && rest != []
    ensures Stuck(lib, rest) ==> Parse(lib, AllTyped(given) + rest) == Bad
    ensures rest[0] in {"-h", "--h", "-help", "--help"} ==> Parse(lib, AllTyped(given) + rest) == Help
    ensures rest == ["--"] ==> Parse(lib, AllTyped(given) + rest) == Parse(lib, AllTyped(given))
  {
    var f := TakenAll(lib, DEFAULTS, given);
    AllAreTaken(lib, given, rest, DEFAULTS);
    AllAreTaken(lib, given, [], DEFAULTS);
    assert AllTyped(given) + [] == AllTyped(given);
    if Stuck(lib, rest) {
      StuckStops(lib, rest, f);
    }
    if rest[0] in {"-h", "--h", "-help", "--help"} {
      HelpStops(lib, rest, f);
    }
  }

  lemma HelpStops(lib: Library, rest: seq<string>, f: Flags)
    requires rest != [] && rest[0] in {"-h", "--h", "-help", "--help"}
    ensures ParseFlags(lib, rest, f) == Help
  {
    var body := if rest[0][1] == '-' then rest[0][2..] else rest[0][1..];
    assert body == "h" || body == "help";
    assert body[..|body|] == body && IndexOf(body, '=') == |body|;
  }
}
