/** What the parser makes of start arguments that lost the value of a flag: the
    flag takes the next argument for its value, and the result is never the
    configuration that was meant. */
module DaemonMisread {
  import opened Basics
  import opened Text
  import opened DaemonArgs
  import opened DaemonRestart

  /** The flags whose values can be any text. */
  predicate IsText(g: Flag) { g.Home? || g.Repo? || g.Session? }

  function TextOf(f: Flags, g: Flag): string
    requires IsText(g)
  {
    if g.Home? then f.home else if g.Repo? then f.repo else f.session
  }

  function Meant(u: Config, g: Flag): string
    requires IsText(g)
  {
    if g.Home? then u.home else if g.Repo? then u.repo else u.session
  }

  /** The arguments were parsed to the end and say what was meant. */
  predicate Right(r: Outcome<(Flags, seq<string>)>, u: Config) {
    && r.Ok? && r.value.1 == []
    && r.value.0.home == u.home && r.value.0.repo == u.repo && r.value.0.session == u.session
    && r.value.0.reviews == u.reviews && r.value.0.issues == u.issues
  }

  predicate Off(f: Flags, u: Config, g: Flag) { IsText(g) && TextOf(f, g) != Meant(u, g) }

  // ---- one argument where the parser expects a flag ------------------------------------

  datatype Argument = Stops | Ends | Breaks | Sets(flag: Flag, value: string) | Turns(flag: Flag) | Takes(flag: Flag)

  /** The argument without its dashes. */
  function Body(arg: string): string
    requires |arg| >= 2
  {
    if arg[1] == '-' then arg[2..] else arg[1..]
  }

  function ReadArg(arg: string): Argument {
    if |arg| < 2 || arg[0] != '-' then Stops
    else if arg == "--" then Ends
    else
      var body := Body(arg);
      var eq := IndexOf(body, '=');
      var flag := Lookup(body[..eq]);
      if body[..eq] == "" || body[0] == '-' || flag.None? then Breaks
      else if eq < |body| then Sets(flag.value, body[eq + 1..])
      else if IsSwitch(flag.value) then Turns(flag.value)
      else Takes(flag.value)
  }

  /** The rest is parsed with the flag set. */
  function Goes(lib: Library, f: Flags, flag: Flag, value: string, rest: seq<string>): Outcome<(Flags, seq<string>)> {
    var next := Assign(lib, f, flag, value);
    if next.None? then Bad else ParseFlags(lib, rest, next.value)
  }

  lemma ParseStops(lib: Library, arg: string, rest: seq<string>, f: Flags)
    ensures var r, a := ParseFlags(lib, [arg] + rest, f), ReadArg(arg);
            && (a.Stops? ==> r == Ok((f, [arg] + rest)))
            && (a.Ends? ==> r == Ok((f, rest)))
            && (a.Breaks? ==> !r.Ok?)
  {
    Heads(arg, rest);
  }

  lemma ParseSets(lib: Library, arg: string, rest: seq<string>, f: Flags)
    ensures var r, a := ParseFlags(lib, [arg] + rest, f), ReadArg(arg);
            && (a.Sets? ==> r == Goes(lib, f, a.flag, a.value, rest))
            && (a.Turns? ==> r == ParseFlags(lib, rest, TurnOn(f, a.flag)))
  {
    Heads(arg, rest);
  }

  lemma ParseTakes(lib: Library, arg: string, rest: seq<string>, f: Flags)
    requires ReadArg(arg).Takes?
    ensures ParseFlags(lib, [arg] + rest, f)
         == if rest == [] then Bad else Goes(lib, f, ReadArg(arg).flag, rest[0], rest[1..])
  {
    Heads(arg, rest);
  }

  lemma ParseStep(lib: Library, arg: string, rest: seq<string>, f: Flags)
    ensures var r, a := ParseFlags(lib, [arg] + rest, f), ReadArg(arg);
            && (a.Stops? ==> r == Ok((f, [arg] + rest)))
            && (a.Ends? ==> r == Ok((f, rest)))
            && (a.Breaks? ==> !r.Ok?)
            && (a.Sets? ==> r == Goes(lib, f, a.flag, a.value, rest))
            && (a.Turns? ==> r == ParseFlags(lib, rest, TurnOn(f, a.flag)))
            && (a.Takes? ==> r == if rest == [] then Bad else Goes(lib, f, a.flag, rest[0], rest[1..]))
  {
    ParseStops(lib, arg, rest, f);
    ParseSets(lib, arg, rest, f);
    if ReadArg(arg).Takes? {
      ParseTakes(lib, arg, rest, f);
    }
  }

  lemma Heads<T>(x: T, rest: seq<T>)
    ensures ([x] + rest)[0] == x && ([x] + rest)[1..] == rest
    ensures rest != [] ==> ([x] + rest)[1] == rest[0] && ([x] + rest)[2..] == rest[1..]
  {
  }

  lemma NamesRead(flag: Flag)
    ensures ReadArg(Dashed(Name(flag))) == if IsSwitch(flag) then Turns(flag) else Takes(flag)
  {
    NamesAreClean(flag);
    var name := Name(flag);
    assert Dashed(name)[2..] == name && name[..|name|] == name;
  }

  lemma SetsLess(arg: string)
    requires ReadArg(arg).Sets?
    ensures |ReadArg(arg).value| < |arg|
  {
  }

  lemma LookupIsName(name: string)
    ensures Lookup(name).Some? ==> name == Name(Lookup(name).value)
  {
  }

  lemma NoSlashInNames(flag: Flag)
    ensures '/' !in Name(flag)
  {
  }

  /** A repository where a flag is expected is at best a flag with another value. */
  lemma RepoReads(arg: string)
    requires '/' in arg
    ensures ReadArg(arg).Stops? || ReadArg(arg).Breaks? || (ReadArg(arg).Sets? && |ReadArg(arg).value| < |arg|)
  {
    SlashInBody(arg);
    if |arg| >= 2 {
      LookupIsName(Body(arg));
      if Lookup(Body(arg)).Some? {
        NoSlashInNames(Lookup(Body(arg)).value);
      }
      assert Body(arg)[..|Body(arg)|] == Body(arg);
    }
  }

  lemma SlashInBody(arg: string)
    requires '/' in arg
    ensures |arg| >= 2 && arg[0] == '-' ==> '/' in Body(arg)
  {
  }

  // ---- what follows the texts: switches, the scheduler and at most one added flag -----

  /** Arguments made of the watch switches and `--scheduler pool`, or what is left
      of such a list when its first argument is taken away. */
  predicate Closed(t: seq<string>)
    decreases |t|
  {
    t != [] ==>
      if t[0] == "--scheduler" then |t| >= 2 && t[1] == "pool" && Closed(t[2..])
      else t[0] in {"--watch-skillopt-reviews", "--watch-issues", "pool"} && Closed(t[1..])
  }

  /** At most one flag, with the value that is meant. */
  predicate Fits(added: seq<Item>, u: Config) {
    && |added| <= 1
    && forall item | item in added ::
         if item.Switch? then (item.flag.Reviews? && u.reviews) || (item.flag.Issues? && u.issues)
         else
           && item.value != "" && !IsSwitch(item.flag) && !item.flag.Root?
           && if IsText(item.flag) then Meant(u, item.flag) == item.value else item.value[0] != '-'
  }

  predicate IsAdded(added: seq<Item>, g: Flag) { exists item :: item in added && item.flag == g }

  /** The added flag has not been read yet. */
  predicate Unread(f: Flags, item: Item) {
    if item.Switch? then (if item.flag.Reviews? then !f.reviews else !f.issues)
    else IsText(item.flag) ==> TextOf(f, item.flag) != item.value || item.value == Dashed(Name(item.flag))
  }

  predicate AllUnread(f: Flags, added: seq<Item>) { forall item | item in added :: Unread(f, item) }

  lemma RenderOne(item: Item)
    ensures Render([item]) == Spell(item)
  {
    assert [item][1..] == [];
    assert Render([item]) == Spell(item) + Render([]);
  }

  lemma GoesOff(lib: Library, f: Flags, flag: Flag, value: string, u: Config, g: Flag)
    requires Off(f, u, g) && flag != g && !(g.Session? && flag.Root?)
    ensures var next := Assign(lib, f, flag, value); next.Some? ==> Off(next.value, u, g)
  {
  }

  /** An added flag does not repair another one. */
  lemma AddedLast(lib: Library, added: seq<Item>, f: Flags, u: Config, g: Flag)
    requires Fits(added, u) && Off(f, u, g) && !IsAdded(added, g)
    ensures !Right(ParseFlags(lib, Render(added), f), u)
  {
    if added != [] {
      var item := added[0];
      assert added == [item] && item in added;
      RenderOne(item);
      NamesRead(item.flag);
      var rest := if item.Pair? then [item.value] else [];
      assert Spell(item) == [Dashed(Name(item.flag))] + rest;
      ParseStep(lib, Dashed(Name(item.flag)), rest, f);
      if item.Pair? {
        GoesOff(lib, f, item.flag, item.value, u, g);
      }
    }
  }

  lemma SwitchStep(lib: Library, flag: Flag, rest: seq<string>, f: Flags)
    requires IsSwitch(flag)
    ensures ParseFlags(lib, [Dashed(Name(flag))] + rest, f) == ParseFlags(lib, rest, TurnOn(f, flag))
  {
    NamesRead(flag);
    ParseStep(lib, Dashed(Name(flag)), rest, f);
  }

  lemma PairStep(lib: Library, flag: Flag, value: string, rest: seq<string>, f: Flags)
    requires !IsSwitch(flag)
    ensures ParseFlags(lib, [Dashed(Name(flag)), value] + rest, f) == Goes(lib, f, flag, value, rest)
  {
    NamesRead(flag);
    var more := [value] + rest;
    assert [Dashed(Name(flag)), value] + rest == [Dashed(Name(flag))] + more;
    assert more[1..] == rest;
    ParseStep(lib, Dashed(Name(flag)), more, f);
  }

  lemma StopStep(lib: Library, arg: string, rest: seq<string>, f: Flags, u: Config)
    requires |arg| < 2 || arg[0] != '-'
    ensures !Right(ParseFlags(lib, [arg] + rest, f), u)
  {
    ParseStep(lib, arg, rest, f);
  }

  /** Nor do switches and the scheduler. */
  lemma {:induction false} ClosedLast(lib: Library, t: seq<string>, added: seq<Item>, f: Flags, u: Config, g: Flag)
    requires Closed(t) && Fits(added, u) && Off(f, u, g) && !IsAdded(added, g)
    ensures !Right(ParseFlags(lib, t + Render(added), f), u)
    decreases |t|
  {
    if t == [] {
      assert t + Render(added) == Render(added);
      AddedLast(lib, added, f, u, g);
    } else {
      var more := Render(added);
      if t[0] == "--scheduler" {
        assert t + more == [t[0], t[1]] + (t[2..] + more);
        ClosedMode(lib, t, added, f, u, g);
      } else {
        assert t + more == [t[0]] + (t[1..] + more);
        ClosedFirst(lib, t, added, f, u, g);
      }
    }
  }

  lemma {:induction false} ClosedMode(lib: Library, t: seq<string>, added: seq<Item>, f: Flags, u: Config, g: Flag)
    requires Closed(t) && Fits(added, u) && Off(f, u, g) && !IsAdded(added, g) && t != [] && t[0] == "--scheduler"
    ensures !Right(ParseFlags(lib, [t[0], t[1]] + (t[2..] + Render(added)), f), u)
    decreases |t|, 0
  {
    DashedNames();
    PairStep(lib, Scheduler, t[1], t[2..] + Render(added), f);
    ClosedLast(lib, t[2..], added, Assign(lib, f, Scheduler, t[1]).value, u, g);
  }

  lemma {:induction false} ClosedFirst(lib: Library, t: seq<string>, added: seq<Item>, f: Flags, u: Config, g: Flag)
    requires Closed(t) && Fits(added, u) && Off(f, u, g) && !IsAdded(added, g) && t != [] && t[0] != "--scheduler"
    ensures !Right(ParseFlags(lib, [t[0]] + (t[1..] + Render(added)), f), u)
    decreases |t|, 0
  {
    DashedNames();
    var rest := t[1..] + Render(added);
    if t[0] == "pool" {
      StopStep(lib, t[0], rest, f, u);
    } else {
      var flag := if t[0] == "--watch-issues" then Issues else Reviews;
      SwitchStep(lib, flag, rest, f);
      ClosedLast(lib, t[1..], added, TurnOn(f, flag), u, g);
    }
  }

  lemma ClosedTail(t: seq<string>)
    requires Closed(t) && t != []
    ensures Closed(t[1..])
    ensures t[0] in {"--watch-skillopt-reviews", "--watch-issues", "--scheduler", "pool"}
  {
    if t[0] == "--scheduler" {
      assert t[1..][1..] == t[2..];
    }
  }

  lemma AssignText(lib: Library, f: Flags, flag: Flag, value: string, g: Flag)
    requires IsText(g)
    ensures var next := Assign(lib, f, flag, value);
            next.Some? ==>
              TextOf(next.value, g) == (if flag == g || (flag.Root? && g.Session?) then value else TextOf(f, g))
  {
  }

  /** A text on its own where a flag is expected does not give a flag that text. */
  lemma TextAlone(lib: Library, s: string, f: Flags, u: Config, g: Flag)
    requires IsText(g) && s == Meant(u, g) && (TextOf(f, g) != s || s == Dashed(Name(g)))
    ensures !Right(ParseFlags(lib, [s] + [], f), u)
  {
    ParseStep(lib, s, [], f);
    NamesRead(g);
    var a := ReadArg(s);
    if a.Sets? {
      SetsLess(s);
      AssignText(lib, f, a.flag, a.value, g);
    }
  }

  /** The name of the added flag is taken for a value: its own value is then read
      as a flag, or is missing. */
  lemma AddedIsTaken(lib: Library, added: seq<Item>, f: Flags, u: Config)
    requires Fits(added, u) && added != [] && Unread(f, added[0])
    ensures !Right(ParseFlags(lib, Render(added)[1..], f), u)
  {
    var item := added[0];
    assert added == [item] && item in added;
    RenderOne(item);
    if item.Pair? {
      assert Render(added)[1..] == [item.value] + [];
      if IsText(item.flag) {
        TextAlone(lib, item.value, f, u, item.flag);
      } else {
        StopStep(lib, item.value, [], f, u);
      }
    }
  }

  lemma {:induction false} ClosedIsQuiet(t: seq<string>)
    requires Closed(t)
    ensures forall arg | arg in t :: arg in {"--watch-skillopt-reviews", "--watch-issues", "--scheduler", "pool"}
    decreases |t|
  {
    if t != [] {
      ClosedTail(t);
      assert t == [t[0]] + t[1..];
      ClosedIsQuiet(t[1..]);
    }
  }

  lemma ClosedGrows(t: seq<string>)
    requires Closed(t)
    ensures Closed(["--watch-skillopt-reviews"] + t) && Closed(["--watch-issues"] + t)
    ensures Closed(["--scheduler", "pool"] + t)
  {
    assert (["--watch-skillopt-reviews"] + t)[1..] == t && (["--watch-issues"] + t)[1..] == t;
    assert (["--scheduler", "pool"] + t)[2..] == t;
  }

  /** A text flag whose value was lost takes the next argument. */
  lemma TakesNext(lib: Library, g: Flag, t: seq<string>, added: seq<Item>, f: Flags, u: Config)
    requires IsText(g) && Closed(t) && Fits(added, u) && !IsAdded(added, g)
    requires Meant(u, g) !in t && AllUnread(f, added)
    ensures !Right(ParseFlags(lib, [Dashed(Name(g))] + (t + Render(added)), f), u)
  {
    var rest := t + Render(added);
    if rest == [] {
      NamesRead(g);
      ParseStep(lib, Dashed(Name(g)), [], f);
    } else {
      assert [Dashed(Name(g))] + rest == [Dashed(Name(g)), rest[0]] + rest[1..];
      PairStep(lib, g, rest[0], rest[1..], f);
      TakenLast(lib, t, added, Assign(lib, f, g, rest[0]).value, u, g);
    }
  }

  /** The first argument is gone, and the text flag that took it has a wrong value
      or took the name of the added flag. */
  lemma TakenLast(lib: Library, t: seq<string>, added: seq<Item>, f: Flags, u: Config, g: Flag)
    requires IsText(g) && Closed(t) && Fits(added, u) && !IsAdded(added, g) && t + Render(added) != []
    requires if t != [] then Off(f, u, g) else AllUnread(f, added)
    ensures !Right(ParseFlags(lib, (t + Render(added))[1..], f), u)
  {
    var rest := t + Render(added);
    if t != [] {
      ClosedTail(t);
      assert rest[1..] == t[1..] + Render(added);
      ClosedLast(lib, t[1..], added, f, u, g);
    } else {
      assert rest == Render(added);
      assert added != [] && added[0] in added;
      AddedIsTaken(lib, added, f, u);
    }
  }

  // ---- the three texts, one after the other -----------------------------------------------

  /** A session where a flag is expected. */
  lemma SessionLoose(lib: Library, s: string, t: seq<string>, added: seq<Item>, f: Flags, u: Config)
    requires s == u.session && f.session != s && Closed(t) && Fits(added, u)
    requires !IsAdded(added, Session) && AllUnread(f, added)
    ensures !Right(ParseFlags(lib, [s] + (t + Render(added)), f), u)
  {
    var rest := t + Render(added);
    ParseStep(lib, s, rest, f);
    var a := ReadArg(s);
    if a.Sets? {
      SetsLess(s);
      AssignText(lib, f, a.flag, a.value, Session);
      var next := Assign(lib, f, a.flag, a.value);
      if next.Some? {
        ClosedLast(lib, t, added, next.value, u, Session);
      }
    } else if a.Turns? {
      ClosedLast(lib, t, added, TurnOn(f, a.flag), u, Session);
    } else if a.Takes? && rest != [] {
      SessionTakes(lib, s, a.flag, t, added, f, u);
    }
  }

  lemma QuietIsNoSession(arg: string)
    requires arg in {"--watch-skillopt-reviews", "--watch-issues", "--scheduler", "pool"}
    ensures ReadArg(arg) != Takes(Session) && ReadArg(arg) != Takes(Root)
  {
    DashedNames();
    NamesRead(Scheduler);
    NamesRead(Issues);
    NamesRead(Reviews);
  }

  lemma SessionTakes(lib: Library, s: string, flag: Flag, t: seq<string>, added: seq<Item>, f: Flags, u: Config)
    requires s == u.session && f.session != s && Closed(t) && Fits(added, u) && t + Render(added) != []
    requires !IsAdded(added, Session) && AllUnread(f, added) && ReadArg(s) == Takes(flag)
    ensures !Right(Goes(lib, f, flag, (t + Render(added))[0], (t + Render(added))[1..]), u)
  {
    var rest := t + Render(added);
    var next := Assign(lib, f, flag, rest[0]);
    if next.Some? {
      if t != [] {
        SessionTakesQuiet(lib, s, flag, t, f, next.value);
        assert rest[0] == t[0];
      } else {
        assert rest == Render(added);
        NextUnread(lib, f, flag, added, next.value);
      }
      TakenLast(lib, t, added, next.value, u, Session);
    }
  }

  lemma SessionTakesQuiet(lib: Library, s: string, flag: Flag, t: seq<string>, f: Flags, next: Flags)
    requires t != [] && Closed(t) && f.session != s && ReadArg(s) == Takes(flag)
    requires Assign(lib, f, flag, t[0]) == Some(next)
    ensures next.session != s
  {
    ClosedTail(t);
    QuietIsNoSession(t[0]);
    AssignText(lib, f, flag, t[0], Session);
  }

  /** Taking the name of the added flag for a value does not read the flag. */
  lemma NextUnread(lib: Library, f: Flags, flag: Flag, added: seq<Item>, next: Flags)
    requires AllUnread(f, added) && |added| == 1 && !IsSwitch(flag) && !IsAdded(added, Session)
    requires Assign(lib, f, flag, Render(added)[0]) == Some(next)
    ensures AllUnread(next, added)
  {
    var item := added[0];
    assert added == [item] && item in added;
    RenderOne(item);
    if IsText(item.flag) {
      AssignText(lib, f, flag, Render(added)[0], item.flag);
    }
  }

  /** What is left of the session among the arguments. */
  datatype Part = Gone | Whole | Lost

  function Words(part: Part, g: Flag, value: string): seq<string> {
    match part
    case Gone => []
    case Whole => [Dashed(Name(g)), value]
    case Lost => [Dashed(Name(g))]
  }

  /** A lost session is meant, and nothing else supplies it. */
  predicate Fair(part: Part, u: Config, t: seq<string>, added: seq<Item>) {
    && Closed(t) && Fits(added, u)
    && (part != Gone ==> !IsAdded(added, Session))
    && (part == Lost ==> u.session !in t)
  }

  function After(part: Part, u: Config, t: seq<string>, added: seq<Item>): seq<string> {
    Words(part, Session, u.session) + (t + Render(added))
  }

  /** The session does not repair the home or the repository. */
  lemma SessionLast(lib: Library, part: Part, t: seq<string>, added: seq<Item>, f: Flags, u: Config, g: Flag)
    requires Fair(part, u, t, added) && Off(f, u, g) && !g.Session? && !IsAdded(added, g)
    requires part == Lost ==> forall item | item in added :: item.Switch? || Unread(f, item)
    ensures !Right(ParseFlags(lib, After(part, u, t, added), f), u)
  {
    var rest := t + Render(added);
    match part
    case Gone =>
      assert [] + rest == rest;
      ClosedLast(lib, t, added, f, u, g);
    case Whole =>
      PairStep(lib, Session, u.session, rest, f);
      ClosedLast(lib, t, added, Assign(lib, f, Session, u.session).value, u, g);
    case Lost =>
      LostSessionLast(lib, t, added, f, u, g);
  }

  lemma LostSessionLast(lib: Library, t: seq<string>, added: seq<Item>, f: Flags, u: Config, g: Flag)
    requires Fair(Lost, u, t, added) && Off(f, u, g) && !g.Session? && !IsAdded(added, g)
    requires forall item | item in added :: item.Switch? || Unread(f, item)
    ensures !Right(ParseFlags(lib, [Dashed(Name(Session))] + (t + Render(added)), f), u)
  {
    var rest := t + Render(added);
    if t == [] && added != [] && added[0].Switch? {
      assert added == [added[0]];
      RenderOne(added[0]);
      assert [Dashed(Name(Session))] + rest == [Dashed(Name(Session)), rest[0]] + [];
      PairStep(lib, Session, rest[0], [], f);
    } else if t == [] {
      TakesNext(lib, Session, t, added, f, u);
    } else {
      assert [Dashed(Name(Session))] + rest == [Dashed(Name(Session)), rest[0]] + rest[1..];
      PairStep(lib, Session, rest[0], rest[1..], f);
      TakenLast(lib, t, added, Assign(lib, f, Session, rest[0]).value, u, g);
    }
  }

  /** The home or the repository lost its value; what follows is the session. */
  lemma TakesSession(lib: Library, g: Flag, part: Part, t: seq<string>, added: seq<Item>, f: Flags, u: Config)
    requires Fair(part, u, t, added) && IsText(g) && !g.Session? && !IsAdded(added, g)
    requires Meant(u, g) !in t && AllUnread(f, added) && f.session == ""
    requires part != Gone ==> Meant(u, g) != Dashed(Name(Session)) && u.session != ""
    ensures !Right(ParseFlags(lib, [Dashed(Name(g))] + After(part, u, t, added), f), u)
  {
    var rest := t + Render(added);
    var name := Dashed(Name(Session));
    if part == Gone {
      assert After(part, u, t, added) == rest;
      TakesNext(lib, g, t, added, f, u);
    } else {
      var more := if part == Whole then [u.session] + rest else rest;
      NameFirst(Dashed(Name(g)), part, Session, u.session, rest);
      PairStep(lib, g, name, more, f);
      TextUnread(lib, f, g, name, added);
      SessionTaken(lib, g, part, t, added, Assign(lib, f, g, name).value, u);
    }
  }

  lemma SessionTaken(lib: Library, g: Flag, part: Part, t: seq<string>, added: seq<Item>, f: Flags, u: Config)
    requires Fair(part, u, t, added) && part != Gone && !IsAdded(added, g) && AllUnread(f, added)
    requires Off(f, u, g) && f.session != u.session
    ensures var rest := t + Render(added);
            !Right(ParseFlags(lib, if part == Whole then [u.session] + rest else rest, f), u)
  {
    if part == Whole {
      SessionLoose(lib, u.session, t, added, f, u);
    } else {
      ClosedLast(lib, t, added, f, u, g);
    }
  }

  lemma TextUnread(lib: Library, f: Flags, g: Flag, value: string, added: seq<Item>)
    requires AllUnread(f, added) && IsText(g) && !IsAdded(added, g)
    ensures var next := Assign(lib, f, g, value);
            next.Some? && AllUnread(next.value, added) && (!g.Session? ==> next.value.session == f.session)
  {
  }

  /** A repository where a flag is expected. */
  lemma RepoLoose(lib: Library, part: Part, t: seq<string>, added: seq<Item>, f: Flags, u: Config)
    requires Fair(part, u, t, added) && '/' in u.repo && f.repo != u.repo
    requires !IsAdded(added, Home) && !IsAdded(added, Repo) && AllUnread(f, added)
    ensures !Right(ParseFlags(lib, [u.repo] + After(part, u, t, added), f), u)
  {
    RepoReads(u.repo);
    ParseStep(lib, u.repo, After(part, u, t, added), f);
    var a := ReadArg(u.repo);
    if a.Sets? {
      var next := Assign(lib, f, a.flag, a.value);
      if next.Some? {
        AssignText(lib, f, a.flag, a.value, Repo);
        SessionLast(lib, part, t, added, next.value, u, Repo);
      }
    }
  }

  /** The home lost its value; what follows is the repository. */
  lemma TakesRepo(lib: Library, repo: Part, part: Part, t: seq<string>, added: seq<Item>, f: Flags, u: Config)
    requires Fair(part, u, t, added) && !IsAdded(added, Home) && u.home !in t && AllUnread(f, added)
    requires f.session == "" && f.repo == ""
    requires part != Gone ==> u.home != Dashed(Name(Session)) && u.session != ""
    requires repo != Gone ==> u.home != Dashed(Name(Repo)) && '/' in u.repo && !IsAdded(added, Repo)
    ensures !Right(ParseFlags(lib, [Dashed(Name(Home))] + (Words(repo, Repo, u.repo) + After(part, u, t, added)), f), u)
  {
    var rest := After(part, u, t, added);
    var name := Dashed(Name(Repo));
    if repo == Gone {
      assert Words(repo, Repo, u.repo) + rest == rest;
      TakesSession(lib, Home, part, t, added, f, u);
    } else {
      var more := if repo == Whole then [u.repo] + rest else rest;
      NameFirst(Dashed(Name(Home)), repo, Repo, u.repo, rest);
      PairStep(lib, Home, name, more, f);
      TextUnread(lib, f, Home, name, added);
      RepoTaken(lib, repo, part, t, added, Assign(lib, f, Home, name).value, u);
    }
  }

  lemma NameFirst(arg: string, part: Part, g: Flag, value: string, rest: seq<string>)
    requires part != Gone
    ensures [arg] + (Words(part, g, value) + rest)
         == [arg, Dashed(Name(g))] + if part == Whole then [value] + rest else rest
  {
  }

  lemma RepoTaken(lib: Library, repo: Part, part: Part, t: seq<string>, added: seq<Item>, f: Flags, u: Config)
    requires Fair(part, u, t, added) && repo != Gone && !IsAdded(added, Home) && !IsAdded(added, Repo)
    requires AllUnread(f, added) && f.home != u.home && f.repo == "" && '/' in u.repo
    ensures var rest := After(part, u, t, added);
            !Right(ParseFlags(lib, if repo == Whole then [u.repo] + rest else rest, f), u)
  {
    if repo == Whole {
      RepoLoose(lib, part, t, added, f, u);
    } else {
      SessionLast(lib, part, t, added, f, u, Home);
    }
  }
}
