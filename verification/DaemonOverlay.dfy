/** Restarting a daemon with changed flags: the recovered arguments are edited as
    text, and the result parses to the recorded settings with exactly the explicit
    ones replaced. */
module DaemonOverlay {
  import opened Basics
  import opened DaemonArgs
  import opened DaemonRestart

  /** One edit of the argument list. */
  datatype Change = Setting(flag: Flag, value: string) | Toggle(flag: Flag, on: bool)

  function Edit(args: seq<string>, ch: Change): seq<string> {
    if ch.Setting? then WithFlag(args, Name(ch.flag), ch.value) else WithSwitch(args, Name(ch.flag), ch.on)
  }

  datatype Step = Step(on: bool, change: Change)

  const STEPS := 8

  /** The edits of a restart, in order. */
  function StepOf(lib: Library, p: Parsed, k: nat): Step {
    if k == 0 then Step(p.config.home != "", Setting(Home, p.config.home))
    else if k == 1 then Step(Repo in p.explicit, Setting(Repo, p.config.repo))
    else if k == 2 then Step(Session in p.explicit || Root in p.explicit, Setting(Session, p.config.session))
    else if k == 3 then Step(Poll in p.explicit, Setting(Poll, lib.showDuration(p.config.poll)))
    else if k == 4 then Step(Workers in p.explicit, Setting(Workers, lib.itoa(p.config.workers)))
    else if k == 5 then Step(Reviews in p.explicit, Toggle(Reviews, p.config.reviews))
    else if k == 6 then Step(Issues in p.explicit, Toggle(Issues, p.config.issues))
    else Step(Scheduler in p.explicit, Setting(Scheduler, p.config.scheduler))
  }

  function Made(args: seq<string>, step: Step): seq<string> {
    if step.on then Edit(args, step.change) else args
  }

  function EditFrom(lib: Library, p: Parsed, args: seq<string>, k: nat): seq<string>
    requires k <= STEPS
    decreases STEPS - k
  {
    if k == STEPS then args else EditFrom(lib, p, Made(args, StepOf(lib, p, k)), k + 1)
  }

  /** `withDaemonHomeArg`, then `overlayDaemonStartArgs`. */
  method RestartArgs(lib: Library, args: seq<string>, p: Parsed) returns (r: seq<string>)
    ensures r == EditFrom(lib, p, args, 0)
  {
    r := args;
    if p.config.home != "" {
      r := WithDaemonFlagArg(r, Name(Home), p.config.home);
    }
    r := Overlay(lib, r, p);
  }

  lemma EditStep(lib: Library, p: Parsed, k: nat, before: seq<string>, after: seq<string>) returns (now: seq<string>)
    requires k < STEPS && after == Made(before, StepOf(lib, p, k))
    ensures now == after && EditFrom(lib, p, before, k) == EditFrom(lib, p, after, k + 1)
  {
    now := after;
  }

  method Overlay(lib: Library, args: seq<string>, p: Parsed) returns (r: seq<string>)
    ensures r == EditFrom(lib, p, args, 1)
  {
    r := args;
    ghost var was := r;
    if Repo in p.explicit {
      r := WithDaemonFlagArg(r, Name(Repo), p.config.repo);
    }
    was := EditStep(lib, p, 1, was, r);
    if Session in p.explicit || Root in p.explicit {
      r := WithDaemonFlagArg(r, Name(Session), p.config.session);
    }
    was := EditStep(lib, p, 2, was, r);
    if Poll in p.explicit {
      r := WithDaemonFlagArg(r, Name(Poll), lib.showDuration(p.config.poll));
    }
    was := EditStep(lib, p, 3, was, r);
    if Workers in p.explicit {
      r := WithDaemonFlagArg(r, Name(Workers), lib.itoa(p.config.workers));
    }
    was := EditStep(lib, p, 4, was, r);
    r := OverlayModes(lib, r, p);
  }

  /** The last three edits: the two watch switches and the scheduler. */
  method OverlayModes(lib: Library, args: seq<string>, p: Parsed) returns (r: seq<string>)
    ensures r == EditFrom(lib, p, args, 5)
  {
    r := args;
    ghost var was := r;
    if Reviews in p.explicit {
      r := WithDaemonBoolFlagArg(r, Name(Reviews), p.config.reviews);
    }
    was := EditStep(lib, p, 5, was, r);
    if Issues in p.explicit {
      r := WithDaemonBoolFlagArg(r, Name(Issues), p.config.issues);
    }
    was := EditStep(lib, p, 6, was, r);
    if Scheduler in p.explicit {
      r := WithDaemonFlagArg(r, Name(Scheduler), p.config.scheduler);
    }
    was := EditStep(lib, p, 7, was, r);
  }

  // ---- an edit of the text is an edit of the flags, unless a value looks like one ----

  predicate Shaped(item: Item) { item.Switch? == IsSwitch(item.flag) }

  predicate AllShaped(items: seq<Item>) { forall item | item in items :: Shaped(item) }

  function Without(items: seq<Item>, flag: Flag): seq<Item> {
    if items == [] then []
    else (if items[0].flag == flag then [] else [items[0]]) + Without(items[1..], flag)
  }

  function Added(ch: Change): seq<Item> {
    if ch.Toggle? then (if ch.on then [Switch(ch.flag)] else [])
    else if ch.value == "" then [] else [Pair(ch.flag, ch.value)]
  }

  function EditItems(items: seq<Item>, ch: Change): seq<Item> { Without(items, ch.flag) + Added(ch) }

  /** The value of another flag that the editor of this flag takes for its own. */
  predicate Clash(item: Item, flag: Flag) {
    item.Pair? && item.flag != flag && Names(item.value, Name(flag))
  }

  lemma FlagNames(f: Flag, g: Flag)
    ensures Names(Dashed(Name(f)), Name(g)) <==> f == g
    ensures Dashed(Name(f)) == Dashed(Name(g)) <==> f == g
  {
    NamesAreClean(f);
    NamesAreClean(g);
    var a, b := Dashed(Name(f)), Dashed(Name(g));
    assert a[2..] == Name(f) && b[2..] == Name(g);
    PrefixSign(a, b);
  }

  lemma PrefixSign(a: string, b: string)
    ensures b + "=" <= a ==> '=' in a
  {
    if b + "=" <= a {
      assert a[|b|] == (b + "=")[|b|];
    }
  }

  /** Removing a flag, by either editor. */
  function Strip(args: seq<string>, flag: Flag): seq<string> {
    if IsSwitch(flag) then CleanedSwitch(args, Name(flag)) else Cleaned(args, Name(flag))
  }

  lemma StripItem(item: Item, rest: seq<string>, flag: Flag)
    requires Shaped(item) && !Clash(item, flag)
    ensures Strip(Spell(item) + rest, flag) == (if item.flag == flag then [] else Spell(item)) + Strip(rest, flag)
  {
    FlagNames(item.flag, flag);
    var args := Spell(item) + rest;
    var more := args[1..];
    if item.Pair? {
      assert more == [item.value] + rest && more[1..] == rest && args[2..] == rest;
      if item.flag != flag {
        assert Strip(more, flag) == [item.value] + Strip(rest, flag);
        assert Strip(args, flag) == [args[0]] + Strip(more, flag);
      }
    } else {
      assert more == rest;
    }
  }

  lemma {:induction false} StripRender(items: seq<Item>, flag: Flag)
    requires AllShaped(items) && forall item | item in items :: !Clash(item, flag)
    ensures Strip(Render(items), flag) == Render(Without(items, flag))
    decreases |items|
  {
    if items != [] {
      var rest := items[1..];
      assert items == [items[0]] + rest;
      StripItem(items[0], Render(rest), flag);
      StripRender(rest, flag);
      if items[0].flag == flag {
        assert Without(items, flag) == Without(rest, flag);
      } else {
        assert ([items[0]] + Without(rest, flag))[1..] == Without(rest, flag);
        assert Render(Without(items, flag)) == Spell(items[0]) + Render(Without(rest, flag));
      }
    }
  }

  lemma {:induction false} StripLeavesNone(args: seq<string>, flag: Flag, arg: string)
    ensures arg in Strip(args, flag) ==> !Names(arg, Name(flag))
    decreases |args|
  {
    if args != [] {
      StripLeavesNone(args[1..], flag, arg);
      if |args| > 1 {
        StripLeavesNone(args[2..], flag, arg);
      }
    }
  }

  lemma {:induction false} WithoutKeeps(items: seq<Item>, flag: Flag)
    ensures forall item :: item in Without(items, flag) <==> item in items && item.flag != flag
    decreases |items|
  {
    if items != [] {
      assert items == [items[0]] + items[1..];
      WithoutKeeps(items[1..], flag);
    }
  }

  lemma EditStrips(args: seq<string>, ch: Change)
    requires ch.Toggle? == IsSwitch(ch.flag)
    ensures Edit(args, ch) == Strip(args, ch.flag) + Render(Added(ch))
  {
    if Added(ch) != [] {
      var item := Added(ch)[0];
      assert [item][1..] == [];
      assert Render([item]) == Spell(item) + Render([]);
    }
  }

  /** The exact condition: editing the text of the arguments edits the flags, if
      and only if no other flag's value is spelt like the edited flag. */
  lemma EditIff(items: seq<Item>, ch: Change)
    requires AllShaped(items) && ch.Toggle? == IsSwitch(ch.flag)
    ensures Edit(Render(items), ch) == Render(EditItems(items, ch))
       <==> forall item | item in items :: !Clash(item, ch.flag)
  {
    var kept := Without(items, ch.flag);
    RenderAppend(kept, Added(ch));
    EditStrips(Render(items), ch);
    if item :| item in items && Clash(item, ch.flag) {
      ClashShows(items, item, ch.flag);
      SameSuffix(Strip(Render(items), ch.flag), Render(kept), Render(Added(ch)));
    } else {
      StripRender(items, ch.flag);
    }
  }

  lemma SameSuffix<T>(a: seq<T>, b: seq<T>, c: seq<T>)
    ensures a + c == b + c ==> a == b
  {
    if a + c == b + c {
      assert |a| == |b| && (a + c)[..|a|] == a && (b + c)[..|b|] == b;
    }
  }

  lemma ClashShows(items: seq<Item>, item: Item, flag: Flag)
    requires item in items && Clash(item, flag)
    ensures Strip(Render(items), flag) != Render(Without(items, flag))
  {
    var kept := Without(items, flag);
    WithoutKeeps(items, flag);
    InRender(kept, item.value);
    assert item in kept && item.value in Spell(item);
    StripLeavesNone(Render(items), flag, item.value);
  }

  // ---- the restart as a whole ------------------------------------------------------------

  function MadeItems(items: seq<Item>, step: Step): seq<Item> {
    if step.on then EditItems(items, step.change) else items
  }

  function ItemsFrom(lib: Library, p: Parsed, items: seq<Item>, k: nat): seq<Item>
    requires k <= STEPS
    decreases STEPS - k
  {
    if k == STEPS then items else ItemsFrom(lib, p, MadeItems(items, StepOf(lib, p, k)), k + 1)
  }

  predicate NoClash(items: seq<Item>, step: Step) {
    step.on ==> forall item | item in items :: !Clash(item, step.change.flag)
  }

  /** No edit takes the value of another flag for its own. */
  predicate Clear(lib: Library, p: Parsed, items: seq<Item>, k: nat)
    requires k <= STEPS
    decreases STEPS - k
  {
    k < STEPS ==> NoClash(items, StepOf(lib, p, k)) && Clear(lib, p, MadeItems(items, StepOf(lib, p, k)), k + 1)
  }

  predicate Sane(lib: Library, items: seq<Item>) { AllShaped(items) && AllPrintable(lib, items) }

  lemma AddedIsSane(lib: Library, p: Parsed, k: nat)
    requires k < STEPS && Lawful(lib) && p.config.poll > 0 && p.config.workers > 0
    ensures Sane(lib, Added(StepOf(lib, p, k).change))
  {
  }

  lemma MadeIsSane(lib: Library, p: Parsed, items: seq<Item>, k: nat)
    requires k < STEPS && Lawful(lib) && Valid(p.config) && Sane(lib, items)
    ensures Sane(lib, MadeItems(items, StepOf(lib, p, k)))
  {
    AddedIsSane(lib, p, k);
    WithoutKeeps(items, StepOf(lib, p, k).change.flag);
  }

  /** With no clash, the edited text is the edited flags. */
  lemma {:induction false} TextFollowsItems(lib: Library, p: Parsed, items: seq<Item>, k: nat)
    requires k <= STEPS && Lawful(lib) && Valid(p.config) && Sane(lib, items) && Clear(lib, p, items, k)
    ensures EditFrom(lib, p, Render(items), k) == Render(ItemsFrom(lib, p, items, k))
    ensures Sane(lib, ItemsFrom(lib, p, items, k))
    decreases STEPS - k
  {
    if k < STEPS {
      var step := StepOf(lib, p, k);
      MadeIsSane(lib, p, items, k);
      MadeText(items, step);
      TextFollowsItems(lib, p, MadeItems(items, step), k + 1);
    }
  }

  lemma MadeText(items: seq<Item>, step: Step)
    requires AllShaped(items) && step.change.Toggle? == IsSwitch(step.change.flag) && NoClash(items, step)
    ensures Made(Render(items), step) == Render(MadeItems(items, step))
  {
    if step.on {
      EditIff(items, step.change);
    }
  }

  lemma {:induction false} LatestAppend(a: seq<Item>, b: seq<Item>, flag: Flag)
    ensures Latest(a + b, flag) == if Latest(b, flag).Some? then Latest(b, flag) else Latest(a, flag)
    decreases |b|
  {
    if b == [] {
      assert a + b == a;
    } else {
      var front := b[..|b| - 1];
      assert (a + b)[..|a + b| - 1] == a + front;
      LatestAppend(a, front, flag);
    }
  }

  lemma {:induction false} LatestWithout(items: seq<Item>, without: Flag, flag: Flag)
    ensures Latest(Without(items, without), flag) == if flag == without then None else Latest(items, flag)
    decreases |items|
  {
    if items != [] {
      var head := [items[0]];
      var kept := if items[0].flag == without then [] else head;
      assert items == head + items[1..];
      assert head[..0] == [];
      LatestWithout(items[1..], without, flag);
      LatestAppend(head, items[1..], flag);
      LatestAppend(kept, Without(items[1..], without), flag);
    }
  }

  /** What an edit leaves as the value of its flag. */
  function Left(ch: Change): Option<string> {
    if ch.Toggle? then (if ch.on then Some("") else None)
    else if ch.value == "" then None else Some(ch.value)
  }

  /** The value of a flag after one step. */
  function Then(step: Step, flag: Flag, last: Option<string>): Option<string> {
    if step.on && flag == step.change.flag then Left(step.change) else last
  }

  lemma LatestMade(items: seq<Item>, step: Step, flag: Flag)
    ensures Latest(MadeItems(items, step), flag) == Then(step, flag, Latest(items, flag))
  {
    if step.on {
      var added := Added(step.change);
      assert added != [] ==> added[..0] == [];
      LatestWithout(items, step.change.flag, flag);
      LatestAppend(Without(items, step.change.flag), added, flag);
    }
  }

  function LastFrom(lib: Library, p: Parsed, flag: Flag, last: Option<string>, k: nat): Option<string>
    requires k <= STEPS
    decreases STEPS - k
  {
    if k == STEPS then last
    else
      var step := StepOf(lib, p, k);
      LastFrom(lib, p, flag, Then(step, flag, last), k + 1)
  }

  lemma LatestFrom(lib: Library, p: Parsed, items: seq<Item>, flag: Flag)
    ensures Latest(ItemsFrom(lib, p, items, 0), flag) == LastFrom(lib, p, flag, Latest(items, flag), 0)
  {
    var now, last := items, Latest(items, flag);
    for k := 0 to STEPS
      invariant ItemsFrom(lib, p, now, k) == ItemsFrom(lib, p, items, 0)
      invariant LastFrom(lib, p, flag, last, k) == LastFrom(lib, p, flag, Latest(items, flag), 0)
      invariant last == Latest(now, flag)
    {
      var step := StepOf(lib, p, k);
      LatestMade(now, step, flag);
      now, last := MadeItems(now, step), Then(step, flag, last);
    }
  }

  /** Each flag is edited by one step at most. */
  function Asked(lib: Library, p: Parsed, flag: Flag, last: Option<string>): Option<string> {
    match flag
    case Home => if p.config.home != "" then Some(p.config.home) else last
    case Repo => if Repo !in p.explicit then last else if p.config.repo == "" then None else Some(p.config.repo)
    case Session =>
      if Session !in p.explicit && Root !in p.explicit then last
      else if p.config.session == "" then None else Some(p.config.session)
    case Poll => if Poll in p.explicit then Left(Setting(Poll, lib.showDuration(p.config.poll))) else last
    case Workers => if Workers in p.explicit then Left(Setting(Workers, lib.itoa(p.config.workers))) else last
    case Reviews => if Reviews !in p.explicit then last else if p.config.reviews then Some("") else None
    case Issues => if Issues !in p.explicit then last else if p.config.issues then Some("") else None
    case Scheduler =>
      if Scheduler !in p.explicit then last else if p.config.scheduler == "" then None else Some(p.config.scheduler)
    case Root => last
    case Parallel => last
  }

  lemma LastIsAsked(lib: Library, p: Parsed, flag: Flag, last: Option<string>)
    ensures LastFrom(lib, p, flag, last, 0) == Asked(lib, p, flag, last)
  {
    var now := last;
    for k := 0 to STEPS
      invariant LastFrom(lib, p, flag, now, k) == LastFrom(lib, p, flag, last, 0)
      invariant now == Passed(lib, p, flag, last, k)
    {
      now := Then(StepOf(lib, p, k), flag, now);
    }
  }

  function Place(flag: Flag): nat {
    match flag
    case Home => 0 case Repo => 1 case Session => 2 case Poll => 3
    case Workers => 4 case Reviews => 5 case Issues => 6 case Scheduler => 7
    case Root => STEPS case Parallel => STEPS
  }

  function Passed(lib: Library, p: Parsed, flag: Flag, last: Option<string>, k: nat): Option<string> {
    if Place(flag) < k then Asked(lib, p, flag, last) else last
  }

  /** The recorded settings with exactly the explicit ones replaced, and the
      scheduler selected anew. */
  function Updated(c: Config, p: Parsed): Config {
    var workers := if Workers in p.explicit then p.config.workers else c.workers;
    var asked := Scheduler in p.explicit;
    Config(
      if p.config.home != "" then p.config.home else c.home,
      if Repo in p.explicit then p.config.repo else c.repo,
      if Session in p.explicit || Root in p.explicit then p.config.session else c.session,
      if Poll in p.explicit then p.config.poll else c.poll,
      workers,
      if Reviews in p.explicit then p.config.reviews else c.reviews,
      if Issues in p.explicit then p.config.issues else c.issues,
      if asked && p.config.scheduler != "" then p.config.scheduler
      else if !asked && IsPool(c.scheduler) then "pool"
      else AutoSelect("barrier", workers, false))
  }

  ghost predicate Edited(lib: Library, c: Config, p: Parsed, items: seq<Item>) {
    forall flag :: Latest(items, flag) == Asked(lib, p, flag, Printed(lib, c, flag))
  }

  lemma ReadingTexts(lib: Library, c: Config, p: Parsed, items: seq<Item>)
    requires Edited(lib, c, p, items)
    ensures var r, u := Reading(lib, items), Updated(c, p);
            && r.home == u.home && r.repo == u.repo && r.session == u.session
            && r.reviews == u.reviews && r.issues == u.issues
  {
  }

  lemma ReadingNumbers(lib: Library, c: Config, p: Parsed, items: seq<Item>)
    requires Edited(lib, c, p, items)
    requires Lawful(lib) && c.poll > 0 && c.workers > 0 && p.config.poll > 0 && p.config.workers > 0
    ensures Reading(lib, items).poll == Updated(c, p).poll && Reading(lib, items).workers == Updated(c, p).workers
  {
    assert Latest(items, Poll) == Some(lib.showDuration(Updated(c, p).poll));
    assert Latest(items, Workers) == Some(lib.itoa(Updated(c, p).workers));
  }

  lemma ReadingIsUpdated(lib: Library, c: Config, p: Parsed, items: seq<Item>)
    requires Edited(lib, c, p, items)
    requires Lawful(lib) && c.poll > 0 && c.workers > 0 && p.config.poll > 0 && p.config.workers > 0
    ensures Reading(lib, items) == Updated(c, p)
  {
    ReadingTexts(lib, c, p, items);
    ReadingNumbers(lib, c, p, items);
    assert Latest(items, Scheduler) == Asked(lib, p, Scheduler, Printed(lib, c, Scheduler));
  }

  lemma UpdatedIsValid(c: Config, p: Parsed)
    requires Valid(c) && Valid(p.config)
    ensures Valid(Updated(c, p))
  {
    PoolIsPool();
  }

  /** A restart parses to the update, when no value is spelt like a flag that the
      restart drops or edits. */
  lemma RestartIsUpdate(lib: Library, c: Config, p: Parsed)
    requires Lawful(lib) && Valid(c) && Valid(p.config)
    requires c.home != DRY_RUN && c.session != DRY_RUN && Clear(lib, p, ChildItems(lib, c), 0)
    ensures var r := Parse(lib, EditFrom(lib, p, StartArgs(RUN + Render(ChildItems(lib, c))), 0));
            r.Ok? && r.value.config == Updated(c, p)
  {
    var items := ChildItems(lib, c);
    RecoveredIff(lib, c);
    ChildIsPrintable(lib, c);
    ChildItem(lib, c);
    assert AllShaped(items);
    TextFollowsItems(lib, p, items, 0);
    var edited := ItemsFrom(lib, p, items, 0);
    forall flag
      ensures Latest(edited, flag) == Asked(lib, p, flag, Printed(lib, c, flag))
    {
      ChildPrints(lib, c, flag);
      LatestFrom(lib, p, items, flag);
      LastIsAsked(lib, p, flag, Latest(items, flag));
    }
    ReadingIsUpdated(lib, c, p, edited);
    UpdatedIsValid(c, p);
    ParseReads(lib, edited);
  }

  /** An explicit scheduler survives the restart, except an empty one when several
      workers make the parser select the pool. */
  lemma AskedModeIff(lib: Library, c: Config, p: Parsed)
    requires Lawful(lib) && Valid(c) && Valid(p.config) && Scheduler in p.explicit
    requires c.home != DRY_RUN && c.session != DRY_RUN && Clear(lib, p, ChildItems(lib, c), 0)
    ensures var r := Parse(lib, EditFrom(lib, p, StartArgs(RUN + Render(ChildItems(lib, c))), 0));
            && r.Ok?
            && (IsPool(r.value.config.scheduler) == IsPool(p.config.scheduler)
                <==> p.config.scheduler != "" || r.value.config.workers == 1)
  {
    RestartIsUpdate(lib, c, p);
    PoolIsPool();
    assert !IsPool("");
  }
}
