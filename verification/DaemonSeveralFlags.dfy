/** Restarts with several explicit flags: a condition on the texts under which they
    come out as meant, and why no condition on single edits is necessary. */
module DaemonSeveralFlags {
  import opened Basics
  import opened DaemonArgs
  import opened DaemonMisread
  import opened DaemonOneFlag
  import opened DaemonOverlay
  import opened DaemonRestart
  import opened DaemonRoundTrip
  import opened Text

  // ---- several flags ---------------------------------------------------------------------------

  /** No text, recorded or asked for, is spelt like an edited flag of another name. */
  predicate Plain(lib: Library, c: Config, p: Parsed) {
    forall j: nat | j < STEPS && StepOf(lib, p, j).on ::
      Unmistaken(c, StepOf(lib, p, j).change.flag) && Unmistaken(p.config, StepOf(lib, p, j).change.flag)
  }

  ghost predicate Calm(lib: Library, p: Parsed, items: seq<Item>) {
    forall j: nat, item | j < STEPS && StepOf(lib, p, j).on && item in items ::
      !Clash(item, StepOf(lib, p, j).change.flag)
  }

  lemma NoFlagNamed(value: string, flag: Flag)
    requires value == "" || value[0] != '-'
    ensures !Names(value, Name(flag))
  {
  }

  lemma AddedIsCalm(lib: Library, p: Parsed, k: nat, flag: Flag)
    requires Lawful(lib) && Valid(p.config) && Unmistaken(p.config, flag) && k < STEPS
    ensures forall item | item in Added(StepOf(lib, p, k).change) :: !Clash(item, flag)
  {
    var ch := StepOf(lib, p, k).change;
    if k < 3 {
      assert IsText(ch.flag) && ch.value == Meant(p.config, ch.flag);
    } else if ch.Setting? && ch.value != "" {
      if k == 7 {
        ModeIsNoFlag(p.config.scheduler);
      }
      NoFlagNamed(ch.value, flag);
    }
  }

  lemma MadeIsCalm(lib: Library, c: Config, p: Parsed, items: seq<Item>, k: nat)
    requires Lawful(lib) && Valid(p.config) && Plain(lib, c, p) && Calm(lib, p, items) && k < STEPS
    ensures Calm(lib, p, MadeItems(items, StepOf(lib, p, k)))
  {
    var step := StepOf(lib, p, k);
    WithoutKeeps(items, step.change.flag);
    forall j: nat, item | j < STEPS && StepOf(lib, p, j).on && item in MadeItems(items, step)
      ensures !Clash(item, StepOf(lib, p, j).change.flag)
    {
      AddedIsCalm(lib, p, k, StepOf(lib, p, j).change.flag);
    }
  }

  lemma CalmMeansNoClash(lib: Library, p: Parsed, items: seq<Item>, k: nat)
    requires Calm(lib, p, items) && k < STEPS
    ensures NoClash(items, StepOf(lib, p, k))
  {
  }

  lemma {:induction false} CalmIsClear(lib: Library, c: Config, p: Parsed, items: seq<Item>, k: nat)
    requires Lawful(lib) && Valid(p.config) && Plain(lib, c, p) && Calm(lib, p, items) && k <= STEPS
    ensures Clear(lib, p, items, k)
    decreases STEPS - k
  {
    if k < STEPS {
      MadeIsCalm(lib, c, p, items, k);
      CalmMeansNoClash(lib, p, items, k);
      CalmIsClear(lib, c, p, MadeItems(items, StepOf(lib, p, k)), k + 1);
    }
  }

  /** Whatever flags are explicit, plain texts make the restart come out as meant. */
  lemma PlainRestartIsUpdate(lib: Library, c: Config, p: Parsed)
    requires Lawful(lib) && Valid(c) && Valid(p.config) && c.home != DRY_RUN && c.session != DRY_RUN
    requires Plain(lib, c, p)
    ensures var r := Parse(lib, EditFrom(lib, p, StartArgs(RUN + Render(ChildItems(lib, c))), 0));
            r.Ok? && r.value.config == Updated(c, p)
  {
    forall j: nat, item | j < STEPS && StepOf(lib, p, j).on && item in ChildItems(lib, c)
      ensures !Clash(item, StepOf(lib, p, j).change.flag)
    {
      UnmistakenIsClear(lib, c, StepOf(lib, p, j).change.flag);
    }
    CalmIsClear(lib, c, p, ChildItems(lib, c), 0);
    RestartIsUpdate(lib, c, p);
  }

  // ---- a later edit can restore what an earlier one spoilt --------------------------------------

  const SPELT := Config("", "", "--repo=x", THIRTY_SECONDS, 1, false, true, "barrier")
  const THREE := Parsed(Config("", "a/b", "s", THIRTY_SECONDS, 1, false, true, "barrier"), {Repo, Session, Issues})

  lemma NumbersStay(lib: Library, c: Config, rest: seq<string>, flag: Flag)
    requires Lawful(lib) && Valid(c) && !flag.Poll? && !flag.Workers?
    ensures Strip(Render(Always(lib, c)) + rest, flag) == Render(Always(lib, c)) + Strip(rest, flag)
  {
    var poll, workers := Always(lib, c)[0], Always(lib, c)[1];
    RenderTwo(poll, workers);
    NoFlagNamed(poll.value, flag);
    NoFlagNamed(workers.value, flag);
    Reassociate(Spell(poll), Spell(workers), rest);
    StripItem(poll, Spell(workers) + rest, flag);
    StripItem(workers, rest, flag);
    Reassociate(Spell(poll), Spell(workers), Strip(rest, flag));
  }

  lemma OneMore(lib: Library, c: Config, rest: seq<string>, ch: Change)
    requires Lawful(lib) && Valid(c) && !ch.flag.Poll? && !ch.flag.Workers? && ch.Toggle? == IsSwitch(ch.flag)
    ensures Edit(Render(Always(lib, c)) + rest, ch)
         == Render(Always(lib, c)) + (Strip(rest, ch.flag) + Render(Added(ch)))
  {
    EditStrips(Render(Always(lib, c)) + rest, ch);
    NumbersStay(lib, c, rest, ch.flag);
    Reassociate(Render(Always(lib, c)), Strip(rest, ch.flag), Render(Added(ch)));
  }

  lemma FirstEdit()
    ensures Strip(["--session", "--repo=x", "--watch-issues"], Repo) == ["--session", "--watch-issues"]
  {
    DashedNames();
    FlagNames(Session, Repo);
    FlagNames(Issues, Repo);
    assert Dashed(Name(Repo)) + "=" == "--repo=" && "--repo=" <= "--repo=x";
    assert ["--session", "--repo=x", "--watch-issues"] == ["--session"] + (["--repo=x"] + (["--watch-issues"] + []));
    StripCons("--session", ["--repo=x"] + (["--watch-issues"] + []), Repo);
    StripCons("--repo=x", ["--watch-issues"] + [], Repo);
    StripCons("--watch-issues", [], Repo);
    assert Strip([], Repo) == [];
  }

  lemma SecondEdit()
    ensures Strip(["--session", "--watch-issues", "--repo", "a/b"], Session) == ["--repo", "a/b"]
  {
    DashedNames();
    FlagNames(Repo, Session);
    NoFlagNamed("a/b", Session);
    var rest := ["--repo"] + (["a/b"] + []);
    assert ["--session", "--watch-issues", "--repo", "a/b"] == ["--session"] + (["--watch-issues"] + rest);
    assert (["--watch-issues"] + rest)[1..] == rest;
    StripCons("--session", ["--watch-issues"] + rest, Session);
    StripCons("--repo", ["a/b"] + [], Session);
    StripCons("a/b", [], Session);
    assert Strip([], Session) == [];
  }

  lemma ThirdEdit()
    ensures Strip(["--repo", "a/b", "--session", "s"], Issues) == ["--repo", "a/b", "--session", "s"]
  {
    var items := [Pair(Repo, "a/b"), Pair(Session, "s")];
    DashedNames();
    RenderTwo(items[0], items[1]);
    assert Render(items) == ["--repo", "a/b", "--session", "s"];
    NoFlagNamed("a/b", Issues);
    NoFlagNamed("s", Issues);
    StripRender(items, Issues);
    assert items[1..] == [items[1]] && [items[1]][1..] == [];
    assert Without(items, Issues) == items;
  }

  function Restored(lib: Library): seq<Item> {
    Always(lib, SPELT) + [Pair(Repo, "a/b")] + [Pair(Session, "s")] + [Switch(Issues)]
  }

  lemma RestoredWords(lib: Library)
    ensures Render(Restored(lib)) == Render(Always(lib, SPELT)) + ["--repo", "a/b", "--session", "s", "--watch-issues"]
  {
    DashedNames();
    var two := Always(lib, SPELT) + [Pair(Repo, "a/b")];
    RenderAppend(two + [Pair(Session, "s")], [Switch(Issues)]);
    RenderAppend(two, [Pair(Session, "s")]);
    RenderAppend(Always(lib, SPELT), [Pair(Repo, "a/b")]);
    RenderOne(Switch(Issues));
    RenderOne(Pair(Session, "s"));
    RenderOne(Pair(Repo, "a/b"));
  }

  lemma SpeltWords(lib: Library)
    ensures Render(ChildItems(lib, SPELT)) == Render(Always(lib, SPELT)) + ["--session", "--repo=x", "--watch-issues"]
  {
    PoolIsPool();
    DashedNames();
    ChildSplits(lib, SPELT);
    var texts := TextItem(Home, "") + FromRepo(SPELT);
    assert texts == [Pair(Session, "--repo=x"), Switch(Issues)];
    RenderTwo(texts[0], texts[1]);
    RenderAppend(Always(lib, SPELT), texts);
  }

  lemma EditsTo(lib: Library, before: seq<string>, kept: seq<string>, ch: Change, after: seq<string>)
    requires Lawful(lib) && !ch.flag.Poll? && !ch.flag.Workers? && ch.Toggle? == IsSwitch(ch.flag)
    requires Strip(before, ch.flag) == kept && kept + Render(Added(ch)) == after
    ensures Edit(Render(Always(lib, SPELT)) + before, ch) == Render(Always(lib, SPELT)) + after
  {
    SpeltIsValid();
    OneMore(lib, SPELT, before, ch);
  }

  lemma SpeltIsValid()
    ensures Valid(SPELT) && Valid(THREE.config)
  {
    PoolIsPool();
    OwnerAndName();
  }

  /** The three edits of the text, one after the other. */
  lemma RestoredText(lib: Library)
    requires Lawful(lib)
    ensures EditFrom(lib, THREE, Render(ChildItems(lib, SPELT)), 0) == Render(Restored(lib))
  {
    ThreeSteps(lib, Render(ChildItems(lib, SPELT)));
    SpeltWords(lib);
    RestoredWords(lib);
    ThreeEdits(lib);
  }

  lemma ThreeEdits(lib: Library)
    requires Lawful(lib)
    ensures var words := Render(Always(lib, SPELT)) + ["--session", "--repo=x", "--watch-issues"];
            Edit(Edit(Edit(words, Setting(Repo, "a/b")), Setting(Session, "s")), Toggle(Issues, true)) ==
            Render(Always(lib, SPELT)) + ["--repo", "a/b", "--session", "s", "--watch-issues"]
  {
    var spelt, spoilt := ["--session", "--repo=x", "--watch-issues"], ["--session", "--watch-issues", "--repo", "a/b"];
    var mended, all := ["--repo", "a/b", "--session", "s"], ["--repo", "a/b", "--session", "s", "--watch-issues"];
    EditWords();
    EditsTo(lib, spelt, ["--session", "--watch-issues"], Setting(Repo, "a/b"), spoilt);
    EditsTo(lib, spoilt, ["--repo", "a/b"], Setting(Session, "s"), mended);
    EditsTo(lib, mended, mended, Toggle(Issues, true), all);
  }

  lemma EditWords()
    ensures Strip(["--session", "--repo=x", "--watch-issues"], Repo) == ["--session", "--watch-issues"]
    ensures Strip(["--session", "--watch-issues", "--repo", "a/b"], Session) == ["--repo", "a/b"]
    ensures Strip(["--repo", "a/b", "--session", "s"], Issues) == ["--repo", "a/b", "--session", "s"]
    ensures Render(Added(Setting(Repo, "a/b"))) == ["--repo", "a/b"]
    ensures Render(Added(Setting(Session, "s"))) == ["--session", "s"]
    ensures Render(Added(Toggle(Issues, true))) == ["--watch-issues"]
  {
    FirstEdit();
    SecondEdit();
    ThirdEdit();
    DashedNames();
    RenderOne(Pair(Repo, "a/b"));
    RenderOne(Pair(Session, "s"));
    RenderOne(Switch(Issues));
  }

  lemma ThreeSteps(lib: Library, args: seq<string>)
    ensures EditFrom(lib, THREE, args, 0)
         == Edit(Edit(Edit(args, Setting(Repo, "a/b")), Setting(Session, "s")), Toggle(Issues, true))
  {
    var one := Edit(args, Setting(Repo, "a/b"));
    var two := Edit(one, Setting(Session, "s"));
    var three := Edit(two, Toggle(Issues, true));
    assert EditFrom(lib, THREE, args, 0) == EditFrom(lib, THREE, args, 1) == EditFrom(lib, THREE, one, 2);
    assert EditFrom(lib, THREE, one, 2) == EditFrom(lib, THREE, two, 3);
    assert EditFrom(lib, THREE, two, 3) == EditFrom(lib, THREE, two, 4) == EditFrom(lib, THREE, two, 5);
    assert EditFrom(lib, THREE, two, 5) == EditFrom(lib, THREE, two, 6) == EditFrom(lib, THREE, three, 7);
    assert EditFrom(lib, THREE, three, 7) == EditFrom(lib, THREE, three, 8);
  }

  lemma RestoredLatest(lib: Library, flag: Flag)
    ensures Latest(Restored(lib), flag) ==
            if flag.Issues? then Some("") else if flag.Session? then Some("s") else if flag.Repo? then Some("a/b")
            else Latest(Always(lib, SPELT), flag)
  {
    var two := Always(lib, SPELT);
    LatestSnoc(two, Pair(Repo, "a/b"), flag);
    LatestSnoc(two + [Pair(Repo, "a/b")], Pair(Session, "s"), flag);
    LatestSnoc(two + [Pair(Repo, "a/b")] + [Pair(Session, "s")], Switch(Issues), flag);
  }

  lemma RestoredIsAsked(lib: Library, flag: Flag)
    ensures Latest(Restored(lib), flag) == Asked(lib, THREE, flag, Printed(lib, SPELT, flag))
  {
    RestoredLatest(lib, flag);
    LatestAlways(lib, SPELT, flag);
    PoolIsPool();
  }

  lemma RestoredPrintable(lib: Library)
    requires Lawful(lib)
    ensures AllPrintable(lib, Restored(lib))
  {
    SpeltIsValid();
    AlwaysPrintable(lib, SPELT);
    var two := Always(lib, SPELT);
    MorePrintable(lib, two, Pair(Repo, "a/b"));
    MorePrintable(lib, two + [Pair(Repo, "a/b")], Pair(Session, "s"));
    MorePrintable(lib, two + [Pair(Repo, "a/b")] + [Pair(Session, "s")], Switch(Issues));
  }

  lemma MorePrintable(lib: Library, items: seq<Item>, item: Item)
    requires AllPrintable(lib, items) && Printable(lib, item)
    ensures AllPrintable(lib, items + [item])
  {
  }

  lemma RestoredReads(lib: Library)
    requires Lawful(lib)
    ensures Reading(lib, Restored(lib)) == Updated(SPELT, THREE)
  {
    forall flag
      ensures Latest(Restored(lib), flag) == Asked(lib, THREE, flag, Printed(lib, SPELT, flag))
    {
      RestoredIsAsked(lib, flag);
    }
    ReadingIsUpdated(lib, SPELT, THREE, Restored(lib));
  }

  /** With several edits the condition is not necessary: here the first edit takes
      the session's value for its flag, and the others remove what is left of it. */
  lemma RestoredIsUpdate(lib: Library)
    requires Lawful(lib)
    ensures var r := Parse(lib, EditFrom(lib, THREE, StartArgs(RUN + Render(ChildItems(lib, SPELT))), 0));
            !Clear(lib, THREE, ChildItems(lib, SPELT), 0) && r.Ok? && r.value.config == Updated(SPELT, THREE)
  {
    SpeltIsValid();
    RecoveredIff(lib, SPELT);
    RestoredText(lib);
    RestoredReads(lib);
    RestoredPrintable(lib);
    UpdatedIsValid(SPELT, THREE);
    ParseReads(lib, Restored(lib));
    NotClear(lib);
  }

  lemma NotClear(lib: Library)
    ensures !Clear(lib, THREE, ChildItems(lib, SPELT), 0)
  {
    var items := ChildItems(lib, SPELT);
    var item := Pair(Session, "--repo=x");
    assert item in items;
    assert Dashed(Name(Repo)) + "=" == "--repo=" && "--repo=" <= "--repo=x";
    assert Clash(item, Repo);
    assert !NoClash(items, StepOf(lib, THREE, 1));
    assert !Clear(lib, THREE, items, 1);
    assert MadeItems(items, StepOf(lib, THREE, 0)) == items;
  }
}
