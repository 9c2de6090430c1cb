/** The life of one job: what is recorded when it starts, that its end undoes all of
    it, and that its keys stay its own in every run. */
module DispatchLives {
  import opened Basics
  import T = InflightTracker
  import B = AdmissionBudget
  import S = JobSelector
  import opened Dispatcher
  import opened DispatcherSafety
  import opened DispatcherTheorem
  import opened DispatchTick

  // ---- starting ---------------------------------------------------------------------------

  /** The job is nowhere yet, and both the budget and the tracker take it. */
  ghost predicate Welcome(w: World, s: Sys, pass: Pass, id: string) {
    && T.Accurate(s.tracker) && id !in s.runners && id !in B.Reserved(s.budget)
    && B.Reserve(s.budget, id, w.estimate(id)).1 && T.Admits(s.tracker, pass.hostCap, id)
  }

  /** What starting a job under a key comes to. */
  ghost predicate Begun(w: World, s: Sys, s': Sys, pool: bool, repo: string, job: S.Job, key: string,
                        phase: Phase)
    requires At(s, pool, repo)
  {
    var pass := Passes(s, pool)[repo];
    && s'.tracker == T.Register(s.tracker, job.id, T.Dispatch(repo, key, job.runtimeKey))
    && s'.budget == B.Reserve(s.budget, job.id, w.estimate(job.id)).0
    && s'.runners == s.runners[job.id := if pool then PoolJob else BarrierJob]
    && At(s', pool, repo) && Passes(s', pool)[repo] == pass.(running := pass.running + 1, phase := phase)
    && Passes(s', !pool) == Passes(s, !pool) && Passes(s', pool).Keys == Passes(s, pool).Keys
  }

  lemma BeginIs(w: World, s: Sys, pool: bool, repo: string, job: S.Job, key: string, rest: seq<S.Job>,
                spare: seq<S.Job>)
    requires At(s, pool, repo) && PhaseOf(s, pool, repo) == Holding(job, key, rest, spare)
    requires T.Admits(s.tracker, Passes(s, pool)[repo].hostCap, job.id)
    ensures var pass := Passes(s, pool)[repo];
            Step(w, s, Begin(pool, repo)) ==
            SetPass(s, pool, repo, pass.(running := pass.running + 1, phase := Dispatching(rest, spare))).(
              tracker := T.Register(s.tracker, job.id, T.Dispatch(repo, key, job.runtimeKey)),
              runners := s.runners[job.id := if pool then PoolJob else BarrierJob])
  {
  }

  lemma HeldBegins(w: World, s: Sys, held: Sys, pool: bool, repo: string, job: S.Job, key: string,
                   rest: seq<S.Job>, spare: seq<S.Job>)
    requires At(s, pool, repo) && T.Admits(s.tracker, Passes(s, pool)[repo].hostCap, job.id)
    requires held == Goto(s, pool, repo, Holding(job, key, rest, spare)).(
                       budget := B.Reserve(s.budget, job.id, w.estimate(job.id)).0)
    ensures Begun(w, s, Step(w, held, Begin(pool, repo)), pool, repo, job, key, Dispatching(rest, spare))
  {
    BeginIs(w, held, pool, repo, job, key, rest, spare);
  }

  lemma HeadIsHeld(w: World, s: Sys, pool: bool, repo: string, job: S.Job, rest: seq<S.Job>, spare: seq<S.Job>)
    requires At(s, pool, repo) && PhaseOf(s, pool, repo) == Dispatching([job] + rest, spare)
    requires Welcome(w, s, Passes(s, pool)[repo], job.id)
    ensures Step(w, s, Reserve(pool, repo)) == Goto(s, pool, repo, Holding(job, job.checkoutKey, rest, spare)).(
                                                 budget := B.Reserve(s.budget, job.id, w.estimate(job.id)).0)
  {
    assert ([job] + rest)[1..] == rest && ([job] + rest)[0] == job;
  }

  /** The first job of a queue starts under its own checkout key. */
  lemma HeadStarts(w: World, s: Sys, pool: bool, repo: string, job: S.Job, rest: seq<S.Job>, spare: seq<S.Job>)
    requires At(s, pool, repo) && PhaseOf(s, pool, repo) == Dispatching([job] + rest, spare)
    requires Welcome(w, s, Passes(s, pool)[repo], job.id)
    ensures Begun(w, s, Run(w, s, [Reserve(pool, repo), Begin(pool, repo)]), pool, repo, job, job.checkoutKey,
                  Dispatching(rest, spare))
  {
    HeadIsHeld(w, s, pool, repo, job, rest, spare);
    HeldBegins(w, s, Step(w, s, Reserve(pool, repo)), pool, repo, job, job.checkoutKey, rest, spare);
    RunThree(w, s, Reserve(pool, repo), Begin(pool, repo), Drain);
  }

  lemma SpareIsHeld(w: World, s: Sys, repo: string, job: S.Job, spare: seq<S.Job>)
    requires repo in s.pools && s.pools[repo].phase == Dispatching([], [job] + spare)
    requires s.pools[repo].running < s.pools[repo].limit && Welcome(w, s, s.pools[repo], job.id)
    ensures Step(w, s, Isolate(repo, true)) == Goto(s, true, repo, Holding(job, w.isolated(job.id), [], spare)).(
                                                 budget := B.Reserve(s.budget, job.id, w.estimate(job.id)).0)
  {
    assert ([job] + spare)[1..] == spare && ([job] + spare)[0] == job;
  }

  /** While the pass has a free slot, its first spare job starts under the key of the
      worktree made for it. */
  lemma SpareStarts(w: World, s: Sys, repo: string, job: S.Job, spare: seq<S.Job>)
    requires repo in s.pools && s.pools[repo].phase == Dispatching([], [job] + spare)
    requires s.pools[repo].running < s.pools[repo].limit && Welcome(w, s, s.pools[repo], job.id)
    ensures Begun(w, s, Run(w, s, [Isolate(repo, true), Begin(true, repo)]), true, repo, job, w.isolated(job.id),
                  Dispatching([], spare))
  {
    SpareIsHeld(w, s, repo, job, spare);
    HeldBegins(w, s, Step(w, s, Isolate(repo, true)), true, repo, job, w.isolated(job.id), [], spare);
    RunThree(w, s, Isolate(repo, true), Begin(true, repo), Drain);
  }

  lemma SpareIsRefused(w: World, s: Sys, repo: string, job: S.Job, spare: seq<S.Job>)
    requires repo in s.pools && s.pools[repo].phase == Dispatching([], [job] + spare)
    requires s.pools[repo].running < s.pools[repo].limit && B.Reserve(s.budget, job.id, w.estimate(job.id)).1
    ensures Step(w, s, Isolate(repo, false)) == Goto(s, true, repo, Refused(job, [], spare)).(
                                                  budget := B.Reserve(s.budget, job.id, w.estimate(job.id)).0)
  {
    assert ([job] + spare)[1..] == spare && ([job] + spare)[0] == job;
  }

  lemma RefusedIsUndone(w: World, s: Sys, repo: string, job: S.Job, spare: seq<S.Job>, before: B.State, after: B.State)
    requires repo in s.pools && s.budget == before && B.Release(after, job.id) == before
    ensures Step(w, Goto(s, true, repo, Refused(job, [], spare)).(budget := after), Undo(true, repo))
         == Goto(s, true, repo, Dispatching([], spare))
  {
    var pools := s.pools[repo := s.pools[repo].(phase := Refused(job, [], spare))];
    assert pools[repo := pools[repo].(phase := Dispatching([], spare))]
        == s.pools[repo := s.pools[repo].(phase := Dispatching([], spare))];
  }

  /** A spare job that cannot be placed gives its reservation back. */
  lemma UnplacedLeavesNoTrace(w: World, s: Sys, repo: string, job: S.Job, spare: seq<S.Job>)
    requires repo in s.pools && s.pools[repo].phase == Dispatching([], [job] + spare)
    requires s.pools[repo].running < s.pools[repo].limit && Welcome(w, s, s.pools[repo], job.id)
    ensures Run(w, s, [Isolate(repo, false), Undo(true, repo)]) == Goto(s, true, repo, Dispatching([], spare))
  {
    B.ReleaseUndoesReserveIff(s.budget, job.id, w.estimate(job.id));
    SpareIsRefused(w, s, repo, job, spare);
    RefusedIsUndone(w, s, repo, job, spare, s.budget, B.Reserve(s.budget, job.id, w.estimate(job.id)).0);
    RunThree(w, s, Isolate(repo, false), Undo(true, repo), Drain);
  }

  // ---- ending ----------------------------------------------------------------------------------

  /** Ending the job and releasing it give back what was there before it started. */
  ghost predicate Undoable(w: World, s: Sys, id: string, d: T.Dispatch) {
    && T.End(T.Register(s.tracker, id, d), id) == s.tracker
    && B.Release(B.Reserve(s.budget, id, w.estimate(id)).0, id) == s.budget
    && id !in s.runners
  }

  lemma WelcomeIsUndoable(w: World, s: Sys, pass: Pass, id: string, d: T.Dispatch)
    requires Welcome(w, s, pass, id) && d.repo != ""
    ensures Undoable(w, s, id, d)
  {
    B.ReleaseUndoesReserveIff(s.budget, id, w.estimate(id));
    T.EndUndoesRegister(s.tracker, id, d);
  }

  lemma RunnersRestored(runners: map<string, Runner>, id: string, a: Runner, b: Runner)
    requires id !in runners
    ensures runners[id := a][id := b] - {id} == runners
  {
  }

  lemma ReleasedEnds(w: World, s: Sys, id: string, tracker: T.State, budget: B.State, runners: map<string, Runner>)
    requires T.End(s.tracker, id) == tracker && B.Release(s.budget, id) == budget
    requires id !in runners && s.runners == runners[id := BarrierJob]
    ensures Run(w, s, [JobRelease(id), JobEnd(id)]) == s.(tracker := tracker, budget := budget, runners := runners)
  {
    RunnersRestored(runners, id, BarrierJob, BarrierReleased);
    RunThree(w, s, JobRelease(id), JobEnd(id), Drain);
    var released := runners[id := BarrierJob][id := BarrierReleased];
    assert Step(w, s, JobRelease(id)) == s.(budget := budget, runners := released);
  }

  /** A job started by a tick releases its reservation and leaves the tracker: nothing
      of it is left. */
  lemma BarrierJobGoes(w: World, s: Sys, s': Sys, repo: string, job: S.Job, key: string, phase: Phase)
    requires At(s, false, repo) && repo != "" && Welcome(w, s, s.ticks[repo], job.id)
    requires Begun(w, s, s', false, repo, job, key, phase)
    ensures Run(w, s', [JobRelease(job.id), JobEnd(job.id)])
         == s'.(tracker := s.tracker, budget := s.budget, runners := s.runners)
  {
    WelcomeIsUndoable(w, s, s.ticks[repo], job.id, T.Dispatch(repo, key, job.runtimeKey));
    ReleasedEnds(w, s', job.id, s.tracker, s.budget, s.runners);
  }

  lemma ReportIs(w: World, s: Sys, id: string, runners: map<string, Runner>)
    requires s.runners == runners[id := PoolJob]
    ensures Step(w, s, JobReport(id)) == s.(runners := runners[id := PoolJob][id := PoolReported])
  {
  }

  lemma ReapIs(w: World, s: Sys, repo: string, id: string, tracker: T.State, runners: map<string, Runner>)
    requires id !in runners && s.runners == runners[id := PoolJob][id := PoolReported]
    requires repo in s.pools && s.pools[repo].phase.Resting? && w.job(id).repo == repo
    requires T.End(s.tracker, id) == tracker
    ensures Step(w, s, Reap(repo, id)) == Goto(s, true, repo, Reaping(id)).(tracker := tracker, runners := runners)
  {
    RunnersRestored(runners, id, PoolJob, PoolReported);
  }

  lemma SettleIs(w: World, s: Sys, repo: string, id: string, budget: B.State)
    requires repo in s.pools && s.pools[repo].phase.Resting? && B.Release(s.budget, id) == budget
    ensures Step(w, Goto(s, true, repo, Reaping(id)), ReapRelease(repo))
         == s.(budget := budget, pools := s.pools[repo := s.pools[repo].(running := s.pools[repo].running - 1)])
  {
    var pools := s.pools[repo := s.pools[repo].(phase := Reaping(id))];
    var settled := s.pools[repo].(running := s.pools[repo].running - 1);
    assert pools[repo].(running := pools[repo].running - 1, phase := Resting) == settled;
    assert pools[repo := settled] == s.pools[repo := settled];
  }

  lemma ReportedEnds(w: World, s: Sys, repo: string, id: string, tracker: T.State, budget: B.State,
                     runners: map<string, Runner>)
    requires T.End(s.tracker, id) == tracker && B.Release(s.budget, id) == budget
    requires id !in runners && s.runners == runners[id := PoolJob]
    requires repo in s.pools && s.pools[repo].phase.Resting? && w.job(id).repo == repo
    ensures Run(w, s, [JobReport(id), Reap(repo, id), ReapRelease(repo)])
         == s.(tracker := tracker, budget := budget, runners := runners,
               pools := s.pools[repo := s.pools[repo].(running := s.pools[repo].running - 1)])
  {
    var reported := s.(runners := runners[id := PoolJob][id := PoolReported]);
    ReportIs(w, s, id, runners);
    ReapIs(w, reported, repo, id, tracker, runners);
    SettleIs(w, s.(tracker := tracker, runners := runners), repo, id, budget);
    RunThree(w, s, JobReport(id), Reap(repo, id), ReapRelease(repo));
  }

  lemma RoundFinishes(w: World, s: Sys, repo: string)
    requires repo in s.pools && s.pools[repo].phase == Dispatching([], [])
    ensures Step(w, s, Finish(true, repo)) == Goto(s, true, repo, Resting)
  {
  }

  /** The last job of a pool pass's round reports, is reaped and settled: nothing of it
      is left, and the pass rests with as many running jobs as before. */
  lemma PoolJobGoes(w: World, s: Sys, s': Sys, repo: string, job: S.Job, key: string)
    requires repo in s.pools && repo != "" && Welcome(w, s, s.pools[repo], job.id) && w.job(job.id).repo == repo
    requires Begun(w, s, s', true, repo, job, key, Dispatching([], []))
    ensures var r := Run(w, s', [Finish(true, repo)] + [JobReport(job.id), Reap(repo, job.id), ReapRelease(repo)]);
            && r.tracker == s.tracker && r.budget == s.budget && r.runners == s.runners && r.ticks == s.ticks
            && repo in r.pools && r.pools[repo] == s.pools[repo].(phase := Resting)
  {
    WelcomeIsUndoable(w, s, s.pools[repo], job.id, T.Dispatch(repo, key, job.runtimeKey));
    RoundFinishes(w, s', repo);
    RunOne(w, s', Finish(true, repo));
    ReportedEnds(w, Goto(s', true, repo, Resting), repo, job.id, s.tracker, s.budget, s.runners);
    RunAppend(w, s', [Finish(true, repo)], [JobReport(job.id), Reap(repo, job.id), ReapRelease(repo)]);
  }

  // ---- the runtime keys of whole runs --------------------------------------------------------

  /** Every job in flight is recorded with its own runtime key. */
  ghost predicate RuntimesFiled(w: World, s: Sys) {
    forall id | id in s.tracker.jobs :: s.tracker.jobs[id].runtimeKey == w.job(id).runtimeKey
  }

  ghost predicate NothingNew(s: Sys, s': Sys) {
    forall id | id in s'.tracker.jobs :: id in s.tracker.jobs && s'.tracker.jobs[id] == s.tracker.jobs[id]
  }

  lemma TickAddsNothing(w: World, s: Sys, e: Event)
    requires IsTickEvent(e)
    ensures NothingNew(s, Step(w, s, e))
  {
  }

  lemma PoolAddsNothing(w: World, s: Sys, e: Event)
    requires IsPoolEvent(e)
    ensures NothingNew(s, Step(w, s, e))
  {
    PoolStepIs(w, s, e);
  }

  lemma DispatchAddsNothing(w: World, s: Sys, e: Event)
    requires IsDispatchEvent(e) && !e.Begin?
    ensures NothingNew(s, Step(w, s, e))
  {
    DispatchStepIs(w, s, e);
  }

  lemma JobAddsNothing(w: World, s: Sys, e: Event)
    requires IsJobEvent(e)
    ensures NothingNew(s, Step(w, s, e))
  {
    JobStepIs(w, s, e);
  }

  lemma HeldIsTheJob(w: World, s: Sys, pool: bool, repo: string)
    requires PassesOk(w, s) && At(s, pool, repo) && PhaseOf(s, pool, repo).Holding?
    ensures var job := PhaseOf(s, pool, repo).job; job == w.job(job.id)
  {
    var pass := Passes(s, pool)[repo];
    var p := pass.phase;
    assert PhaseOk(w, s, repo, pass.limit, p);
    assert ([p.job] + p.queue + p.spare)[0] == p.job;
  }

  lemma BeginFilesRuntimes(w: World, s: Sys, pool: bool, repo: string)
    requires PassesOk(w, s) && RuntimesFiled(w, s)
    ensures RuntimesFiled(w, BeginHeld(s, pool, repo))
  {
    if At(s, pool, repo) && PhaseOf(s, pool, repo).Holding? {
      HeldIsTheJob(w, s, pool, repo);
    }
  }

  lemma StepFilesRuntimes(w: World, s: Sys, e: Event)
    requires WellFormed(w) && Safe(w, s) && RuntimesFiled(w, s)
    ensures RuntimesFiled(w, Step(w, s, e))
  {
    if IsTickEvent(e) {
      TickAddsNothing(w, s, e);
    } else if IsPoolEvent(e) {
      PoolAddsNothing(w, s, e);
    } else if IsJobEvent(e) {
      JobAddsNothing(w, s, e);
    } else if !e.Begin? {
      DispatchAddsNothing(w, s, e);
    } else {
      DispatchStepIs(w, s, e);
      BeginFilesRuntimes(w, s, e.pool, e.repo);
    }
  }

  lemma {:induction false} RunFilesRuntimes(w: World, s: Sys, events: seq<Event>)
    requires WellFormed(w) && Safe(w, s) && RuntimesFiled(w, s)
    ensures RuntimesFiled(w, Run(w, s, events))
    decreases |events|
  {
    if events != [] {
      StepKeeps(w, s, events[0]);
      StepFilesRuntimes(w, s, events[0]);
      RunFilesRuntimes(w, Step(w, s, events[0]), events[1..]);
    }
  }

  lemma RuntimesAreTaken(w: World, t: T.State)
    requires T.Counts(t.runtimes, t.jobs, T.Runtime, false)
    requires forall id | id in t.jobs :: t.jobs[id].runtimeKey == w.job(id).runtimeKey
    ensures forall key :: key in t.runtimes <==> key != "" && exists id :: id in t.jobs && w.job(id).runtimeKey == key
  {
    forall key
      ensures key in t.runtimes <==> key != "" && exists id :: id in t.jobs && w.job(id).runtimeKey == key
    {
      var h := T.Holders(t.jobs, T.Runtime, key);
      if key in t.runtimes {
        var id :| id in h;
      } else if id :| id in t.jobs && w.job(id).runtimeKey == key {
        assert id in h;
      }
    }
  }

  lemma ReachableFilesRuntimes(w: World, maxSessions: int, maxMemoryGB: real, events: seq<Event>)
    requires WellFormed(w)
    ensures RuntimesFiled(w, Run(w, Initial(B.New(maxSessions, maxMemoryGB)), events))
  {
    var initial := Initial(B.New(maxSessions, maxMemoryGB));
    EveryRunIsSafe(w, maxSessions, maxMemoryGB, []);
    assert Run(w, initial, []) == initial;
    RunFilesRuntimes(w, initial, events);
  }

  /** In every reachable state the runtime keys that the selection sees as taken are
      those of the jobs in flight. */
  lemma RuntimesStayTheirOwn(w: World, maxSessions: int, maxMemoryGB: real, events: seq<Event>)
    requires WellFormed(w)
    ensures var t := Run(w, Initial(B.New(maxSessions, maxMemoryGB)), events).tracker;
            && (forall id | id in t.jobs :: t.jobs[id].runtimeKey == w.job(id).runtimeKey)
            && (forall key :: key in t.runtimes
                              <==> key != "" && exists id :: id in t.jobs && w.job(id).runtimeKey == key)
  {
    ReachableFilesRuntimes(w, maxSessions, maxMemoryGB, events);
    CountersAreExact(w, maxSessions, maxMemoryGB, events);
    RuntimesAreTaken(w, Run(w, Initial(B.New(maxSessions, maxMemoryGB)), events).tracker);
  }
}
