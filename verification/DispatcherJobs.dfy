/** The steps in which a job is charged, registered, finished or refunded. */
module DispatcherJobs {
  import T = InflightTracker
  import B = AdmissionBudget
  import S = JobSelector
  import opened Dispatcher
  import opened DispatcherSafety

  // ---- what a pass carries is its own -----------------------------------------

  /** Nothing in flight is carried by a pass. */
  lemma CarriedIsNotRunning(w: World, s: Sys, pool: bool, repo: string, id: string)
    requires PassesOk(w, s) && At(s, pool, repo) && Carries(PhaseOf(s, pool, repo), id)
    ensures id !in s.tracker.jobs && w.job(id).repo == repo
  {
    var pass := Passes(s, pool)[repo];
    assert PassOk(w, s, pool, repo, pass);
    match pass.phase {
      case Holding(job, _, queue, spare) =>
        assert ([job] + queue + spare)[0] == job;
      case Refused(job, queue, spare) =>
        assert ([job] + queue + spare)[0] == job;
      case Reaping(_) =>
    }
  }

  lemma RunningIsNotCarried(w: World, s: Sys, id: string)
    requires PassesOk(w, s) && id in s.tracker.jobs
    ensures !PassCarries(s.ticks, w.job(id).repo, id) && !PassCarries(s.pools, w.job(id).repo, id)
  {
    var r := w.job(id).repo;
    if PassCarries(s.ticks, r, id) {
      CarriedIsNotRunning(w, s, false, r, id);
    }
    if PassCarries(s.pools, r, id) {
      CarriedIsNotRunning(w, s, true, r, id);
    }
  }

  /** What is owed after one pass and perhaps one runner moved on. */
  lemma OwedAfter(w: World, s: Sys, s': Sys, pool: bool, repo: string, id: string)
    requires At(s', pool, repo) && !At(s', !pool, repo)
    requires forall r | r != repo && r in s'.ticks :: r in s.ticks && s'.ticks[r] == s.ticks[r]
    requires forall r | r != repo && r in s'.pools :: r in s.pools && s'.pools[r] == s.pools[r]
    requires s'.ticks.Keys == s.ticks.Keys && s'.pools.Keys == s.pools.Keys
    ensures Owed(w, s', id) <==>
            || (id in s'.runners && s'.runners[id] != BarrierReleased)
            || (if w.job(id).repo == repo then Carries(PhaseOf(s', pool, repo), id)
                else PassCarries(s.ticks, w.job(id).repo, id) || PassCarries(s.pools, w.job(id).repo, id))
  {
  }

  // ---- reserving ----------------------------------------------------------------

  /** A pass charges a job of its own that held nothing and now carries it. */
  lemma ChargedPairs(w: World, s: Sys, pool: bool, repo: string, phase: Phase, id: string, est: B.Reservation)
    requires Paired(w, s) && At(s, pool, repo) && !At(s, !pool, repo) && PhaseOf(s, pool, repo).Dispatching?
    requires w.job(id).repo == repo && id !in s.runners
    requires forall x :: Carries(phase, x) <==> x == id
    requires B.Reserve(s.budget, id, est).1
    ensures Paired(w, Goto(s, pool, repo, phase).(budget := B.Reserve(s.budget, id, est).0))
  {
    var s' := Goto(s, pool, repo, phase).(budget := B.Reserve(s.budget, id, est).0);
    if s.budget.On? {
      OwedAfter(w, s, s, pool, repo, id);
      assert id !in s.budget.reservations;
      forall x
        ensures x in s'.budget.reservations <==> Owed(w, s', x)
      {
        OwedAfter(w, s, s', pool, repo, x);
        OwedAfter(w, s, s, pool, repo, x);
      }
    }
  }

  lemma ChargedGlobal(w: World, s: Sys, pool: bool, repo: string, phase: Phase, budget: B.State)
    requires Global(w, s) && At(s, pool, repo) && B.Sound(budget)
    ensures Global(w, Goto(s, pool, repo, phase).(budget := budget))
  {
    var s' := Goto(s, pool, repo, phase).(budget := budget);
    assert s'.ticks.Keys == s.ticks.Keys && s'.pools.Keys == s.pools.Keys;
    GlobalFrame(w, s, s');
  }

  lemma ChargedPasses(w: World, s: Sys, pool: bool, repo: string, phase: Phase, budget: B.State)
    requires WellFormed(w) && FiledJobs(w, s) && PassesOk(w, s)
    requires At(s, pool, repo) && !At(s, !pool, repo)
    requires !phase.Reaping? && !PhaseOf(s, pool, repo).Reaping?
    requires PhaseOk(w, s, repo, Passes(s, pool)[repo].limit, phase)
    ensures PassesOk(w, Goto(s, pool, repo, phase).(budget := budget))
  {
    GotoPasses(w, s, pool, repo, phase);
    SamePasses(w, Goto(s, pool, repo, phase), Goto(s, pool, repo, phase).(budget := budget));
  }

  lemma ChargedKeeps(w: World, s: Sys, pool: bool, repo: string, phase: Phase, id: string)
    requires WellFormed(w) && Safe(w, s) && At(s, pool, repo) && PhaseOf(s, pool, repo).Dispatching?
    requires w.job(id).repo == repo && id !in s.tracker.jobs
    requires forall x :: Carries(phase, x) <==> x == id
    requires !phase.Reaping? && PhaseOk(w, s, repo, Passes(s, pool)[repo].limit, phase)
    requires B.Reserve(s.budget, id, w.estimate(id)).1
    ensures Safe(w, Goto(s, pool, repo, phase).(budget := B.Reserve(s.budget, id, w.estimate(id)).0))
  {
    var budget := B.Reserve(s.budget, id, w.estimate(id)).0;
    B.ReserveKeepsSound(s.budget, id, w.estimate(id));
    ChargedGlobal(w, s, pool, repo, phase, budget);
    ChargedPasses(w, s, pool, repo, phase, budget);
    ChargedPairs(w, s, pool, repo, phase, id, w.estimate(id));
  }

  lemma SamePasses(w: World, s: Sys, s': Sys)
    requires PassesOk(w, s)
    requires s'.tracker == s.tracker && s'.ticks == s.ticks && s'.pools == s.pools
    requires s'.peakCap == s.peakCap && s'.peakLimit == s.peakLimit
    ensures PassesOk(w, s')
  {
    forall r | r in s'.ticks
      ensures PassOk(w, s', false, r, s'.ticks[r])
    {
      assert PassOk(w, s, false, r, s.ticks[r]);
    }
    forall r | r in s'.pools
      ensures PassOk(w, s', true, r, s'.pools[r])
    {
      assert PassOk(w, s, true, r, s.pools[r]);
    }
  }

  /** The head of a dispatching queue, held: what is left can still be started. */
  lemma HeldOk(w: World, s: Sys, repo: string, limit: int, queue: seq<S.Job>, spare: seq<S.Job>)
    requires queue != [] && PhaseOk(w, s, repo, limit, Dispatching(queue, spare))
    ensures PhaseOk(w, s, repo, limit, Holding(queue[0], queue[0].checkoutKey, queue[1..], spare))
    ensures PhaseOk(w, s, repo, limit, Dispatching(queue[1..], spare))
    ensures queue[0] == w.job(queue[0].id) && queue[0].repo == repo && queue[0].id !in s.tracker.jobs
  {
    var all := queue + spare;
    assert [queue[0]] + queue[1..] + spare == all;
    assert all[0] == queue[0];
    assert forall k | 0 <= k < |queue| - 1 :: queue[1..][k] == queue[k + 1];
    assert [queue[0]] + (queue[1..] + spare) == all;
    ProperParts(w, repo, [queue[0]], queue[1..] + spare);
    assert forall k | 0 <= k < |queue[1..] + spare| :: (queue[1..] + spare)[k] == all[k + 1];
  }

  lemma ReserveOutcome(w: World, s: Sys, pool: bool, repo: string)
    requires At(s, pool, repo) && PhaseOf(s, pool, repo).Dispatching? && PhaseOf(s, pool, repo).queue != []
    ensures var p := PhaseOf(s, pool, repo);
            var (budget, ok) := B.Reserve(s.budget, p.queue[0].id, w.estimate(p.queue[0].id));
            && (ok ==> ReserveNext(w, s, pool, repo) ==
                       Goto(s, pool, repo, Holding(p.queue[0], p.queue[0].checkoutKey, p.queue[1..], p.spare)).(
                         budget := budget))
            && (!ok ==> ReserveNext(w, s, pool, repo) == Goto(s, pool, repo, Dispatching(p.queue[1..], p.spare)))
  {
  }

  lemma ReserveKeeps(w: World, s: Sys, pool: bool, repo: string)
    requires WellFormed(w) && Safe(w, s)
    ensures Safe(w, ReserveNext(w, s, pool, repo))
  {
    if At(s, pool, repo) && PhaseOf(s, pool, repo).Dispatching? && PhaseOf(s, pool, repo).queue != [] {
      var pass := Passes(s, pool)[repo];
      var p := pass.phase;
      var job := p.queue[0];
      assert PassOk(w, s, pool, repo, pass);
      HeldOk(w, s, repo, pass.limit, p.queue, p.spare);
      ReserveOutcome(w, s, pool, repo);
      if B.Reserve(s.budget, job.id, w.estimate(job.id)).1 {
        ChargedKeeps(w, s, pool, repo, Holding(job, job.checkoutKey, p.queue[1..], p.spare), job.id);
      } else {
        GotoKeeps(w, s, pool, repo, Dispatching(p.queue[1..], p.spare));
      }
    }
  }

  // ---- refunding what was refused -------------------------------------------------

  lemma RefundedPairs(w: World, s: Sys, pool: bool, repo: string, rest: Phase, id: string)
    requires Paired(w, s) && At(s, pool, repo) && !At(s, !pool, repo)
    requires w.job(id).repo == repo && id !in s.runners
    requires forall x :: Carries(PhaseOf(s, pool, repo), x) <==> x == id
    requires forall x :: !Carries(rest, x)
    ensures Paired(w, Goto(s, pool, repo, rest).(budget := B.Release(s.budget, id)))
  {
    var s' := Goto(s, pool, repo, rest).(budget := B.Release(s.budget, id));
    if s.budget.On? {
      forall x
        ensures x in s'.budget.reservations <==> Owed(w, s', x)
      {
        OwedAfter(w, s, s', pool, repo, x);
        OwedAfter(w, s, s, pool, repo, x);
      }
    }
  }

  lemma WithoutFirst(w: World, s: Sys, repo: string, job: S.Job, rest: seq<S.Job>)
    requires Proper(w, repo, [job] + rest) && NotRunning(s, [job] + rest)
    ensures Proper(w, repo, rest) && NotRunning(s, rest)
  {
    ProperParts(w, repo, [job], rest);
    assert forall k | 0 <= k < |rest| :: rest[k] == ([job] + rest)[k + 1];
  }

  lemma RefusedRest(w: World, s: Sys, repo: string, limit: int, job: S.Job, queue: seq<S.Job>, spare: seq<S.Job>)
    requires PhaseOk(w, s, repo, limit, Refused(job, queue, spare))
    ensures PhaseOk(w, s, repo, limit, Dispatching(queue, spare))
  {
    assert [job] + queue + spare == [job] + (queue + spare);
    WithoutFirst(w, s, repo, job, queue + spare);
  }

  lemma RefundedKeeps(w: World, s: Sys, pool: bool, repo: string, rest: Phase, id: string)
    requires WellFormed(w) && Safe(w, s) && At(s, pool, repo)
    requires forall x :: Carries(PhaseOf(s, pool, repo), x) <==> x == id
    requires forall x :: !Carries(rest, x)
    requires !rest.Reaping? && !PhaseOf(s, pool, repo).Reaping?
    requires PhaseOk(w, s, repo, Passes(s, pool)[repo].limit, rest)
    ensures Safe(w, Goto(s, pool, repo, rest).(budget := B.Release(s.budget, id)))
  {
    var budget := B.Release(s.budget, id);
    var s' := Goto(s, pool, repo, rest).(budget := budget);
    assert Global(w, s') by {
      B.ReleaseKeepsSound(s.budget, id);
      ChargedGlobal(w, s, pool, repo, rest, budget);
    }
    assert PassesOk(w, s') by {
      ChargedPasses(w, s, pool, repo, rest, budget);
    }
    assert Paired(w, s') by {
      CarriedIsNotRunning(w, s, pool, repo, id);
      RefundedPairs(w, s, pool, repo, rest, id);
    }
  }

  lemma UndoOutcome(s: Sys, pool: bool, repo: string)
    requires At(s, pool, repo) && PhaseOf(s, pool, repo).Refused?
    ensures var p := PhaseOf(s, pool, repo);
            UndoRefused(s, pool, repo) ==
            Goto(s, pool, repo, Dispatching(p.queue, p.spare)).(budget := B.Release(s.budget, p.job.id))
  {
  }

  lemma PassIsOk(w: World, s: Sys, pool: bool, repo: string)
    requires PassesOk(w, s) && At(s, pool, repo)
    ensures var pass := Passes(s, pool)[repo];
            PassOk(w, s, pool, repo, pass) && PhaseOk(w, s, repo, pass.limit, pass.phase)
  {
  }

  lemma UndoKeeps(w: World, s: Sys, pool: bool, repo: string)
    requires WellFormed(w) && Safe(w, s)
    ensures Safe(w, UndoRefused(s, pool, repo))
  {
    if At(s, pool, repo) && PhaseOf(s, pool, repo).Refused? {
      var pass := Passes(s, pool)[repo];
      var p := pass.phase;
      PassIsOk(w, s, pool, repo);
      RefusedRest(w, s, repo, pass.limit, p.job, p.queue, p.spare);
      UndoOutcome(s, pool, repo);
      RefundedKeeps(w, s, pool, repo, Dispatching(p.queue, p.spare), p.job.id);
    }
  }

  // ---- isolating a spare job --------------------------------------------------------

  lemma SpareHeldOk(w: World, s: Sys, repo: string, limit: int, spare: seq<S.Job>, key: string)
    requires spare != [] && PhaseOk(w, s, repo, limit, Dispatching([], spare))
    requires key == w.isolated(spare[0].id) && KeyFree(s, repo, key)
    requires |InRepo(s, repo)| < limit
    ensures PhaseOk(w, s, repo, limit, Holding(spare[0], key, [], spare[1..]))
  {
    assert [spare[0]] + [] + spare[1..] == spare == [] + spare;
  }

  lemma SpareRefusedOk(w: World, s: Sys, repo: string, limit: int, spare: seq<S.Job>)
    requires spare != [] && PhaseOk(w, s, repo, limit, Dispatching([], spare))
    ensures PhaseOk(w, s, repo, limit, Refused(spare[0], [], spare[1..]))
    ensures PhaseOk(w, s, repo, limit, Dispatching([], spare[1..]))
    ensures spare[0] == w.job(spare[0].id) && spare[0].repo == repo && spare[0].id !in s.tracker.jobs
  {
    assert [spare[0]] + [] + spare[1..] == spare == [] + spare;
    RefusedRest(w, s, repo, limit, spare[0], [], spare[1..]);
  }

  /** A job's isolation worktree is nobody else's checkout. */
  lemma IsolationKeyIsFree(w: World, s: Sys, repo: string, id: string)
    requires WellFormed(w) && JobsFiled(w, s) && id !in s.tracker.jobs
    ensures KeyFree(s, repo, w.isolated(id))
  {
    forall other | other in s.tracker.jobs
      ensures s.tracker.jobs[other].checkoutKey != w.isolated(id)
    {
      assert KeysKeptApart(w, id, other);
    }
  }

  lemma IsolateOutcome(w: World, s: Sys, repo: string, placed: bool)
    requires AtSpare(s, repo) && s.pools[repo].running < s.pools[repo].limit
    ensures var p := s.pools[repo].phase;
            var job := p.spare[0];
            var (budget, ok) := B.Reserve(s.budget, job.id, w.estimate(job.id));
            IsolateSpare(w, s, repo, placed) ==
            if !ok then Goto(s, true, repo, Dispatching([], p.spare[1..]))
            else if placed then
              Goto(s, true, repo, Holding(job, w.isolated(job.id), [], p.spare[1..])).(budget := budget)
            else Goto(s, true, repo, Refused(job, [], p.spare[1..])).(budget := budget)
  {
  }

  lemma IsolateKeeps(w: World, s: Sys, repo: string, placed: bool)
    requires WellFormed(w) && Safe(w, s)
    ensures Safe(w, IsolateSpare(w, s, repo, placed))
  {
    if AtSpare(s, repo) && s.pools[repo].running < s.pools[repo].limit {
      var pass := s.pools[repo];
      var spare := pass.phase.spare;
      var job := spare[0];
      assert PassOk(w, s, true, repo, pass);
      SpareRefusedOk(w, s, repo, pass.limit, spare);
      IsolateOutcome(w, s, repo, placed);
      if !B.Reserve(s.budget, job.id, w.estimate(job.id)).1 {
        GotoKeeps(w, s, true, repo, Dispatching([], spare[1..]));
      } else if placed {
        IsolationKeyIsFree(w, s, repo, job.id);
        SpareHeldOk(w, s, repo, pass.limit, spare, w.isolated(job.id));
        ChargedKeeps(w, s, true, repo, Holding(job, w.isolated(job.id), [], spare[1..]), job.id);
      } else {
        ChargedKeeps(w, s, true, repo, Refused(job, [], spare[1..]), job.id);
      }
    }
  }

  // ---- registering -------------------------------------------------------------------

  /** The state after a held job was let in. */
  ghost function Admitted(s: Sys, pool: bool, repo: string): Sys
    requires At(s, pool, repo) && PhaseOf(s, pool, repo).Holding?
  {
    var pass := Passes(s, pool)[repo];
    var p := pass.phase;
    SetPass(s, pool, repo, pass.(running := pass.running + 1, phase := Dispatching(p.queue, p.spare))).(
      tracker := T.Register(s.tracker, p.job.id, T.Dispatch(repo, p.key, p.job.runtimeKey)),
      runners := s.runners[p.job.id := if pool then PoolJob else BarrierJob])
  }

  lemma InRepoGrows(s: Sys, s': Sys, repo: string, id: string, d: T.Dispatch)
    requires id !in s.tracker.jobs && s'.tracker.jobs == s.tracker.jobs[id := d] && d.repo == repo
    ensures |InRepo(s', repo)| == |InRepo(s, repo)| + 1
  {
    T.HoldersAdd(s.tracker.jobs, T.Repo, id, d, repo);
  }

  lemma InOtherRepos(s: Sys, s': Sys, repo: string, id: string, d: T.Dispatch, r: string)
    requires id !in s.tracker.jobs && s'.tracker.jobs == s.tracker.jobs[id := d] && d.repo == repo
    requires r != repo
    ensures |InRepo(s', r)| == |InRepo(s, r)|
  {
    T.HoldersAdd(s.tracker.jobs, T.Repo, id, d, r);
  }

  lemma AdmittedApart(w: World, s: Sys, s': Sys, repo: string, job: S.Job, key: string)
    requires WellFormed(w) && JobsFiled(w, s) && CheckoutsExclusive(s)
    requires job == w.job(job.id) && job.repo == repo && job.id !in s.tracker.jobs
    requires KeyFree(s, repo, key) && (key == job.checkoutKey || key == w.isolated(job.id))
    requires s'.tracker.jobs == s.tracker.jobs[job.id := T.Dispatch(repo, key, job.runtimeKey)]
    ensures CheckoutsExclusive(s')
  {
    forall i | i in s.tracker.jobs
      ensures s.tracker.jobs[i].checkoutKey != key
    {
      if s.tracker.jobs[i].repo != repo {
        assert KeysKeptApart(w, i, job.id) && KeysKeptApart(w, job.id, i);
      }
    }
    forall i, j
      ensures Apart(s', i, j)
    {
      assert Apart(s, i, j);
    }
  }

  lemma AdmittedBounded(w: World, s: Sys, s': Sys, pool: bool, repo: string, pass: Pass, id: string, d: T.Dispatch)
    requires T.Accurate(s.tracker) && Bounded(s) && PassOk(w, s, pool, repo, pass)
    requires T.Admits(s.tracker, pass.hostCap, id) && d.repo == repo && |InRepo(s, repo)| < pass.limit
    requires s'.tracker == T.Register(s.tracker, id, d)
    requires s'.peakCap == s.peakCap && s'.peakLimit == s.peakLimit
    ensures Bounded(s')
  {
    T.AdmissionRespectsCap(s.tracker, pass.hostCap, id, d);
    InRepoGrows(s, s', repo, id, d);
    forall r
      ensures |InRepo(s', r)| <= PeakLimit(s', r)
    {
      assert |InRepo(s, r)| <= PeakLimit(s, r);
      if r != repo {
        InOtherRepos(s, s', repo, id, d, r);
      }
    }
  }

  lemma AdmittedGlobal(w: World, s: Sys, pool: bool, repo: string)
    requires WellFormed(w) && Global(w, s) && PassesOk(w, s)
    requires At(s, pool, repo) && PhaseOf(s, pool, repo).Holding?
    requires T.Admits(s.tracker, Passes(s, pool)[repo].hostCap, PhaseOf(s, pool, repo).job.id)
    ensures Global(w, Admitted(s, pool, repo))
  {
    var s' := Admitted(s, pool, repo);
    var pass := Passes(s, pool)[repo];
    var p := pass.phase;
    var d := T.Dispatch(repo, p.key, p.job.runtimeKey);
    PassIsOk(w, s, pool, repo);
    HeldJob(w, repo, p.job, p.queue, p.spare);
    assert T.Accurate(s'.tracker) by {
      T.RegisterKeepsAccurate(s.tracker, p.job.id, d);
    }
    assert CheckoutsExclusive(s') by {
      AdmittedApart(w, s, s', repo, p.job, p.key);
    }
    assert Bounded(s') by {
      AdmittedBounded(w, s, s', pool, repo, pass, p.job.id, d);
    }
    assert SingleSelector(w, s') by {
      AdmittedSelector(w, s, pool, repo);
    }
    assert JobsFiled(w, s') by {
      AdmittedFiled(w, s, s', p.job.id, d, if pool then PoolJob else BarrierJob);
    }
  }

  lemma AdmittedFiled(w: World, s: Sys, s': Sys, id: string, d: T.Dispatch, runner: Runner)
    requires JobsFiled(w, s)
    requires s'.tracker.jobs == s.tracker.jobs[id := d] && s'.runners == s.runners[id := runner]
    requires d.repo == w.job(id).repo && d.checkoutKey in {w.job(id).checkoutKey, w.isolated(id)}
    ensures JobsFiled(w, s')
  {
  }

  lemma AdmittedSelector(w: World, s: Sys, pool: bool, repo: string)
    requires SingleSelector(w, s) && At(s, pool, repo) && PhaseOf(s, pool, repo).Holding?
    requires w.job(PhaseOf(s, pool, repo).job.id).repo == repo
    ensures SingleSelector(w, Admitted(s, pool, repo))
  {
    var s' := Admitted(s, pool, repo);
    assert s'.ticks.Keys == s.ticks.Keys && s'.pools.Keys == s.pools.Keys;
  }

  lemma HeldJob(w: World, repo: string, job: S.Job, queue: seq<S.Job>, spare: seq<S.Job>)
    requires Proper(w, repo, [job] + queue + spare)
    ensures job == w.job(job.id) && job.repo == repo
    ensures Proper(w, repo, queue + spare)
    ensures forall k | 0 <= k < |queue + spare| :: (queue + spare)[k].id != job.id
  {
    var all := [job] + (queue + spare);
    assert all == [job] + queue + spare;
    ProperParts(w, repo, [job], queue + spare);
    assert all[0] == job;
    forall k | 0 <= k < |queue + spare|
      ensures (queue + spare)[k].id != job.id
    {
      assert all[k + 1] == (queue + spare)[k];
    }
  }

  lemma AdmittedPhase(w: World, s: Sys, s': Sys, repo: string, limit: int,
                      job: S.Job, key: string, queue: seq<S.Job>, spare: seq<S.Job>)
    requires PhaseOk(w, s, repo, limit, Holding(job, key, queue, spare))
    requires s'.tracker.jobs == s.tracker.jobs[job.id := T.Dispatch(repo, key, job.runtimeKey)]
    ensures PhaseOk(w, s', repo, limit, Dispatching(queue, spare))
  {
    HeldJob(w, repo, job, queue, spare);
    var all := [job] + queue + spare;
    assert all[0] == job;
    InRepoGrows(s, s', repo, job.id, T.Dispatch(repo, key, job.runtimeKey));
    forall k | 0 <= k < |queue + spare|
      ensures (queue + spare)[k].id !in s'.tracker.jobs
    {
      assert all[k + 1] == (queue + spare)[k];
    }
  }

  /** Registration touches no other repository. */
  lemma AdmittedFrame(s: Sys, pool: bool, repo: string)
    requires At(s, pool, repo) && !At(s, !pool, repo) && PhaseOf(s, pool, repo).Holding?
    requires PhaseOf(s, pool, repo).job.id !in s.tracker.jobs
    ensures var s' := Admitted(s, pool, repo);
            && (forall r | r != repo && r in s'.ticks :: r in s.ticks && s'.ticks[r] == s.ticks[r])
            && (forall r | r != repo && r in s'.pools :: r in s.pools && s'.pools[r] == s.pools[r])
            && (forall r | r != repo :: NothingAdded(s, s', r))
            && !At(s', !pool, repo)
  {
  }

  lemma AdmittedPass(w: World, s: Sys, pool: bool, repo: string)
    requires At(s, pool, repo) && PhaseOf(s, pool, repo).Holding?
    requires PassOk(w, s, pool, repo, Passes(s, pool)[repo])
    ensures PassOk(w, Admitted(s, pool, repo), pool, repo, Passes(Admitted(s, pool, repo), pool)[repo])
    ensures w.job(PhaseOf(s, pool, repo).job.id).repo == repo
  {
    var s' := Admitted(s, pool, repo);
    var pass := Passes(s, pool)[repo];
    var p := pass.phase;
    HeldJob(w, repo, p.job, p.queue, p.spare);
    assert ([p.job] + p.queue + p.spare)[0] == p.job;
    AdmittedPhase(w, s, s', repo, pass.limit, p.job, p.key, p.queue, p.spare);
    InRepoGrows(s, s', repo, p.job.id, T.Dispatch(repo, p.key, p.job.runtimeKey));
  }

  lemma AdmittedStaysFiled(w: World, s: Sys, pool: bool, repo: string)
    requires FiledJobs(w, s) && At(s, pool, repo) && PhaseOf(s, pool, repo).Holding?
    requires w.job(PhaseOf(s, pool, repo).job.id).repo == repo
    ensures FiledJobs(w, Admitted(s, pool, repo))
  {
  }

  lemma AdmittedPasses(w: World, s: Sys, pool: bool, repo: string)
    requires WellFormed(w) && FiledJobs(w, s) && PassesOk(w, s)
    requires At(s, pool, repo) && !At(s, !pool, repo) && PhaseOf(s, pool, repo).Holding?
    requires PhaseOf(s, pool, repo).job.id !in s.tracker.jobs
    ensures PassesOk(w, Admitted(s, pool, repo))
  {
    assert PassOk(w, s, pool, repo, Passes(s, pool)[repo]);
    AdmittedPass(w, s, pool, repo);
    AdmittedFrame(s, pool, repo);
    AdmittedStaysFiled(w, s, pool, repo);
    PassesFrame(w, s, Admitted(s, pool, repo), repo);
  }

  lemma AdmittedPairs(w: World, s: Sys, pool: bool, repo: string)
    requires Paired(w, s) && At(s, pool, repo) && !At(s, !pool, repo) && PhaseOf(s, pool, repo).Holding?
    requires w.job(PhaseOf(s, pool, repo).job.id).repo == repo
    ensures Paired(w, Admitted(s, pool, repo))
  {
    var s' := Admitted(s, pool, repo);
    forall x
      ensures Owed(w, s', x) <==> Owed(w, s, x)
    {
      OwedAfter(w, s, s', pool, repo, x);
      OwedAfter(w, s, s, pool, repo, x);
    }
  }

  lemma AdmittedKeeps(w: World, s: Sys, pool: bool, repo: string)
    requires WellFormed(w) && Safe(w, s)
    requires At(s, pool, repo) && PhaseOf(s, pool, repo).Holding?
    requires T.Admits(s.tracker, Passes(s, pool)[repo].hostCap, PhaseOf(s, pool, repo).job.id)
    ensures Safe(w, Admitted(s, pool, repo))
  {
    CarriedIsNotRunning(w, s, pool, repo, PhaseOf(s, pool, repo).job.id);
    AdmittedGlobal(w, s, pool, repo);
    AdmittedPasses(w, s, pool, repo);
    AdmittedPairs(w, s, pool, repo);
  }

  lemma RefusedOk(w: World, s: Sys, repo: string, limit: int, job: S.Job, key: string, queue: seq<S.Job>,
                  spare: seq<S.Job>)
    requires PhaseOk(w, s, repo, limit, Holding(job, key, queue, spare))
    ensures PhaseOk(w, s, repo, limit, Refused(job, queue, spare))
  {
  }

  lemma BeginOutcome(s: Sys, pool: bool, repo: string)
    requires At(s, pool, repo) && PhaseOf(s, pool, repo).Holding?
    ensures var pass := Passes(s, pool)[repo];
            BeginHeld(s, pool, repo) ==
            if T.Admits(s.tracker, pass.hostCap, pass.phase.job.id) then Admitted(s, pool, repo)
            else Goto(s, pool, repo, Refused(pass.phase.job, pass.phase.queue, pass.phase.spare))
  {
  }

  lemma BeginKeeps(w: World, s: Sys, pool: bool, repo: string)
    requires WellFormed(w) && Safe(w, s)
    ensures Safe(w, BeginHeld(s, pool, repo))
  {
    if At(s, pool, repo) && PhaseOf(s, pool, repo).Holding? {
      var pass := Passes(s, pool)[repo];
      var p := pass.phase;
      BeginOutcome(s, pool, repo);
      if T.Admits(s.tracker, pass.hostCap, p.job.id) {
        AdmittedKeeps(w, s, pool, repo);
      } else {
        PassIsOk(w, s, pool, repo);
        RefusedOk(w, s, repo, pass.limit, p.job, p.key, p.queue, p.spare);
        GotoKeeps(w, s, pool, repo, Refused(p.job, p.queue, p.spare));
      }
    }
  }
}
