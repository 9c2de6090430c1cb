/** The steps in which jobs, pool passes and the daemon itself wind down. */
module DispatcherEndings {
  import opened Basics
  import T = InflightTracker
  import B = AdmissionBudget
  import opened Dispatcher
  import opened DispatcherSafety
  import opened DispatcherJobs

  // ---- a barrier job refunds its reservation, then leaves the tracker ----------

  lemma ReleasedGlobal(w: World, s: Sys, id: string)
    requires Global(w, s) && id in s.runners && s.runners[id] == BarrierJob
    ensures Global(w, s.(budget := B.Release(s.budget, id), runners := s.runners[id := BarrierReleased]))
  {
    var s' := s.(budget := B.Release(s.budget, id), runners := s.runners[id := BarrierReleased]);
    B.ReleaseKeepsSound(s.budget, id);
    SameTrackerGlobal(s, s');
    assert s'.runners.Keys == s.runners.Keys;
  }

  lemma SameTrackerGlobal(s: Sys, s': Sys)
    requires s'.tracker.jobs == s.tracker.jobs && s'.peakCap == s.peakCap && s'.peakLimit == s.peakLimit
    requires CheckoutsExclusive(s) && Bounded(s)
    ensures CheckoutsExclusive(s') && Bounded(s')
  {
    forall i, j
      ensures Apart(s', i, j)
    {
      assert Apart(s, i, j);
    }
    forall r
      ensures |InRepo(s', r)| <= PeakLimit(s', r)
    {
      assert |InRepo(s, r)| <= PeakLimit(s, r);
    }
  }

  lemma ReleasedPairs(w: World, s: Sys, id: string)
    requires Paired(w, s) && PassesOk(w, s) && id in s.tracker.jobs
    requires id in s.runners && s.runners[id] == BarrierJob
    ensures Paired(w, s.(budget := B.Release(s.budget, id), runners := s.runners[id := BarrierReleased]))
  {
    RunningIsNotCarried(w, s, id);
    var s' := s.(budget := B.Release(s.budget, id), runners := s.runners[id := BarrierReleased]);
    if s.budget.On? {
      forall x
        ensures x in s'.budget.reservations <==> Owed(w, s', x)
      {
        assert x in s.budget.reservations <==> Owed(w, s, x);
      }
    }
  }

  lemma ReleaseKeeps(w: World, s: Sys, id: string)
    requires WellFormed(w) && Safe(w, s)
    ensures Safe(w, ReleaseJob(s, id))
  {
    if id in s.runners && s.runners[id] == BarrierJob {
      var s' := s.(budget := B.Release(s.budget, id), runners := s.runners[id := BarrierReleased]);
      assert s' == ReleaseJob(s, id);
      ReleasedGlobal(w, s, id);
      SamePasses(w, s, s');
      ReleasedPairs(w, s, id);
    }
  }

  /** A job leaves the tracker and its goroutine is gone. */
  ghost predicate Left(s: Sys, s': Sys, id: string) {
    && s'.tracker == T.End(s.tracker, id) && s'.runners == s.runners - {id}
    && s'.peakCap == s.peakCap && s'.peakLimit == s.peakLimit
    && s'.ticks.Keys == s.ticks.Keys && s'.pools.Keys == s.pools.Keys
  }

  lemma LeftNothingAdded(s: Sys, s': Sys, id: string)
    requires Left(s, s', id)
    ensures forall r :: NothingAdded(s, s', r)
  {
  }

  lemma LeftBounded(s: Sys, s': Sys, id: string)
    requires Left(s, s', id) && Bounded(s) && CheckoutsExclusive(s)
    ensures Bounded(s') && CheckoutsExclusive(s')
  {
    LeftNothingAdded(s, s', id);
    SubsetSize(s'.tracker.jobs.Keys, s.tracker.jobs.Keys);
    forall r
      ensures |InRepo(s', r)| <= PeakLimit(s', r)
    {
      assert |InRepo(s, r)| <= PeakLimit(s, r);
      InRepoShrinks(s, s', r);
    }
    forall i, j
      ensures Apart(s', i, j)
    {
      assert Apart(s, i, j);
    }
  }

  lemma LeftGlobal(w: World, s: Sys, s': Sys, id: string)
    requires WellFormed(w) && Global(w, s) && Left(s, s', id) && id in s.runners
    requires s'.budget == s.budget
    ensures Global(w, s')
  {
    assert T.Accurate(s'.tracker) by {
      assert s.tracker.jobs[id].repo == w.job(id).repo != "";
      T.EndKeepsAccurateIff(s.tracker, id);
    }
    LeftBounded(s, s', id);
    LeftFiled(w, s, s', id);
  }

  lemma LeftFiled(w: World, s: Sys, s': Sys, id: string)
    requires JobsFiled(w, s) && SingleSelector(w, s) && Left(s, s', id)
    ensures JobsFiled(w, s') && SingleSelector(w, s')
  {
  }

  lemma EndedPasses(w: World, s: Sys, s': Sys, id: string)
    requires WellFormed(w) && PassesOk(w, s) && JobsFiled(w, s) && Left(s, s', id)
    requires s'.ticks == s.ticks && s'.pools == s.pools
    ensures PassesOk(w, s')
  {
    LeftNothingAdded(s, s', id);
    forall r | r in s'.ticks
      ensures PassOk(w, s', false, r, s'.ticks[r])
    {
      PassFrame(w, s, s', false, r, s'.ticks[r]);
    }
    forall r | r in s'.pools
      ensures PassOk(w, s', true, r, s'.pools[r])
    {
      PassFrame(w, s, s', true, r, s'.pools[r]);
    }
  }

  lemma EndedPairs(w: World, s: Sys, s': Sys, id: string)
    requires Paired(w, s) && s'.budget == s.budget && s'.runners == s.runners - {id}
    requires s'.ticks == s.ticks && s'.pools == s.pools
    requires id in s.runners && s.runners[id] == BarrierReleased
    ensures Paired(w, s')
  {
    forall x
      ensures Owed(w, s', x) <==> Owed(w, s, x)
    {
    }
  }

  lemma EndKeeps(w: World, s: Sys, id: string)
    requires WellFormed(w) && Safe(w, s)
    ensures Safe(w, EndJob(s, id))
  {
    if id in s.runners && s.runners[id] == BarrierReleased {
      var s' := s.(tracker := T.End(s.tracker, id), runners := s.runners - {id});
      assert s' == EndJob(s, id);
      LeftGlobal(w, s, s', id);
      EndedPasses(w, s, s', id);
      EndedPairs(w, s, s', id);
    }
  }

  // ---- a pool job reports and is reaped -------------------------------------------

  lemma ReportKeeps(w: World, s: Sys, id: string)
    requires WellFormed(w) && Safe(w, s)
    ensures Safe(w, ReportJob(s, id))
  {
    if id in s.runners && s.runners[id] == PoolJob {
      var s' := s.(runners := s.runners[id := PoolReported]);
      assert s' == ReportJob(s, id);
      assert Global(w, s') by {
        assert s'.runners.Keys == s.runners.Keys;
        SameTrackerGlobal(s, s');
      }
      SamePasses(w, s, s');
      assert Paired(w, s') by {
        forall x
          ensures Owed(w, s', x) <==> Owed(w, s, x)
        {
        }
      }
    }
  }

  ghost function Reaped(s: Sys, repo: string, id: string): Sys
    requires repo in s.pools
  {
    Goto(s, true, repo, Reaping(id)).(tracker := T.End(s.tracker, id), runners := s.runners - {id})
  }

  lemma InRepoLoses(s: Sys, s': Sys, repo: string, id: string)
    requires id in s.tracker.jobs && s.tracker.jobs[id].repo == repo
    requires s'.tracker.jobs == s.tracker.jobs - {id}
    ensures |InRepo(s', repo)| == |InRepo(s, repo)| - 1
  {
    T.HoldersRemove(s.tracker.jobs, T.Repo, id);
  }

  lemma ReapedPasses(w: World, s: Sys, repo: string, id: string)
    requires WellFormed(w) && PassesOk(w, s) && JobsFiled(w, s)
    requires repo in s.pools && repo !in s.ticks && s.pools[repo].phase.Resting?
    requires id in s.tracker.jobs && w.job(id).repo == repo
    ensures PassesOk(w, Reaped(s, repo, id))
  {
    var s' := Reaped(s, repo, id);
    assert s'.ticks.Keys == s.ticks.Keys && s'.pools.Keys == s.pools.Keys;
    LeftNothingAdded(s, s', id);
    InRepoLoses(s, s', repo, id);
    assert PassOk(w, s, true, repo, s.pools[repo]);
    assert PassOk(w, s', true, repo, s'.pools[repo]);
    PassesFrame(w, s, s', repo);
  }

  lemma ReapedPairs(w: World, s: Sys, repo: string, id: string)
    requires Paired(w, s) && repo in s.pools && repo !in s.ticks && s.pools[repo].phase.Resting?
    requires id in s.runners && s.runners[id] == PoolReported && w.job(id).repo == repo
    ensures Paired(w, Reaped(s, repo, id))
  {
    var s' := Reaped(s, repo, id);
    forall x
      ensures Owed(w, s', x) <==> Owed(w, s, x)
    {
      OwedAfter(w, s, s', true, repo, x);
      OwedAfter(w, s, s, true, repo, x);
    }
  }

  lemma ReapedKeeps(w: World, s: Sys, repo: string, id: string)
    requires WellFormed(w) && Safe(w, s)
    requires repo in s.pools && s.pools[repo].phase.Resting?
    requires id in s.runners && s.runners[id] == PoolReported && w.job(id).repo == repo
    ensures Safe(w, Reaped(s, repo, id))
  {
    ReapedLeft(s, repo, id);
    assert Global(w, Reaped(s, repo, id)) by {
      LeftGlobal(w, s, Reaped(s, repo, id), id);
    }
    assert PassesOk(w, Reaped(s, repo, id)) by {
      ReapedPasses(w, s, repo, id);
    }
    assert Paired(w, Reaped(s, repo, id)) by {
      ReapedPairs(w, s, repo, id);
    }
  }

  lemma ReapedLeft(s: Sys, repo: string, id: string)
    requires repo in s.pools
    ensures Left(s, Reaped(s, repo, id), id) && Reaped(s, repo, id).budget == s.budget
  {
    var s' := Reaped(s, repo, id);
    assert s'.ticks.Keys == s.ticks.Keys && s'.pools.Keys == s.pools.Keys;
  }

  lemma ReapOutcome(w: World, s: Sys, repo: string, id: string)
    ensures ReapJob(w, s, repo, id) ==
            if && repo in s.pools && s.pools[repo].phase.Resting?
               && id in s.runners && s.runners[id] == PoolReported && w.job(id).repo == repo
            then Reaped(s, repo, id) else s
  {
  }

  lemma ReapKeeps(w: World, s: Sys, repo: string, id: string)
    requires WellFormed(w) && Safe(w, s)
    ensures Safe(w, ReapJob(w, s, repo, id))
  {
    ReapOutcome(w, s, repo, id);
    if && repo in s.pools && s.pools[repo].phase.Resting?
       && id in s.runners && s.runners[id] == PoolReported && w.job(id).repo == repo
    {
      ReapedKeeps(w, s, repo, id);
    }
  }

  ghost function Settled(s: Sys, repo: string, id: string): Sys
    requires repo in s.pools
  {
    var pass := s.pools[repo];
    SetPass(s, true, repo, pass.(running := pass.running - 1, phase := Resting)).(budget := B.Release(s.budget, id))
  }

  lemma SettledGlobal(w: World, s: Sys, repo: string, id: string)
    requires Global(w, s) && repo in s.pools
    ensures Global(w, Settled(s, repo, id))
    ensures forall r :: NothingAdded(s, Settled(s, repo, id), r)
  {
    var s' := Settled(s, repo, id);
    B.ReleaseKeepsSound(s.budget, id);
    assert s'.ticks.Keys == s.ticks.Keys && s'.pools.Keys == s.pools.Keys;
    GlobalFrame(w, s, s');
  }

  lemma SettledPairs(w: World, s: Sys, repo: string, id: string)
    requires Paired(w, s) && repo in s.pools && repo !in s.ticks && s.pools[repo].phase == Reaping(id)
    requires w.job(id).repo == repo && id !in s.runners
    ensures Paired(w, Settled(s, repo, id))
  {
    var s' := Settled(s, repo, id);
    if s.budget.On? {
      forall x
        ensures x in s'.budget.reservations <==> Owed(w, s', x)
      {
        OwedAfter(w, s, s', true, repo, x);
        OwedAfter(w, s, s, true, repo, x);
      }
    }
  }

  lemma SettledPasses(w: World, s: Sys, repo: string, id: string)
    requires WellFormed(w) && PassesOk(w, s) && FiledJobs(w, s)
    requires repo in s.pools && repo !in s.ticks && s.pools[repo].phase == Reaping(id)
    requires forall r :: NothingAdded(s, Settled(s, repo, id), r)
    ensures PassesOk(w, Settled(s, repo, id))
  {
    var s' := Settled(s, repo, id);
    assert PassOk(w, s, true, repo, s.pools[repo]);
    assert PassOk(w, s', true, repo, s'.pools[repo]) by {
      assert InRepo(s', repo) == InRepo(s, repo);
    }
    PassesFrame(w, s, s', repo);
  }

  lemma SettleKeeps(w: World, s: Sys, repo: string)
    requires WellFormed(w) && Safe(w, s)
    ensures Safe(w, ReleaseReaped(s, repo))
  {
    if repo in s.pools && s.pools[repo].phase.Reaping? {
      var id := s.pools[repo].phase.id;
      assert Settled(s, repo, id) == ReleaseReaped(s, repo);
      CarriedIsNotRunning(w, s, true, repo, id);
      SettledGlobal(w, s, repo, id);
      SettledPasses(w, s, repo, id);
      SettledPairs(w, s, repo, id);
    }
  }

  // ---- a pool pass exits, the daemon drains ------------------------------------------

  ghost function Exited(s: Sys, repo: string): Sys {
    s.(tracker := T.EndPool(s.tracker, repo), pools := s.pools - {repo})
  }

  lemma ExitedGlobal(w: World, s: Sys, repo: string)
    requires Global(w, s) && repo in s.pools && InRepo(s, repo) == {}
    ensures Global(w, Exited(s, repo))
  {
    var s' := Exited(s, repo);
    T.PoolKeepsAccurate(s.tracker, repo);
    SameTrackerGlobal(s, s');
    forall id | id in s.runners
      ensures w.job(id).repo != repo
    {
      assert id in s.tracker.jobs;
      assert id !in InRepo(s, repo);
    }
  }

  lemma ExitedPasses(w: World, s: Sys, repo: string)
    requires WellFormed(w) && PassesOk(w, s) && FiledJobs(w, s) && repo !in s.ticks
    ensures PassesOk(w, Exited(s, repo))
  {
    PassesFrame(w, s, Exited(s, repo), repo);
  }

  lemma ExitedKeeps(w: World, s: Sys, repo: string)
    requires WellFormed(w) && Safe(w, s)
    requires repo in s.pools && s.pools[repo].phase.Resting? && s.pools[repo].running == 0
    ensures Safe(w, Exited(s, repo))
  {
    assert PassOk(w, s, true, repo, s.pools[repo]);
    ExitedGlobal(w, s, repo);
    ExitedPasses(w, s, repo);
    ExitedPairs(w, s, repo);
  }

  lemma ExitedPairs(w: World, s: Sys, repo: string)
    requires Paired(w, s) && repo in s.pools && s.pools[repo].phase.Resting?
    ensures Paired(w, Exited(s, repo))
  {
    forall x
      ensures Owed(w, Exited(s, repo), x) <==> Owed(w, s, x)
    {
    }
  }

  lemma ExitOutcome(s: Sys, repo: string)
    ensures ExitPool(s, repo) ==
            if repo in s.pools && s.pools[repo].phase.Resting? && s.pools[repo].running == 0 then Exited(s, repo) else s
  {
  }

  lemma ExitKeeps(w: World, s: Sys, repo: string)
    requires WellFormed(w) && Safe(w, s)
    ensures Safe(w, ExitPool(s, repo))
  {
    ExitOutcome(s, repo);
    if repo in s.pools && s.pools[repo].phase.Resting? && s.pools[repo].running == 0 {
      ExitedKeeps(w, s, repo);
    }
  }

  lemma DrainPasses(w: World, s: Sys, s': Sys)
    requires WellFormed(w) && FiledJobs(w, s) && PassesOk(w, s)
    requires s' == s.(tracker := s.tracker.(draining := true))
    ensures PassesOk(w, s')
  {
    assert forall r :: NothingAdded(s, s', r);
    forall r | r in s'.ticks
      ensures PassOk(w, s', false, r, s'.ticks[r])
    {
      PassFrame(w, s, s', false, r, s'.ticks[r]);
    }
    forall r | r in s'.pools
      ensures PassOk(w, s', true, r, s'.pools[r])
    {
      PassFrame(w, s, s', true, r, s'.pools[r]);
    }
  }

  lemma DrainKeeps(w: World, s: Sys)
    requires WellFormed(w) && Safe(w, s)
    ensures Safe(w, s.(tracker := s.tracker.(draining := true)))
  {
    var s' := s.(tracker := s.tracker.(draining := true));
    assert Global(w, s') by {
      SameTrackerGlobal(s, s');
    }
    DrainPasses(w, s, s');
    assert Paired(w, s');
  }
}
