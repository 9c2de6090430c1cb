/** The steps in which a pass opens, gathers what it may start, or closes. */
module DispatcherPasses {
  import opened Basics
  import T = InflightTracker
  import B = AdmissionBudget
  import S = JobSelector
  import opened Dispatcher
  import opened DispatcherSafety

  // ---- a pass is opened --------------------------------------------------------

  lemma PeaksGrow(s: Sys, repo: string, limit: int, hostCap: int)
    ensures var s' := Peaks(s, repo, limit, hostCap);
            && s.peakCap <= s'.peakCap && hostCap <= s'.peakCap && limit <= PeakLimit(s', repo)
            && forall r :: PeakLimit(s, r) <= PeakLimit(s', r)
  {
  }

  lemma InRepoBounded(s: Sys, s': Sys)
    requires s'.tracker.jobs == s.tracker.jobs && Bounded(s)
    requires s.peakCap <= s'.peakCap && forall r :: PeakLimit(s, r) <= PeakLimit(s', r)
    ensures Bounded(s')
  {
    forall r
      ensures |InRepo(s', r)| <= PeakLimit(s', r)
    {
      assert |InRepo(s, r)| <= PeakLimit(s, r);
    }
  }

  lemma SameJobsApart(s: Sys, s': Sys)
    requires s'.tracker.jobs == s.tracker.jobs && CheckoutsExclusive(s)
    ensures CheckoutsExclusive(s')
  {
    forall i, j
      ensures Apart(s', i, j)
    {
      assert Apart(s, i, j);
    }
  }

  /** What opening a pass leaves alone. */
  ghost predicate Opened(s: Sys, s': Sys, repo: string) {
    && s'.tracker.jobs == s.tracker.jobs && s'.runners == s.runners && s'.budget == s.budget
    && s.peakCap <= s'.peakCap && (forall r :: PeakLimit(s, r) <= PeakLimit(s', r))
    && (forall r | r != repo && r in s'.ticks :: r in s.ticks && s'.ticks[r] == s.ticks[r])
    && (forall r | r != repo && r in s'.pools :: r in s.pools && s'.pools[r] == s.pools[r])
  }

  lemma BarrierOpens(s: Sys, repo: string, limit: int, globalLimit: int)
    requires limit > 0 && repo !in s.ticks && repo !in s.tracker.poolRuns
    ensures var s' := StartBarrier(s, repo, limit, globalLimit);
            && Opened(s, s', repo)
            && s'.tracker == s.tracker && s'.pools == s.pools && s'.ticks.Keys == s.ticks.Keys + {repo}
            && s'.ticks[repo] == Pass(limit, Max(globalLimit, limit), 0, Listing)
            && limit <= PeakLimit(s', repo) && Max(globalLimit, limit) <= s'.peakCap
            && forall r, id :: PassCarries(s'.ticks, r, id) <==> PassCarries(s.ticks, r, id)
  {
    PeaksGrow(s, repo, limit, Max(globalLimit, limit));
  }

  lemma PoolOpens(s: Sys, repo: string, limit: int, globalLimit: int)
    requires limit > 0 && repo !in s.ticks && repo !in s.pools && T.AdmitsPool(s.tracker, repo)
    ensures var s' := StartPool(s, repo, limit, globalLimit);
            && Opened(s, s', repo)
            && s'.tracker == T.RegisterPool(s.tracker, repo)
            && s'.ticks == s.ticks && s'.pools.Keys == s.pools.Keys + {repo}
            && s'.pools[repo] == Pass(limit, Max(globalLimit, limit), 0, Resting)
            && limit <= PeakLimit(s', repo) && Max(globalLimit, limit) <= s'.peakCap
            && forall r, id :: PassCarries(s'.pools, r, id) <==> PassCarries(s.pools, r, id)
  {
    PeaksGrow(s, repo, limit, Max(globalLimit, limit));
  }

  lemma OpenedPaired(w: World, s: Sys, s': Sys, repo: string)
    requires Paired(w, s) && Opened(s, s', repo)
    requires forall r, id :: PassCarries(s'.ticks, r, id) <==> PassCarries(s.ticks, r, id)
    requires forall r, id :: PassCarries(s'.pools, r, id) <==> PassCarries(s.pools, r, id)
    ensures Paired(w, s')
  {
    forall id
      ensures Owed(w, s', id) <==> Owed(w, s, id)
    {
    }
    PairedFrame(w, s, s');
  }

  lemma BarrierOpenedPasses(w: World, s: Sys, s': Sys, repo: string)
    requires WellFormed(w) && PassesOk(w, s) && FiledJobs(w, s) && Opened(s, s', repo)
    requires repo !in s.pools && s'.pools == s.pools && repo in s'.ticks && s'.ticks[repo].phase.Listing?
    requires 0 < s'.ticks[repo].limit <= PeakLimit(s', repo) && 0 < s'.ticks[repo].hostCap <= s'.peakCap
    ensures PassesOk(w, s')
  {
    PassesFrame(w, s, s', repo);
  }

  lemma PoolOpenedPasses(w: World, s: Sys, s': Sys, repo: string)
    requires WellFormed(w) && PassesOk(w, s) && FiledJobs(w, s) && Opened(s, s', repo)
    requires repo !in s.ticks && s'.ticks == s.ticks && repo in s'.pools
    requires s'.pools[repo].phase.Resting? && s'.pools[repo].running == 0
    requires 0 < s'.pools[repo].limit <= PeakLimit(s', repo) && 0 < s'.pools[repo].hostCap <= s'.peakCap
    requires forall id | id in s.tracker.jobs :: s.tracker.jobs[id].repo != repo
    ensures PassesOk(w, s')
  {
    assert InRepo(s', repo) == {};
    PassesFrame(w, s, s', repo);
  }

  lemma StartBarrierKeeps(w: World, s: Sys, repo: string, limit: int, globalLimit: int)
    requires WellFormed(w) && Safe(w, s)
    ensures Safe(w, StartBarrier(s, repo, limit, globalLimit))
  {
    if limit > 0 && repo !in s.ticks && repo !in s.tracker.poolRuns {
      var s' := StartBarrier(s, repo, limit, globalLimit);
      BarrierOpens(s, repo, limit, globalLimit);
      BarrierOpenedGlobal(w, s, s', repo);
      BarrierOpenedPasses(w, s, s', repo);
      OpenedPaired(w, s, s', repo);
    }
  }

  lemma BarrierOpenedGlobal(w: World, s: Sys, s': Sys, repo: string)
    requires Global(w, s) && Opened(s, s', repo)
    requires repo !in s.tracker.poolRuns && s'.tracker == s.tracker
    requires s'.pools == s.pools && s'.ticks.Keys == s.ticks.Keys + {repo}
    ensures Global(w, s')
  {
    InRepoBounded(s, s');
    SameJobsApart(s, s');
  }

  lemma StartPoolKeeps(w: World, s: Sys, repo: string, limit: int, globalLimit: int)
    requires WellFormed(w) && Safe(w, s)
    ensures Safe(w, StartPool(s, repo, limit, globalLimit))
  {
    if limit > 0 && repo !in s.ticks && T.AdmitsPool(s.tracker, repo) {
      var s' := StartPool(s, repo, limit, globalLimit);
      PoolOpens(s, repo, limit, globalLimit);
      T.PoolStartsIdle(s.tracker, repo);
      PoolOpenedGlobal(w, s, s', repo);
      PoolOpenedPasses(w, s, s', repo);
      OpenedPaired(w, s, s', repo);
    }
  }

  lemma PoolOpenedGlobal(w: World, s: Sys, s': Sys, repo: string)
    requires Global(w, s) && Opened(s, s', repo)
    requires repo !in s.tracker.poolRuns && repo !in s.ticks
    requires s'.tracker == T.RegisterPool(s.tracker, repo)
    requires s'.ticks == s.ticks && s'.pools.Keys == s.pools.Keys + {repo}
    requires forall id | id in s.tracker.jobs :: s.tracker.jobs[id].repo != repo
    ensures Global(w, s')
  {
    T.PoolKeepsAccurate(s.tracker, repo);
    InRepoBounded(s, s');
    SameJobsApart(s, s');
    forall id | id in s.runners
      ensures w.job(id).repo != repo
    {
      assert id in s.tracker.jobs;
    }
  }

  // ---- a pass gathers what it may start ----------------------------------------

  lemma CountIsInRepo(s: Sys, repo: string)
    requires T.Accurate(s.tracker)
    ensures T.Count(s.tracker.perRepo, repo) == |InRepo(s, repo)|
  {
  }

  lemma GiveUpKeeps(w: World, s: Sys, repo: string)
    requires WellFormed(w) && Safe(w, s)
    ensures Safe(w, GiveUp(s, repo))
  {
    if repo in s.ticks && s.ticks[repo].phase.Listing? {
      LeaveKeeps(w, s, repo);
    }
  }

  lemma ListKeeps(w: World, s: Sys, repo: string, ids: seq<string>)
    requires WellFormed(w) && Safe(w, s)
    ensures Safe(w, ListPending(w, s, repo, ids))
  {
    if repo in s.ticks && s.ticks[repo].phase.Listing? && ValidQueue(w, repo, ids) {
      NamedJobsAreProper(w, repo, ids);
      assert [] + JobsNamed(w, ids) == JobsNamed(w, ids);
      GotoKeeps(w, s, false, repo, Filtering(JobsNamed(w, ids), []));
    }
  }

  lemma FilteredOk(w: World, s: Sys, repo: string, todo: seq<S.Job>, kept: seq<S.Job>)
    requires todo != [] && Proper(w, repo, kept + todo) && NotRunning(s, kept)
    ensures var kept' := if todo[0].id in s.tracker.jobs then kept else kept + [todo[0]];
            Proper(w, repo, kept' + todo[1..]) && NotRunning(s, kept')
  {
    var all := kept + todo;
    if todo[0].id in s.tracker.jobs {
      var rest := kept + todo[1..];
      assert forall k | 0 <= k < |rest| :: rest[k] == all[if k < |kept| then k else k + 1];
    } else {
      assert kept + [todo[0]] + todo[1..] == all;
    }
  }

  lemma FilterKeeps(w: World, s: Sys, repo: string)
    requires WellFormed(w) && Safe(w, s)
    ensures Safe(w, FilterOne(s, repo))
  {
    if repo in s.ticks && s.ticks[repo].phase.Filtering? && s.ticks[repo].phase.todo != [] {
      var p := s.ticks[repo].phase;
      assert PassOk(w, s, false, repo, s.ticks[repo]);
      FilteredOk(w, s, repo, p.todo, p.kept);
      var kept' := if p.todo[0].id in s.tracker.jobs then p.kept else p.kept + [p.todo[0]];
      GotoKeeps(w, s, false, repo, Filtering(p.todo[1..], kept'));
    }
  }

  lemma CountedOk(w: World, s: Sys, repo: string, limit: int, kept: seq<S.Job>, slots: int)
    requires T.Accurate(s.tracker) && PhaseOk(w, s, repo, limit, Filtering([], kept))
    requires slots <= limit - T.Count(s.tracker.perRepo, repo)
    ensures PhaseOk(w, s, repo, limit, Counted(kept, slots))
  {
    CountIsInRepo(s, repo);
    assert kept + [] == kept;
  }

  lemma CountOutcome(s: Sys, repo: string, hostSlots: int, slots: int)
    requires repo in s.ticks && s.ticks[repo].phase.Filtering? && s.ticks[repo].phase.todo == []
    requires var free := s.ticks[repo].limit - T.Count(s.tracker.perRepo, repo);
             slots == if hostSlots < free then hostSlots else free
    ensures CountSlots(s, repo, hostSlots) ==
            if slots <= 0 || s.ticks[repo].phase.kept == [] then LeaveTick(s, repo)
            else Goto(s, false, repo, Counted(s.ticks[repo].phase.kept, slots))
  {
  }

  lemma CountGoesOn(w: World, s: Sys, repo: string, slots: int)
    requires WellFormed(w) && Safe(w, s)
    requires repo in s.ticks && s.ticks[repo].phase.Filtering? && s.ticks[repo].phase.todo == []
    requires slots <= s.ticks[repo].limit - T.Count(s.tracker.perRepo, repo)
    ensures Safe(w, Goto(s, false, repo, Counted(s.ticks[repo].phase.kept, slots)))
  {
    var p := s.ticks[repo];
    CountedOk(w, s, repo, p.limit, p.phase.kept, slots);
    GotoKeeps(w, s, false, repo, Counted(p.phase.kept, slots));
  }

  lemma CountKeeps(w: World, s: Sys, repo: string, hostSlots: int)
    requires WellFormed(w) && Safe(w, s)
    ensures Safe(w, CountSlots(s, repo, hostSlots))
  {
    if repo in s.ticks && s.ticks[repo].phase.Filtering? && s.ticks[repo].phase.todo == [] {
      var p := s.ticks[repo];
      var free := p.limit - T.Count(s.tracker.perRepo, repo);
      var slots := if hostSlots < free then hostSlots else free;
      CountOutcome(s, repo, hostSlots, slots);
      if slots <= 0 || p.phase.kept == [] {
        LeaveKeeps(w, s, repo);
      } else {
        CountGoesOn(w, s, repo, slots);
      }
    }
  }

  lemma SelectKeeps(w: World, s: Sys, repo: string, around: S.Surroundings)
    requires WellFormed(w) && Safe(w, s)
    ensures Safe(w, SelectJobs(s, repo, around))
  {
    if repo in s.ticks && s.ticks[repo].phase.Counted? {
      var p := s.ticks[repo].phase;
      assert PassOk(w, s, false, repo, s.ticks[repo]);
      CheckoutsCoverJobs(w, s, repo);
      SelectionIsStartable(w, s, repo, s.ticks[repo].limit, around, p.slots, p.kept,
                           s.tracker.checkouts.Keys, s.tracker.runtimes.Keys);
      var chosen := S.Select(around, p.slots, p.kept, s.tracker.checkouts.Keys, s.tracker.runtimes.Keys).0;
      GotoKeeps(w, s, false, repo, Dispatching(chosen, []));
    }
  }

  lemma PoolCountedFits(w: World, s: Sys, repo: string, ids: seq<string>, slots: int)
    requires WellFormed(w) && repo in s.pools && PassOk(w, s, true, repo, s.pools[repo])
    requires ValidQueue(w, repo, ids) && 0 < slots <= s.pools[repo].limit - s.pools[repo].running
    ensures PhaseOk(w, s, repo, s.pools[repo].limit, PoolCounted(JobsNamed(w, ids), slots))
  {
    NamedJobsAreProper(w, repo, ids);
  }

  lemma PoolListKeeps(w: World, s: Sys, repo: string, ids: seq<string>, hostSlots: int)
    requires WellFormed(w) && Safe(w, s)
    ensures Safe(w, PoolListPending(w, s, repo, ids, hostSlots))
  {
    var s' := PoolListPending(w, s, repo, ids, hostSlots);
    if s' != s {
      var free := s.pools[repo].limit - s.pools[repo].running;
      var slots := if hostSlots < free then hostSlots else free;
      PoolCountedFits(w, s, repo, ids, slots);
      GotoKeeps(w, s, true, repo, PoolCounted(JobsNamed(w, ids), slots));
    }
  }

  lemma PoolSeedsKeeps(w: World, s: Sys, repo: string)
    requires WellFormed(w) && Safe(w, s)
    ensures Safe(w, PoolTakeSeeds(s, repo))
  {
    if repo in s.pools && s.pools[repo].phase.PoolCounted? {
      var p := s.pools[repo].phase;
      assert PassOk(w, s, true, repo, s.pools[repo]);
      CheckoutsCoverJobs(w, s, repo);
      assert [] + p.pending == p.pending;
      GotoKeeps(w, s, true, repo,
                PoolFiltering(p.pending, [], p.slots, s.tracker.checkouts.Keys, s.tracker.runtimes.Keys));
    }
  }

  lemma PoolFilterKeeps(w: World, s: Sys, repo: string)
    requires WellFormed(w) && Safe(w, s)
    ensures Safe(w, PoolFilterOne(s, repo))
  {
    if repo in s.pools && s.pools[repo].phase.PoolFiltering? && s.pools[repo].phase.todo != [] {
      var p := s.pools[repo].phase;
      assert PassOk(w, s, true, repo, s.pools[repo]);
      FilteredOk(w, s, repo, p.todo, p.kept);
      var kept' := if p.todo[0].id in s.tracker.jobs then p.kept else p.kept + [p.todo[0]];
      GotoKeeps(w, s, true, repo, p.(todo := p.todo[1..], kept := kept'));
    }
  }

  lemma PoolSelectKeeps(w: World, s: Sys, repo: string, around: S.Surroundings)
    requires WellFormed(w) && Safe(w, s)
    ensures Safe(w, PoolSelectJobs(s, repo, around))
  {
    if repo in s.pools && s.pools[repo].phase.PoolFiltering? && s.pools[repo].phase.todo == [] {
      var p := s.pools[repo].phase;
      assert PassOk(w, s, true, repo, s.pools[repo]);
      assert p.kept + [] == p.kept;
      SelectionIsStartable(w, s, repo, s.pools[repo].limit, around, p.slots, p.kept, p.seedCheckouts, p.seedRuntimes);
      var (queued, remaining) := S.Select(around, p.slots, p.kept, p.seedCheckouts, p.seedRuntimes);
      GotoKeeps(w, s, true, repo, Dispatching(queued, remaining));
    }
  }

  lemma SpareTail(w: World, s: Sys, repo: string, limit: int, spare: seq<S.Job>)
    requires spare != [] && PhaseOk(w, s, repo, limit, Dispatching([], spare))
    ensures PhaseOk(w, s, repo, limit, Dispatching([], spare[1..]))
  {
    assert [] + spare == spare && [] + spare[1..] == spare[1..];
    assert forall k | 0 <= k < |spare| - 1 :: spare[1..][k] == spare[k + 1];
  }

  lemma PassOverKeeps(w: World, s: Sys, repo: string)
    requires WellFormed(w) && Safe(w, s)
    ensures Safe(w, PassOverSpare(s, repo))
  {
    if AtSpare(s, repo) {
      var p := s.pools[repo].phase;
      assert PhaseOk(w, s, repo, s.pools[repo].limit, p);
      SpareTail(w, s, repo, s.pools[repo].limit, p.spare);
      GotoKeeps(w, s, true, repo, Dispatching([], p.spare[1..]));
    }
  }

  lemma FinishKeeps(w: World, s: Sys, pool: bool, repo: string)
    requires WellFormed(w) && Safe(w, s)
    ensures Safe(w, FinishPass(s, pool, repo))
  {
    if At(s, pool, repo) && PhaseOf(s, pool, repo) == Dispatching([], []) {
      if pool {
        GotoKeeps(w, s, true, repo, Resting);
      } else {
        LeaveKeeps(w, s, repo);
      }
    }
  }
}
