/** What passes achieve when nothing comes between: when they open, which jobs a pool
    pass selects, and that a job comes and goes without a trace. */
module DispatchPool {
  import opened Basics
  import T = InflightTracker
  import B = AdmissionBudget
  import S = JobSelector
  import R = SelectionRules
  import opened Dispatcher
  import opened DispatcherSafety
  import opened DispatchTick
  import opened DispatchRules

  // ---- opening --------------------------------------------------------------------------

  /** A pool pass opens for a repository exactly when its limit is positive, no tick and
      no pass serves it, none of its jobs is in flight and nothing drains. */
  lemma PoolOpensIff(w: World, s: Sys, repo: string, limit: int, globalLimit: int)
    requires T.Accurate(s.tracker) && repo !in s.pools
    ensures var r := Step(w, s, TickPool(repo, limit, globalLimit));
            && (repo in r.pools <==>
                  && limit > 0 && repo !in s.ticks && repo !in s.tracker.poolRuns && !s.tracker.draining
                  && RunningIn(s.tracker, repo) == {})
            && (repo in r.pools ==> r.pools[repo] == Pass(limit, Max(globalLimit, limit), 0, Resting)
                                    && repo in r.tracker.poolRuns)
            && r.tracker.jobs == s.tracker.jobs && r.budget == s.budget
  {
    T.PoolStartsIdle(s.tracker, repo);
    assert (forall id | id in s.tracker.jobs :: s.tracker.jobs[id].repo != repo) ==> RunningIn(s.tracker, repo) == {};
    if RunningIn(s.tracker, repo) == {} {
      forall id | id in s.tracker.jobs
        ensures s.tracker.jobs[id].repo != repo
      {
        assert id !in RunningIn(s.tracker, repo);
      }
    }
  }

  /** A tick opens exactly when its limit is positive and neither a tick nor a pass
      serves the repository. */
  lemma TickOpensIff(w: World, s: Sys, repo: string, limit: int, globalLimit: int)
    requires repo !in s.ticks
    ensures var r := Step(w, s, TickBarrier(repo, limit, globalLimit));
            && (repo in r.ticks <==> limit > 0 && repo !in s.tracker.poolRuns)
            && (repo in r.ticks ==> r.ticks[repo] == Pass(limit, Max(globalLimit, limit), 0, Listing))
            && r.tracker == s.tracker && r.budget == s.budget
  {
  }

  // ---- the selection of a pool pass ---------------------------------------------------------

  /** The pool pass of `repo` stands at this phase, and the rest is as in s. */
  ghost predicate Moved(s: Sys, s': Sys, repo: string, phase: Phase) {
    repo in s.pools && s' == s.(pools := s.pools[repo := s.pools[repo].(phase := phase)])
  }

  lemma MovedOn(s: Sys, s': Sys, s'': Sys, repo: string, a: Phase, b: Phase)
    requires Moved(s, s', repo, a) && Moved(s', s'', repo, b)
    ensures Moved(s, s'', repo, b)
  {
    assert s.pools[repo := s.pools[repo].(phase := a)][repo := s.pools[repo].(phase := b)]
        == s.pools[repo := s.pools[repo].(phase := b)];
  }

  lemma ListMoves(w: World, s: Sys, repo: string, ids: seq<string>, hostSlots: int)
    requires repo in s.pools && s.pools[repo].phase.Resting? && ValidQueue(w, repo, ids)
    requires hostSlots > 0 && s.pools[repo].running < s.pools[repo].limit
    ensures Moved(s, Step(w, s, PoolList(repo, ids, hostSlots)), repo,
                  PoolCounted(JobsNamed(w, ids), Least(s.pools[repo].limit - s.pools[repo].running, hostSlots)))
  {
  }

  lemma SeedsMove(w: World, s: Sys, repo: string)
    requires repo in s.pools && s.pools[repo].phase.PoolCounted? && T.Accurate(s.tracker)
    ensures var p := s.pools[repo].phase;
            Moved(s, Step(w, s, PoolSeeds(repo)), repo,
                  PoolFiltering(p.pending, [], p.slots, HeldCheckouts(s.tracker), HeldRuntimes(s.tracker)))
  {
    CheckoutsAreHeld(s.tracker);
    RuntimesAreHeld(s.tracker);
  }

  lemma FilterMoves(w: World, s: Sys, repo: string, p: Phase, job: S.Job, todo: seq<S.Job>)
    requires repo in s.pools && s.pools[repo].phase == p && p.PoolFiltering? && p.todo == [job] + todo
    ensures Moved(s, Step(w, s, PoolFilter(repo)), repo,
                  p.(todo := todo, kept := if job.id in s.tracker.jobs then p.kept else p.kept + [job]))
  {
    assert p.todo[1..] == todo && p.todo[0] == job;
  }

  lemma {:induction false} FiltersMove(w: World, s: Sys, repo: string, p: Phase) returns (events: seq<Event>)
    requires repo in s.pools && s.pools[repo].phase == p && p.PoolFiltering?
    ensures Moved(s, Run(w, s, events), repo, p.(todo := [], kept := p.kept + Eligible(s.tracker, p.todo)))
    decreases |p.todo|
  {
    events := [];
    if p.todo == [] {
      assert p.kept + [] == p.kept;
      assert s.pools[repo := s.pools[repo].(phase := p)] == s.pools;
    } else {
      var job, todo := p.todo[0], p.todo[1..];
      var next := Step(w, s, PoolFilter(repo));
      var p' := p.(todo := todo, kept := if job.id in s.tracker.jobs then p.kept else p.kept + [job]);
      assert p.todo == [job] + todo;
      FilterMoves(w, s, repo, p, job, todo);
      FilterOnto(s.tracker, job, todo, p.kept);
      var rest := FiltersMove(w, next, repo, p');
      events := [PoolFilter(repo)] + rest;
      RunOne(w, s, PoolFilter(repo));
      RunAppend(w, s, [PoolFilter(repo)], rest);
      MovedOn(s, next, Run(w, next, rest), repo, p', p'.(todo := [], kept := p'.kept + Eligible(s.tracker, todo)));
    }
  }

  lemma SelectMoves(w: World, s: Sys, repo: string, around: S.Surroundings)
    requires repo in s.pools && s.pools[repo].phase.PoolFiltering? && s.pools[repo].phase.todo == []
    ensures var p := s.pools[repo].phase;
            var (taken, left) := S.Select(around, p.slots, p.kept, p.seedCheckouts, p.seedRuntimes);
            Moved(s, Step(w, s, PoolSelect(repo, around)), repo, Dispatching(taken, left))
  {
  }

  /** A round of a resting pool pass, with nothing in between, ends with the jobs that
      the rules of the selection take as its queue and those they leave as its spare
      jobs: of the listed jobs that are not in flight, with as many free slots as the
      pass and the host have, and with the keys held by running jobs taken. */
  lemma PoolRoundIsRuled(w: World, s: Sys, repo: string, ids: seq<string>, hostSlots: int, around: S.Surroundings)
      returns (events: seq<Event>, idle: seq<bool>, waiting: seq<S.Job>, took: seq<bool>, booked: seq<bool>)
    requires T.Accurate(s.tracker) && repo in s.pools && s.pools[repo].phase.Resting? && ValidQueue(w, repo, ids)
    requires hostSlots > 0 && s.pools[repo].running < s.pools[repo].limit
    ensures MarksIdle(s.tracker, JobsNamed(w, ids), idle)
    ensures waiting == R.Picked(JobsNamed(w, ids), idle, true, |ids|) && |took| == |booked| == |waiting|
    ensures R.AllRuled(around, Least(s.pools[repo].limit - s.pools[repo].running, hostSlots), waiting,
                       HeldCheckouts(s.tracker), HeldRuntimes(s.tracker), took, booked)
    ensures Moved(s, Run(w, s, events), repo,
                  Dispatching(R.Picked(waiting, took, true, |waiting|), R.Picked(waiting, took, false, |waiting|)))
  {
    var pending, slots := JobsNamed(w, ids), Least(s.pools[repo].limit - s.pools[repo].running, hostSlots);
    var checkouts, runtimes := HeldCheckouts(s.tracker), HeldRuntimes(s.tracker);
    var list, seeds, select := PoolList(repo, ids, hostSlots), PoolSeeds(repo), PoolSelect(repo, around);
    idle := seq(|pending|, k requires 0 <= k < |pending| => pending[k].id !in s.tracker.jobs);
    EligibleIsPicked(s.tracker, pending, idle, |pending|);
    assert pending[..|pending|] == pending;
    waiting := Eligible(s.tracker, pending);
    took, booked := R.SelectionIsRuled(around, slots, waiting, checkouts, runtimes);
    var taken, left := R.Picked(waiting, took, true, |waiting|), R.Picked(waiting, took, false, |waiting|);
    ListMoves(w, s, repo, ids, hostSlots);
    var s1 := Step(w, s, list);
    SeedsMove(w, s1, repo);
    var s2 := Step(w, s1, seeds);
    var p := PoolFiltering(pending, [], slots, checkouts, runtimes);
    MovedOn(s, s1, s2, repo, PoolCounted(pending, slots), p);
    var filters := FiltersMove(w, s2, repo, p);
    assert [] + waiting == waiting;
    var s3 := Run(w, s2, filters);
    MovedOn(s, s2, s3, repo, p, p.(todo := [], kept := waiting));
    SelectMoves(w, s3, repo, around);
    MovedOn(s, s3, Step(w, s3, select), repo, p.(todo := [], kept := waiting), Dispatching(taken, left));
    RunThree(w, s, list, seeds, seeds);
    RunOne(w, s3, select);
    RunAppend(w, s2, filters, [select]);
    RunAppend(w, s, [list, seeds], filters + [select]);
    events := [list, seeds] + (filters + [select]);
  }
}
