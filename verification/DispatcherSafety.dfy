/** What holds in every reachable state of the dispatcher. */
module DispatcherSafety {
  import opened Basics
  import T = InflightTracker
  import B = AdmissionBudget
  import S = JobSelector
  import opened Dispatcher

  ghost function InRepo(s: Sys, repo: string): set<string> {
    T.Holders(s.tracker.jobs, T.Repo, repo)
  }

  /** Listed jobs: of one repository, no id twice. */
  ghost predicate Proper(w: World, repo: string, jobs: seq<S.Job>) {
    && (forall k | 0 <= k < |jobs| :: jobs[k] == w.job(jobs[k].id) && jobs[k].repo == repo)
    && (forall i, j | 0 <= i < j < |jobs| :: jobs[i].id != jobs[j].id)
  }

  ghost predicate NotRunning(s: Sys, jobs: seq<S.Job>) {
    forall k | 0 <= k < |jobs| :: jobs[k].id !in s.tracker.jobs
  }

  /** None of the keys is held by an in-flight job of the repository. */
  ghost predicate KeyFree(s: Sys, repo: string, key: string) {
    forall id | id in s.tracker.jobs && s.tracker.jobs[id].repo == repo :: s.tracker.jobs[id].checkoutKey != key
  }

  ghost predicate Startable(s: Sys, repo: string, queue: seq<S.Job>) {
    && S.DistinctCheckouts(queue)
    && forall k | 0 <= k < |queue| :: KeyFree(s, repo, queue[k].checkoutKey)
  }

  ghost predicate SeedsCover(s: Sys, repo: string, seeds: set<string>) {
    forall id | id in s.tracker.jobs && s.tracker.jobs[id].repo == repo :: s.tracker.jobs[id].checkoutKey in seeds
  }

  /** The job a pass is holding a reservation for outside the tracker. */
  ghost predicate Carries(p: Phase, id: string) {
    match p
    case Holding(job, _, _, _) => job.id == id
    case Refused(job, _, _) => job.id == id
    case Reaping(reaped) => reaped == id
    case _ => false
  }

  ghost predicate PassCarries(passes: map<string, Pass>, repo: string, id: string) {
    repo in passes && Carries(passes[repo].phase, id)
  }

  /** Every phase keeps its working set startable. */
  ghost predicate PhaseOk(w: World, s: Sys, repo: string, limit: int, p: Phase) {
    var inflight := |InRepo(s, repo)|;
    match p
    case Resting => true
    case Listing => true
    case Filtering(todo, kept) => Proper(w, repo, kept + todo) && NotRunning(s, kept)
    case Counted(kept, slots) => Proper(w, repo, kept) && NotRunning(s, kept) && slots + inflight <= limit
    case PoolCounted(pending, slots) => Proper(w, repo, pending) && slots + inflight <= limit
    case PoolFiltering(todo, kept, slots, seeds, _) =>
      && Proper(w, repo, kept + todo) && NotRunning(s, kept)
      && SeedsCover(s, repo, seeds) && slots + inflight <= limit
    case Dispatching(queue, spare) =>
      && Proper(w, repo, queue + spare) && NotRunning(s, queue + spare)
      && Startable(s, repo, queue) && (queue != [] ==> |queue| + inflight <= limit)
    case Holding(job, key, queue, spare) =>
      && Proper(w, repo, [job] + queue + spare) && NotRunning(s, [job] + queue + spare)
      && Startable(s, repo, queue) && KeyFree(s, repo, key)
      && (forall k | 0 <= k < |queue| :: queue[k].checkoutKey != key)
      && (key == job.checkoutKey || key == w.isolated(job.id))
      && 1 + |queue| + inflight <= limit
    case Refused(job, queue, spare) =>
      && Proper(w, repo, [job] + queue + spare) && NotRunning(s, [job] + queue + spare)
      && Startable(s, repo, queue) && (queue != [] ==> |queue| + inflight <= limit)
    case Reaping(id) => id !in s.tracker.jobs && w.job(id).repo == repo
  }

  ghost predicate PassOk(w: World, s: Sys, pool: bool, repo: string, p: Pass) {
    && 0 < p.limit <= PeakLimit(s, repo)
    && 0 < p.hostCap <= s.peakCap
    && PhaseOk(w, s, repo, p.limit, p.phase)
    && (pool ==> |InRepo(s, repo)| + (if p.phase.Reaping? then 1 else 0) <= p.running)
    && (p.phase.Reaping? ==> pool)
  }

  ghost predicate PassesOk(w: World, s: Sys) {
    && (forall r | r in s.ticks :: PassOk(w, s, false, r, s.ticks[r]))
    && (forall r | r in s.pools :: PassOk(w, s, true, r, s.pools[r]))
  }

  // ---- the safety properties -------------------------------------------------

  /** No two in-flight jobs, of any repositories, hold one checkout key. */
  ghost predicate CheckoutsExclusive(s: Sys) {
    forall i, j :: Apart(s, i, j)
  }

  ghost predicate Apart(s: Sys, i: string, j: string) {
    i in s.tracker.jobs && j in s.tracker.jobs && i != j ==>
      s.tracker.jobs[i].checkoutKey != s.tracker.jobs[j].checkoutKey
  }

  /** A repository is never served by a barrier tick and a pool pass at once, and
      pool jobs are in flight only under a live pass. */
  ghost predicate SingleSelector(w: World, s: Sys) {
    && s.pools.Keys == s.tracker.poolRuns
    && s.ticks.Keys !! s.pools.Keys
    && forall id | id in s.runners :: (s.runners[id] in {PoolJob, PoolReported} <==> w.job(id).repo in s.pools)
  }

  /** A job holds a reservation exactly while it is in flight and unreleased, or
      while the pass serving its repository is carrying it. */
  ghost predicate Owed(w: World, s: Sys, id: string) {
    || (id in s.runners && s.runners[id] != BarrierReleased)
    || PassCarries(s.ticks, w.job(id).repo, id)
    || PassCarries(s.pools, w.job(id).repo, id)
  }

  ghost predicate Paired(w: World, s: Sys) {
    s.budget.On? ==> forall id :: id in s.budget.reservations <==> Owed(w, s, id)
  }

  /** Host-wide and per-repository bounds on what is in flight. */
  ghost predicate Bounded(s: Sys) {
    && |s.tracker.jobs| <= s.peakCap
    && forall r :: |InRepo(s, r)| <= PeakLimit(s, r)
  }

  ghost predicate JobsFiled(w: World, s: Sys) {
    && s.runners.Keys == s.tracker.jobs.Keys
    && forall id | id in s.tracker.jobs ::
         && s.tracker.jobs[id].repo == w.job(id).repo
         && s.tracker.jobs[id].checkoutKey in {w.job(id).checkoutKey, w.isolated(id)}
  }

  ghost predicate Global(w: World, s: Sys) {
    && T.Accurate(s.tracker)
    && B.Sound(s.budget)
    && JobsFiled(w, s)
    && CheckoutsExclusive(s)
    && SingleSelector(w, s)
    && Bounded(s)
  }

  ghost predicate Safe(w: World, s: Sys) {
    Global(w, s) && Paired(w, s) && PassesOk(w, s)
  }

  // ---- frame: a step that does not touch a repository leaves its pass alone ----

  ghost predicate NothingAdded(s: Sys, s': Sys, repo: string) {
    && (forall id | id in s'.tracker.jobs && s'.tracker.jobs[id].repo == repo ::
          id in s.tracker.jobs && s.tracker.jobs[id] == s'.tracker.jobs[id])
    && PeakLimit(s, repo) <= PeakLimit(s', repo) && s.peakCap <= s'.peakCap
  }

  ghost predicate FiledJobs(w: World, s: Sys) {
    forall id | id in s.tracker.jobs :: s.tracker.jobs[id].repo == w.job(id).repo
  }

  lemma InRepoShrinks(s: Sys, s': Sys, repo: string)
    requires NothingAdded(s, s', repo)
    ensures InRepo(s', repo) <= InRepo(s, repo)
    ensures |InRepo(s', repo)| <= |InRepo(s, repo)|
  {
    SubsetSize(InRepo(s', repo), InRepo(s, repo));
  }

  lemma ProperParts(w: World, repo: string, a: seq<S.Job>, b: seq<S.Job>)
    requires Proper(w, repo, a + b)
    ensures Proper(w, repo, a) && Proper(w, repo, b)
  {
    assert forall k | 0 <= k < |a| :: a[k] == (a + b)[k];
    assert forall k | 0 <= k < |b| :: b[k] == (a + b)[|a| + k];
  }

  lemma NotRunningFrame(w: World, s: Sys, s': Sys, repo: string, jobs: seq<S.Job>)
    requires NothingAdded(s, s', repo) && FiledJobs(w, s')
    requires Proper(w, repo, jobs) && NotRunning(s, jobs)
    ensures NotRunning(s', jobs)
  {
    forall k | 0 <= k < |jobs|
      ensures jobs[k].id !in s'.tracker.jobs
    {
      assert jobs[k] == w.job(jobs[k].id);
    }
  }

  lemma PhaseFrame(w: World, s: Sys, s': Sys, repo: string, limit: int, p: Phase)
    requires NothingAdded(s, s', repo) && FiledJobs(w, s') && WellFormed(w)
    requires PhaseOk(w, s, repo, limit, p)
    ensures PhaseOk(w, s', repo, limit, p)
  {
    InRepoShrinks(s, s', repo);
    StillFree(s, s', repo);
    match p {
      case Filtering(todo, kept) =>
        ProperParts(w, repo, kept, todo);
        NotRunningFrame(w, s, s', repo, kept);
      case Counted(kept, _) =>
        NotRunningFrame(w, s, s', repo, kept);
      case PoolFiltering(todo, kept, _, _, _) =>
        ProperParts(w, repo, kept, todo);
        NotRunningFrame(w, s, s', repo, kept);
      case Dispatching(queue, spare) =>
        NotRunningFrame(w, s, s', repo, queue + spare);
      case Holding(job, _, queue, spare) =>
        NotRunningFrame(w, s, s', repo, [job] + queue + spare);
      case Refused(job, queue, spare) =>
        NotRunningFrame(w, s, s', repo, [job] + queue + spare);
      case _ =>
    }
  }

  lemma StillFree(s: Sys, s': Sys, repo: string)
    requires NothingAdded(s, s', repo)
    ensures forall key | KeyFree(s, repo, key) :: KeyFree(s', repo, key)
  {
  }

  /** Passes of repositories whose jobs only left stay in order. */
  lemma PassFrame(w: World, s: Sys, s': Sys, pool: bool, repo: string, p: Pass)
    requires NothingAdded(s, s', repo) && FiledJobs(w, s') && WellFormed(w)
    requires PassOk(w, s, pool, repo, p)
    ensures PassOk(w, s', pool, repo, p)
  {
    PhaseFrame(w, s, s', repo, p.limit, p.phase);
    InRepoShrinks(s, s', repo);
  }

  /** Only the pass of `repo` needs looking at after a step of `repo`. */
  lemma PassesFrame(w: World, s: Sys, s': Sys, repo: string)
    requires WellFormed(w) && PassesOk(w, s) && FiledJobs(w, s')
    requires forall r | r != repo && r in s'.ticks :: r in s.ticks && s'.ticks[r] == s.ticks[r]
    requires forall r | r != repo && r in s'.pools :: r in s.pools && s'.pools[r] == s.pools[r]
    requires forall r | r != repo && (r in s'.ticks || r in s'.pools) :: NothingAdded(s, s', r)
    requires repo in s'.ticks ==> PassOk(w, s', false, repo, s'.ticks[repo])
    requires repo in s'.pools ==> PassOk(w, s', true, repo, s'.pools[repo])
    ensures PassesOk(w, s')
  {
    forall r | r in s'.ticks
      ensures PassOk(w, s', false, r, s'.ticks[r])
    {
      if r != repo {
        PassFrame(w, s, s', false, r, s'.ticks[r]);
      }
    }
    forall r | r in s'.pools
      ensures PassOk(w, s', true, r, s'.pools[r])
    {
      if r != repo {
        PassFrame(w, s, s', true, r, s'.pools[r]);
      }
    }
  }

  /** With tracker, runners and peaks as they were, the global part carries over. */
  lemma GlobalFrame(w: World, s: Sys, s': Sys)
    requires Global(w, s)
    requires s'.tracker == s.tracker && s'.runners == s.runners && B.Sound(s'.budget)
    requires s'.peakCap == s.peakCap && s'.peakLimit == s.peakLimit
    requires s'.pools.Keys == s.pools.Keys && s'.ticks.Keys <= s.ticks.Keys
    ensures Global(w, s')
    ensures forall r :: NothingAdded(s, s', r)
  {
    forall r
      ensures NothingAdded(s, s', r) && |InRepo(s', r)| <= PeakLimit(s', r)
    {
      assert |InRepo(s, r)| <= PeakLimit(s, r);
    }
    forall i, j
      ensures Apart(s', i, j)
    {
      assert Apart(s, i, j);
    }
  }

  lemma PairedFrame(w: World, s: Sys, s': Sys)
    requires Paired(w, s) && s'.budget == s.budget
    requires forall id :: Owed(w, s', id) <==> Owed(w, s, id)
    ensures Paired(w, s')
  {
  }

  // ---- steps that only move one pass on ---------------------------------------

  ghost predicate SameHeld(before: Phase, after: Phase) {
    && (forall id :: Carries(after, id) <==> Carries(before, id))
    && !after.Reaping? && !before.Reaping?
  }

  lemma GotoPasses(w: World, s: Sys, pool: bool, repo: string, phase: Phase)
    requires WellFormed(w) && FiledJobs(w, s) && PassesOk(w, s)
    requires At(s, pool, repo) && !At(s, !pool, repo)
    requires !phase.Reaping? && !PhaseOf(s, pool, repo).Reaping?
    requires PhaseOk(w, s, repo, Passes(s, pool)[repo].limit, phase)
    ensures PassesOk(w, Goto(s, pool, repo, phase))
  {
    var s' := Goto(s, pool, repo, phase);
    var pass := Passes(s, pool)[repo].(phase := phase);
    assert PassOk(w, s, pool, repo, pass);
    PassFrame(w, s, s', pool, repo, pass);
    PassesFrame(w, s, s', repo);
  }

  lemma GotoOwed(w: World, s: Sys, pool: bool, repo: string, phase: Phase, id: string)
    requires At(s, pool, repo) && SameHeld(PhaseOf(s, pool, repo), phase)
    ensures Owed(w, Goto(s, pool, repo, phase), id) <==> Owed(w, s, id)
  {
  }

  lemma GotoKeeps(w: World, s: Sys, pool: bool, repo: string, phase: Phase)
    requires WellFormed(w) && Safe(w, s) && At(s, pool, repo)
    requires SameHeld(PhaseOf(s, pool, repo), phase)
    requires PhaseOk(w, s, repo, Passes(s, pool)[repo].limit, phase)
    ensures Safe(w, Goto(s, pool, repo, phase))
  {
    var s' := Goto(s, pool, repo, phase);
    assert Global(w, s') by {
      assert s'.ticks.Keys == s.ticks.Keys && s'.pools.Keys == s.pools.Keys;
      GlobalFrame(w, s, s');
    }
    assert PassesOk(w, s') by {
      GotoPasses(w, s, pool, repo, phase);
    }
    assert Paired(w, s') by {
      forall id
        ensures Owed(w, s', id) <==> Owed(w, s, id)
      {
        GotoOwed(w, s, pool, repo, phase, id);
      }
      PairedFrame(w, s, s');
    }
  }

  lemma LeavePasses(w: World, s: Sys, repo: string)
    requires WellFormed(w) && FiledJobs(w, s) && PassesOk(w, s)
    requires repo !in s.pools
    ensures PassesOk(w, LeaveTick(s, repo))
  {
    PassesFrame(w, s, LeaveTick(s, repo), repo);
  }

  lemma LeaveOwed(w: World, s: Sys, repo: string, id: string)
    requires repo in s.ticks && !Carries(s.ticks[repo].phase, id)
    ensures Owed(w, LeaveTick(s, repo), id) <==> Owed(w, s, id)
  {
  }

  lemma LeaveKeeps(w: World, s: Sys, repo: string)
    requires WellFormed(w) && Safe(w, s) && repo in s.ticks
    requires forall id :: !Carries(s.ticks[repo].phase, id)
    ensures Safe(w, LeaveTick(s, repo))
  {
    var s' := LeaveTick(s, repo);
    assert Global(w, s') by {
      GlobalFrame(w, s, s');
    }
    assert PassesOk(w, s') by {
      LeavePasses(w, s, repo);
    }
    assert Paired(w, s') by {
      forall id
        ensures Owed(w, s', id) <==> Owed(w, s, id)
      {
        LeaveOwed(w, s, repo, id);
      }
      PairedFrame(w, s, s');
    }
  }

  // ---- the working set of a pass ----------------------------------------------

  lemma NamedJobsAreProper(w: World, repo: string, ids: seq<string>)
    requires WellFormed(w) && ValidQueue(w, repo, ids)
    ensures Proper(w, repo, JobsNamed(w, ids))
  {
  }

  lemma {:induction false} CountTwice<A>(s: seq<A>, i: nat, j: nat)
    requires i < j < |s| && s[i] == s[j]
    ensures multiset(s)[s[i]] >= 2
  {
    assert s == s[..j] + s[j..];
    assert s[i] in s[..j] && s[j] in s[j..];
    assert multiset(s) == multiset(s[..j]) + multiset(s[j..]);
  }

  lemma {:induction false} CountOnce(w: World, repo: string, jobs: seq<S.Job>, job: S.Job)
    requires Proper(w, repo, jobs)
    ensures multiset(jobs)[job] <= 1
    decreases |jobs|
  {
    if jobs != [] {
      var init, last := jobs[..|jobs| - 1], jobs[|jobs| - 1];
      assert jobs == init + [last];
      CountOnce(w, repo, init, job);
      if last == job {
        assert job !in init;
      }
    }
  }

  lemma ReorderedStaysProper(w: World, repo: string, a: seq<S.Job>, b: seq<S.Job>)
    requires Proper(w, repo, a) && multiset(a) == multiset(b)
    ensures Proper(w, repo, b)
    ensures forall job | job in b :: job in a
  {
    forall job | job in b
      ensures job in a
    {
      assert job in multiset(b);
    }
    forall k | 0 <= k < |b|
      ensures b[k] == w.job(b[k].id) && b[k].repo == repo
    {
      assert b[k] in a;
      var m :| 0 <= m < |a| && a[m] == b[k];
    }
    forall i, j | 0 <= i < j < |b|
      ensures b[i].id != b[j].id
    {
      if b[i].id == b[j].id {
        CountTwice(b, i, j);
        CountOnce(w, repo, a, b[i]);
      }
    }
  }

  lemma CheckoutsCoverJobs(w: World, s: Sys, repo: string)
    requires WellFormed(w) && T.Accurate(s.tracker) && JobsFiled(w, s)
    ensures SeedsCover(s, repo, s.tracker.checkouts.Keys)
  {
    forall id | id in s.tracker.jobs && s.tracker.jobs[id].repo == repo
      ensures s.tracker.jobs[id].checkoutKey in s.tracker.checkouts
    {
      var key := s.tracker.jobs[id].checkoutKey;
      assert w.job(id).repo != "" && w.job(id).checkoutKey != "" && w.isolated(id) != "";
      assert id in T.Holders(s.tracker.jobs, T.Checkout, key);
    }
  }

  lemma SelectionIsProper(w: World, s: Sys, repo: string, around: S.Surroundings,
                          slots: int, kept: seq<S.Job>, seeds: set<string>, seedRuntimes: set<string>)
    requires Proper(w, repo, kept) && NotRunning(s, kept)
    ensures var (queued, remaining) := S.Select(around, slots, kept, seeds, seedRuntimes);
            && Proper(w, repo, queued + remaining) && NotRunning(s, queued + remaining)
            && Proper(w, repo, queued) && NotRunning(s, queued)
  {
    var (queued, remaining) := S.Select(around, slots, kept, seeds, seedRuntimes);
    S.SelectionPartitions(around, slots, kept, seeds, seedRuntimes);
    assert multiset(queued + remaining) == multiset(kept);
    ReorderedStaysProper(w, repo, kept, queued + remaining);
    MembersNotRunning(s, kept, queued + remaining);
    ProperParts(w, repo, queued, remaining);
    assert forall k | 0 <= k < |queued| :: queued[k] == (queued + remaining)[k];
  }

  lemma SelectionIsFree(s: Sys, repo: string, around: S.Surroundings,
                        slots: int, kept: seq<S.Job>, seeds: set<string>, seedRuntimes: set<string>)
    requires SeedsCover(s, repo, seeds)
    ensures var (queued, _) := S.Select(around, slots, kept, seeds, seedRuntimes);
            Startable(s, repo, queued) && (queued != [] ==> |queued| <= slots)
  {
    var (queued, _) := S.Select(around, slots, kept, seeds, seedRuntimes);
    S.SelectionIsSafe(around, slots, kept, seeds, seedRuntimes);
    forall k | 0 <= k < |queued|
      ensures KeyFree(s, repo, queued[k].checkoutKey)
    {
      assert queued[k] in queued;
    }
  }

  /** A selection made against covering seeds can be dispatched job by job. */
  lemma SelectionIsStartable(w: World, s: Sys, repo: string, limit: int, around: S.Surroundings,
                             slots: int, kept: seq<S.Job>, seeds: set<string>, seedRuntimes: set<string>)
    requires Proper(w, repo, kept) && NotRunning(s, kept)
    requires SeedsCover(s, repo, seeds) && slots + |InRepo(s, repo)| <= limit
    ensures var (queued, remaining) := S.Select(around, slots, kept, seeds, seedRuntimes);
            && PhaseOk(w, s, repo, limit, Dispatching(queued, remaining))
            && PhaseOk(w, s, repo, limit, Dispatching(queued, []))
  {
    var (queued, remaining) := S.Select(around, slots, kept, seeds, seedRuntimes);
    SelectionIsProper(w, s, repo, around, slots, kept, seeds, seedRuntimes);
    SelectionIsFree(s, repo, around, slots, kept, seeds, seedRuntimes);
    assert queued + [] == queued;
  }

  lemma MembersNotRunning(s: Sys, a: seq<S.Job>, b: seq<S.Job>)
    requires NotRunning(s, a) && forall job | job in b :: job in a
    ensures NotRunning(s, b)
  {
    forall k | 0 <= k < |b|
      ensures b[k].id !in s.tracker.jobs
    {
      assert b[k] in a;
      var m :| 0 <= m < |a| && a[m] == b[k];
    }
  }
}
