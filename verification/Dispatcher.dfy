/** The non-blocking dispatcher as a state machine. Repository ticks, background
    pool passes, job goroutines and shutdown interleave freely; every lock-guarded
    call of the tracker and of the admission budget is one atomic step. */
module Dispatcher {
  import opened Basics
  import T = InflightTracker
  import B = AdmissionBudget
  import S = JobSelector

  /** What is fixed about the queue: each job's repository and keys, the checkout
      key of the worktree a pool pass would isolate it in, and its estimate. */
  datatype World = World(job: string -> S.Job, isolated: string -> string, estimate: string -> B.Reservation)

  ghost predicate WellFormed(w: World) {
    && (forall id :: w.job(id).id == id && w.job(id).repo != "" && w.job(id).checkoutKey != "")
    && (forall id :: w.isolated(id) != "" && w.estimate(id).memGB >= 0.0)
    && (forall i, j :: KeysKeptApart(w, i, j))
  }

  /** Repositories do not share checkouts and an isolation worktree is its job's
      own. */
  ghost predicate KeysKeptApart(w: World, i: string, j: string) {
    && (w.job(i).repo != w.job(j).repo ==> w.job(i).checkoutKey != w.job(j).checkoutKey)
    && (i != j ==> w.isolated(i) != w.isolated(j))
    && w.isolated(i) != w.job(j).checkoutKey
  }

  /** Where a dispatch pass stands. A barrier tick lists, filters, counts, selects
      and dispatches; a pool pass counts, takes seeds, filters, selects,
      dispatches, and reaps its finished jobs. */
  datatype Phase =
    | Resting
    | Listing
    | Filtering(todo: seq<S.Job>, kept: seq<S.Job>)
    | Counted(kept: seq<S.Job>, slots: int)
    | PoolCounted(pending: seq<S.Job>, slots: int)
    | PoolFiltering(todo: seq<S.Job>, kept: seq<S.Job>, slots: int,
                    seedCheckouts: set<string>, seedRuntimes: set<string>)
    | Dispatching(queue: seq<S.Job>, spare: seq<S.Job>)
    | Holding(job: S.Job, key: string, queue: seq<S.Job>, spare: seq<S.Job>)
    | Refused(job: S.Job, queue: seq<S.Job>, spare: seq<S.Job>)
    | Reaping(id: string)

  /** A pass in progress; `running` is the pool's own count of unreaped jobs. */
  datatype Pass = Pass(limit: int, hostCap: int, running: int, phase: Phase)

  /** A job goroutine: a barrier job releases its reservation and then leaves the
      tracker; a pool job only reports back and is reaped by its pass. */
  datatype Runner = BarrierJob | BarrierReleased | PoolJob | PoolReported

  datatype Sys = Sys(
    tracker: T.State,
    budget: B.State,
    ticks: map<string, Pass>,
    pools: map<string, Pass>,
    runners: map<string, Runner>,
    peakCap: int,
    peakLimit: map<string, int>)

  datatype Event =
    | TickPool(repo: string, limit: int, globalLimit: int)
    | TickBarrier(repo: string, limit: int, globalLimit: int)
    | Abandon(repo: string)
    | List(repo: string, ids: seq<string>)
    | Filter(repo: string)
    | Count(repo: string, hostSlots: int)
    | Select(repo: string, around: S.Surroundings)
    | PoolList(repo: string, ids: seq<string>, hostSlots: int)
    | PoolSeeds(repo: string)
    | PoolFilter(repo: string)
    | PoolSelect(repo: string, around: S.Surroundings)
    | Reserve(pool: bool, repo: string)
    | Begin(pool: bool, repo: string)
    | Undo(pool: bool, repo: string)
    | SkipSpare(repo: string)
    | Isolate(repo: string, placed: bool)
    | Finish(pool: bool, repo: string)
    | JobRelease(id: string)
    | JobEnd(id: string)
    | JobReport(id: string)
    | Reap(repo: string, id: string)
    | ReapRelease(repo: string)
    | PoolExit(repo: string)
    | Drain

  ghost function Initial(budget: B.State): Sys {
    Sys(T.EMPTY, budget, map[], map[], map[], 0, map[])
  }

  function PeakLimit(s: Sys, repo: string): int {
    if repo in s.peakLimit then s.peakLimit[repo] else 0
  }

  function Passes(s: Sys, pool: bool): map<string, Pass> {
    if pool then s.pools else s.ticks
  }

  predicate At(s: Sys, pool: bool, repo: string) {
    repo in Passes(s, pool)
  }

  function PhaseOf(s: Sys, pool: bool, repo: string): Phase
    requires At(s, pool, repo)
  {
    Passes(s, pool)[repo].phase
  }

  function SetPass(s: Sys, pool: bool, repo: string, pass: Pass): Sys {
    if pool then s.(pools := s.pools[repo := pass]) else s.(ticks := s.ticks[repo := pass])
  }

  function Goto(s: Sys, pool: bool, repo: string, phase: Phase): Sys
    requires At(s, pool, repo)
  {
    SetPass(s, pool, repo, Passes(s, pool)[repo].(phase := phase))
  }

  function LeaveTick(s: Sys, repo: string): Sys {
    s.(ticks := s.ticks - {repo})
  }

  function Peaks(s: Sys, repo: string, limit: int, hostCap: int): Sys {
    s.(peakCap := Max(s.peakCap, hostCap), peakLimit := s.peakLimit[repo := Max(PeakLimit(s, repo), limit)])
  }

  predicate ValidQueue(w: World, repo: string, ids: seq<string>) {
    && (forall k | 0 <= k < |ids| :: w.job(ids[k]).repo == repo)
    && (forall i, j | 0 <= i < j < |ids| :: ids[i] != ids[j])
  }

  function JobsNamed(w: World, ids: seq<string>): (jobs: seq<S.Job>)
    ensures |jobs| == |ids| && forall k | 0 <= k < |ids| :: jobs[k] == w.job(ids[k])
  {
    seq(|ids|, k requires 0 <= k < |ids| => w.job(ids[k]))
  }

  // ---- the steps; one that is not enabled changes nothing ---------------------

  ghost function StartPool(s: Sys, repo: string, limit: int, globalLimit: int): Sys {
    if limit > 0 && repo !in s.ticks && T.AdmitsPool(s.tracker, repo) then
      var hostCap := Max(globalLimit, limit);
      Peaks(s, repo, limit, hostCap).(
        tracker := T.RegisterPool(s.tracker, repo),
        pools := s.pools[repo := Pass(limit, hostCap, 0, Resting)])
    else s
  }

  ghost function StartBarrier(s: Sys, repo: string, limit: int, globalLimit: int): Sys {
    if limit > 0 && repo !in s.ticks && repo !in s.tracker.poolRuns then
      var hostCap := Max(globalLimit, limit);
      Peaks(s, repo, limit, hostCap).(ticks := s.ticks[repo := Pass(limit, hostCap, 0, Listing)])
    else s
  }

  ghost function GiveUp(s: Sys, repo: string): Sys {
    if repo in s.ticks && s.ticks[repo].phase.Listing? then LeaveTick(s, repo) else s
  }

  ghost function ListPending(w: World, s: Sys, repo: string, ids: seq<string>): Sys {
    if repo in s.ticks && s.ticks[repo].phase.Listing? && ValidQueue(w, repo, ids) then
      Goto(s, false, repo, Filtering(JobsNamed(w, ids), []))
    else s
  }

  ghost function FilterOne(s: Sys, repo: string): Sys {
    if repo in s.ticks && s.ticks[repo].phase.Filtering? && s.ticks[repo].phase.todo != [] then
      var p := s.ticks[repo].phase;
      Goto(s, false, repo,
           Filtering(p.todo[1..], if p.todo[0].id in s.tracker.jobs then p.kept else p.kept + [p.todo[0]]))
    else s
  }

  /** `slots` is the repository's remainder, clamped by a host remainder that may
      have been read at any other moment. */
  ghost function CountSlots(s: Sys, repo: string, hostSlots: int): Sys {
    if repo in s.ticks && s.ticks[repo].phase.Filtering? && s.ticks[repo].phase.todo == [] then
      var p := s.ticks[repo];
      var free := p.limit - T.Count(s.tracker.perRepo, repo);
      var slots := if hostSlots < free then hostSlots else free;
      if slots <= 0 || p.phase.kept == [] then LeaveTick(s, repo)
      else Goto(s, false, repo, Counted(p.phase.kept, slots))
    else s
  }

  ghost function SelectJobs(s: Sys, repo: string, around: S.Surroundings): Sys {
    if repo in s.ticks && s.ticks[repo].phase.Counted? then
      var p := s.ticks[repo].phase;
      var chosen := S.Select(around, p.slots, p.kept, s.tracker.checkouts.Keys, s.tracker.runtimes.Keys).0;
      Goto(s, false, repo, Dispatching(chosen, []))
    else s
  }

  ghost function PoolListPending(w: World, s: Sys, repo: string, ids: seq<string>, hostSlots: int): Sys {
    if repo in s.pools && s.pools[repo].phase.Resting? && ValidQueue(w, repo, ids) then
      var p := s.pools[repo];
      var free := p.limit - p.running;
      var slots := if hostSlots < free then hostSlots else free;
      if slots <= 0 then s else Goto(s, true, repo, PoolCounted(JobsNamed(w, ids), slots))
    else s
  }

  ghost function PoolTakeSeeds(s: Sys, repo: string): Sys {
    if repo in s.pools && s.pools[repo].phase.PoolCounted? then
      var p := s.pools[repo].phase;
      Goto(s, true, repo, PoolFiltering(p.pending, [], p.slots, s.tracker.checkouts.Keys, s.tracker.runtimes.Keys))
    else s
  }

  ghost function PoolFilterOne(s: Sys, repo: string): Sys {
    if repo in s.pools && s.pools[repo].phase.PoolFiltering? && s.pools[repo].phase.todo != [] then
      var p := s.pools[repo].phase;
      Goto(s, true, repo,
           p.(todo := p.todo[1..], kept := if p.todo[0].id in s.tracker.jobs then p.kept else p.kept + [p.todo[0]]))
    else s
  }

  ghost function PoolSelectJobs(s: Sys, repo: string, around: S.Surroundings): Sys {
    if repo in s.pools && s.pools[repo].phase.PoolFiltering? && s.pools[repo].phase.todo == [] then
      var p := s.pools[repo].phase;
      var (queued, remaining) := S.Select(around, p.slots, p.kept, p.seedCheckouts, p.seedRuntimes);
      Goto(s, true, repo, Dispatching(queued, remaining))
    else s
  }

  ghost function ReserveNext(w: World, s: Sys, pool: bool, repo: string): Sys {
    if At(s, pool, repo) && PhaseOf(s, pool, repo).Dispatching? && PhaseOf(s, pool, repo).queue != [] then
      var p := PhaseOf(s, pool, repo);
      var job := p.queue[0];
      var (budget, ok) := B.Reserve(s.budget, job.id, w.estimate(job.id));
      Goto(s, pool, repo,
           if ok then Holding(job, job.checkoutKey, p.queue[1..], p.spare)
           else Dispatching(p.queue[1..], p.spare)).(budget := budget)
    else s
  }

  ghost function BeginHeld(s: Sys, pool: bool, repo: string): Sys {
    if At(s, pool, repo) && PhaseOf(s, pool, repo).Holding? then
      var pass := Passes(s, pool)[repo];
      var p := pass.phase;
      if T.Admits(s.tracker, pass.hostCap, p.job.id) then
        SetPass(s, pool, repo, pass.(running := pass.running + 1, phase := Dispatching(p.queue, p.spare))).(
          tracker := T.Register(s.tracker, p.job.id, T.Dispatch(repo, p.key, p.job.runtimeKey)),
          runners := s.runners[p.job.id := if pool then PoolJob else BarrierJob])
      else Goto(s, pool, repo, Refused(p.job, p.queue, p.spare))
    else s
  }

  ghost function UndoRefused(s: Sys, pool: bool, repo: string): Sys {
    if At(s, pool, repo) && PhaseOf(s, pool, repo).Refused? then
      var p := PhaseOf(s, pool, repo);
      Goto(s, pool, repo, Dispatching(p.queue, p.spare)).(budget := B.Release(s.budget, p.job.id))
    else s
  }

  ghost predicate AtSpare(s: Sys, repo: string) {
    && repo in s.pools && s.pools[repo].phase.Dispatching?
    && s.pools[repo].phase.queue == [] && s.pools[repo].phase.spare != []
  }

  ghost function PassOverSpare(s: Sys, repo: string): Sys {
    if AtSpare(s, repo) then Goto(s, true, repo, Dispatching([], s.pools[repo].phase.spare[1..])) else s
  }

  /** A read-only job blocked only by its repository's checkout is moved to a
      worktree of its own; when none can be allocated the reservation goes back. */
  ghost function IsolateSpare(w: World, s: Sys, repo: string, placed: bool): Sys {
    if AtSpare(s, repo) && s.pools[repo].running < s.pools[repo].limit then
      var p := s.pools[repo].phase;
      var job := p.spare[0];
      var (budget, ok) := B.Reserve(s.budget, job.id, w.estimate(job.id));
      Goto(s, true, repo,
           if !ok then Dispatching([], p.spare[1..])
           else if placed then Holding(job, w.isolated(job.id), [], p.spare[1..])
           else Refused(job, [], p.spare[1..])).(budget := budget)
    else s
  }

  ghost function FinishPass(s: Sys, pool: bool, repo: string): Sys {
    if At(s, pool, repo) && PhaseOf(s, pool, repo) == Dispatching([], []) then
      if pool then Goto(s, true, repo, Resting) else LeaveTick(s, repo)
    else s
  }

  ghost function ReleaseJob(s: Sys, id: string): Sys {
    if id in s.runners && s.runners[id] == BarrierJob then
      s.(budget := B.Release(s.budget, id), runners := s.runners[id := BarrierReleased])
    else s
  }

  ghost function EndJob(s: Sys, id: string): Sys {
    if id in s.runners && s.runners[id] == BarrierReleased then
      s.(tracker := T.End(s.tracker, id), runners := s.runners - {id})
    else s
  }

  ghost function ReportJob(s: Sys, id: string): Sys {
    if id in s.runners && s.runners[id] == PoolJob then s.(runners := s.runners[id := PoolReported]) else s
  }

  ghost function ReapJob(w: World, s: Sys, repo: string, id: string): Sys {
    if && repo in s.pools && s.pools[repo].phase.Resting?
       && id in s.runners && s.runners[id] == PoolReported && w.job(id).repo == repo
    then
      Goto(s, true, repo, Reaping(id)).(tracker := T.End(s.tracker, id), runners := s.runners - {id})
    else s
  }

  ghost function ReleaseReaped(s: Sys, repo: string): Sys {
    if repo in s.pools && s.pools[repo].phase.Reaping? then
      var pass := s.pools[repo];
      SetPass(s, true, repo, pass.(running := pass.running - 1, phase := Resting)).(
        budget := B.Release(s.budget, pass.phase.id))
    else s
  }

  ghost function ExitPool(s: Sys, repo: string): Sys {
    if repo in s.pools && s.pools[repo].phase.Resting? && s.pools[repo].running == 0 then
      s.(tracker := T.EndPool(s.tracker, repo), pools := s.pools - {repo})
    else s
  }

  ghost function Step(w: World, s: Sys, e: Event): Sys {
    match e
    case TickPool(r, limit, globalLimit) => StartPool(s, r, limit, globalLimit)
    case TickBarrier(r, limit, globalLimit) => StartBarrier(s, r, limit, globalLimit)
    case Abandon(r) => GiveUp(s, r)
    case List(r, ids) => ListPending(w, s, r, ids)
    case Filter(r) => FilterOne(s, r)
    case Count(r, hostSlots) => CountSlots(s, r, hostSlots)
    case Select(r, around) => SelectJobs(s, r, around)
    case PoolList(r, ids, hostSlots) => PoolListPending(w, s, r, ids, hostSlots)
    case PoolSeeds(r) => PoolTakeSeeds(s, r)
    case PoolFilter(r) => PoolFilterOne(s, r)
    case PoolSelect(r, around) => PoolSelectJobs(s, r, around)
    case Reserve(pool, r) => ReserveNext(w, s, pool, r)
    case Begin(pool, r) => BeginHeld(s, pool, r)
    case Undo(pool, r) => UndoRefused(s, pool, r)
    case SkipSpare(r) => PassOverSpare(s, r)
    case Isolate(r, placed) => IsolateSpare(w, s, r, placed)
    case Finish(pool, r) => FinishPass(s, pool, r)
    case JobRelease(id) => ReleaseJob(s, id)
    case JobEnd(id) => EndJob(s, id)
    case JobReport(id) => ReportJob(s, id)
    case Reap(r, id) => ReapJob(w, s, r, id)
    case ReapRelease(r) => ReleaseReaped(s, r)
    case PoolExit(r) => ExitPool(s, r)
    case Drain => s.(tracker := s.tracker.(draining := true))
  }

  ghost function Run(w: World, s: Sys, events: seq<Event>): Sys
    decreases |events|
  {
    if events == [] then s else Run(w, Step(w, s, events[0]), events[1..])
  }
}
