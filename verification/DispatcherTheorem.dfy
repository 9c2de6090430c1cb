/** The dispatcher's guarantees over whole runs: any number of repositories, any
    interleaving of ticks, pool passes, scheduler flips, job ends and shutdown. */
module DispatcherTheorem {
  import T = InflightTracker
  import B = AdmissionBudget
  import opened Dispatcher
  import opened DispatcherSafety
  import opened DispatcherPasses
  import opened DispatcherJobs
  import opened DispatcherEndings

  ghost predicate IsTickEvent(e: Event) {
    e.TickPool? || e.TickBarrier? || e.Abandon? || e.List? || e.Filter? || e.Count? || e.Select?
  }

  lemma TickStepKeeps(w: World, s: Sys, e: Event)
    requires WellFormed(w) && Safe(w, s) && IsTickEvent(e)
    ensures Safe(w, Step(w, s, e))
  {
    match e {
      case TickPool(r, limit, globalLimit) => StartPoolKeeps(w, s, r, limit, globalLimit);
      case TickBarrier(r, limit, globalLimit) => StartBarrierKeeps(w, s, r, limit, globalLimit);
      case Abandon(r) => GiveUpKeeps(w, s, r);
      case List(r, ids) => ListKeeps(w, s, r, ids);
      case Filter(r) => FilterKeeps(w, s, r);
      case Count(r, hostSlots) => CountKeeps(w, s, r, hostSlots);
      case Select(r, around) => SelectKeeps(w, s, r, around);
    }
  }

  ghost predicate IsPoolEvent(e: Event) {
    e.PoolList? || e.PoolSeeds? || e.PoolFilter? || e.PoolSelect? || e.SkipSpare? || e.PoolExit?
  }

  lemma PoolStepIs(w: World, s: Sys, e: Event)
    requires IsPoolEvent(e)
    ensures Step(w, s, e) == match e
              case PoolList(r, ids, hostSlots) => PoolListPending(w, s, r, ids, hostSlots)
              case PoolSeeds(r) => PoolTakeSeeds(s, r)
              case PoolFilter(r) => PoolFilterOne(s, r)
              case PoolSelect(r, around) => PoolSelectJobs(s, r, around)
              case SkipSpare(r) => PassOverSpare(s, r)
              case _ => ExitPool(s, e.repo)
  {
  }

  lemma PoolStepKeeps(w: World, s: Sys, e: Event)
    requires WellFormed(w) && Safe(w, s) && IsPoolEvent(e)
    ensures Safe(w, Step(w, s, e))
  {
    PoolStepIs(w, s, e);
    match e {
      case PoolList(r, ids, hostSlots) => PoolListKeeps(w, s, r, ids, hostSlots);
      case PoolSeeds(r) => PoolSeedsKeeps(w, s, r);
      case PoolFilter(r) => PoolFilterKeeps(w, s, r);
      case PoolSelect(r, around) => PoolSelectKeeps(w, s, r, around);
      case SkipSpare(r) => PassOverKeeps(w, s, r);
      case PoolExit(r) => ExitKeeps(w, s, r);
    }
  }

  ghost predicate IsDispatchEvent(e: Event) {
    e.Reserve? || e.Begin? || e.Undo? || e.Isolate? || e.Finish?
  }

  lemma DispatchStepIs(w: World, s: Sys, e: Event)
    requires IsDispatchEvent(e)
    ensures Step(w, s, e) == match e
              case Reserve(pool, r) => ReserveNext(w, s, pool, r)
              case Begin(pool, r) => BeginHeld(s, pool, r)
              case Undo(pool, r) => UndoRefused(s, pool, r)
              case Isolate(r, placed) => IsolateSpare(w, s, r, placed)
              case _ => FinishPass(s, e.pool, e.repo)
  {
  }

  lemma DispatchStepKeeps(w: World, s: Sys, e: Event)
    requires WellFormed(w) && Safe(w, s) && IsDispatchEvent(e)
    ensures Safe(w, Step(w, s, e))
  {
    DispatchStepIs(w, s, e);
    match e {
      case Reserve(pool, r) => ReserveKeeps(w, s, pool, r);
      case Begin(pool, r) => BeginKeeps(w, s, pool, r);
      case Undo(pool, r) => UndoKeeps(w, s, pool, r);
      case Isolate(r, placed) => IsolateKeeps(w, s, r, placed);
      case Finish(pool, r) => FinishKeeps(w, s, pool, r);
    }
  }

  ghost predicate IsJobEvent(e: Event) {
    e.JobRelease? || e.JobEnd? || e.JobReport? || e.Reap? || e.ReapRelease? || e.Drain?
  }

  lemma JobStepIs(w: World, s: Sys, e: Event)
    requires IsJobEvent(e)
    ensures Step(w, s, e) == match e
              case JobRelease(id) => ReleaseJob(s, id)
              case JobEnd(id) => EndJob(s, id)
              case JobReport(id) => ReportJob(s, id)
              case Reap(r, id) => ReapJob(w, s, r, id)
              case ReapRelease(r) => ReleaseReaped(s, r)
              case _ => s.(tracker := s.tracker.(draining := true))
  {
  }

  lemma JobStepKeeps(w: World, s: Sys, e: Event)
    requires WellFormed(w) && Safe(w, s) && IsJobEvent(e)
    ensures Safe(w, Step(w, s, e))
  {
    JobStepIs(w, s, e);
    match e {
      case JobRelease(id) => ReleaseKeeps(w, s, id);
      case JobEnd(id) => EndKeeps(w, s, id);
      case JobReport(id) => ReportKeeps(w, s, id);
      case Reap(r, id) => ReapKeeps(w, s, r, id);
      case ReapRelease(r) => SettleKeeps(w, s, r);
      case Drain => DrainKeeps(w, s);
    }
  }

  /** One step of anyone keeps the system safe. */
  lemma StepKeeps(w: World, s: Sys, e: Event)
    requires WellFormed(w) && Safe(w, s)
    ensures Safe(w, Step(w, s, e))
  {
    if IsTickEvent(e) {
      TickStepKeeps(w, s, e);
    } else if IsPoolEvent(e) {
      PoolStepKeeps(w, s, e);
    } else if IsDispatchEvent(e) {
      DispatchStepKeeps(w, s, e);
    } else {
      JobStepKeeps(w, s, e);
    }
  }

  lemma InitialIsSafe(w: World, budget: B.State)
    requires B.Sound(budget) && B.Reserved(budget) == map[]
    ensures Safe(w, Initial(budget))
  {
    var s := Initial(budget);
    forall r
      ensures InRepo(s, r) == {}
    {
    }
    assert Global(w, s);
    assert Paired(w, s) && PassesOk(w, s);
  }

  lemma {:induction false} RunKeeps(w: World, s: Sys, events: seq<Event>)
    requires WellFormed(w) && Safe(w, s)
    ensures Safe(w, Run(w, s, events))
    decreases |events|
  {
    if events != [] {
      StepKeeps(w, s, events[0]);
      RunKeeps(w, Step(w, s, events[0]), events[1..]);
    }
  }

  /** Every reachable state is safe. */
  lemma EveryRunIsSafe(w: World, maxSessions: int, maxMemoryGB: real, events: seq<Event>)
    requires WellFormed(w)
    ensures Safe(w, Run(w, Initial(B.New(maxSessions, maxMemoryGB)), events))
  {
    var budget := B.New(maxSessions, maxMemoryGB);
    assert B.Sound(budget) by {
      assert B.Sessions(map[]) == {};
    }
    InitialIsSafe(w, budget);
    RunKeeps(w, Initial(budget), events);
  }

  lemma OneEach(s: Sys)
    requires T.Accurate(s.tracker) && CheckoutsExclusive(s)
    ensures forall key | key in s.tracker.checkouts :: s.tracker.checkouts[key] == 1
  {
    forall key | key in s.tracker.checkouts
      ensures s.tracker.checkouts[key] == 1
    {
      var h := T.Holders(s.tracker.jobs, T.Checkout, key);
      var id :| id in h;
      forall other | other in h
        ensures other == id
      {
        assert Apart(s, id, other);
      }
      assert h == {id};
    }
  }

  /** In every reachable state no two in-flight jobs share a checkout, and no
      repository has a live pool pass and a barrier pass at once. */
  lemma CheckoutsNeverCollide(w: World, maxSessions: int, maxMemoryGB: real, events: seq<Event>)
    requires WellFormed(w)
    ensures var s := Run(w, Initial(B.New(maxSessions, maxMemoryGB)), events);
            && (forall i, j | i in s.tracker.jobs && j in s.tracker.jobs && i != j ::
                  s.tracker.jobs[i].checkoutKey != s.tracker.jobs[j].checkoutKey)
            && (forall key | key in s.tracker.checkouts :: s.tracker.checkouts[key] == 1)
            && s.ticks.Keys !! s.tracker.poolRuns
  {
    EveryRunIsSafe(w, maxSessions, maxMemoryGB, events);
    var s := Run(w, Initial(B.New(maxSessions, maxMemoryGB)), events);
    forall i, j | i in s.tracker.jobs && j in s.tracker.jobs && i != j
      ensures s.tracker.jobs[i].checkoutKey != s.tracker.jobs[j].checkoutKey
    {
      assert Apart(s, i, j);
    }
    OneEach(s);
  }

  /** The tracker's counters are the per-key cardinalities of what is in flight,
      and the wait count is jobs plus pool passes. */
  lemma CountersAreExact(w: World, maxSessions: int, maxMemoryGB: real, events: seq<Event>)
    requires WellFormed(w)
    ensures var s := Run(w, Initial(B.New(maxSessions, maxMemoryGB)), events);
            && T.Accurate(s.tracker)
            && T.Total(s.tracker.perRepo) == |s.tracker.jobs|
            && s.tracker.waiting == |s.tracker.jobs| + |s.pools|
  {
    EveryRunIsSafe(w, maxSessions, maxMemoryGB, events);
    var s := Run(w, Initial(B.New(maxSessions, maxMemoryGB)), events);
    T.TotalIsJobs(s.tracker.perRepo, s.tracker.jobs);
    assert |s.pools| == |s.pools.Keys|;
  }

  /** Every reservation is owed by an in-flight job or by the pass dispatching or
      reaping it, both caps hold, and nothing is left reserved once nothing runs. */
  lemma ReservationsNeverLeak(w: World, maxSessions: int, maxMemoryGB: real, events: seq<Event>)
    requires WellFormed(w)
    ensures var s := Run(w, Initial(B.New(maxSessions, maxMemoryGB)), events);
            s.budget.On? ==>
              && (forall id :: id in s.budget.reservations <==> Owed(w, s, id))
              && s.budget.reservedCount == |B.Sessions(s.budget.reservations)|
              && s.budget.reservedMemGB == B.Memory(s.budget.reservations)
              && (s.budget.maxSessions > 0 ==> s.budget.reservedCount <= s.budget.maxSessions)
              && (s.budget.maxMemoryGB > 0.0 ==> s.budget.reservedMemGB <= s.budget.maxMemoryGB)
              && (s.tracker.jobs == map[] && s.ticks == map[] && s.pools == map[] ==>
                    s.budget.reservedCount == 0 && s.budget.reservedMemGB == 0.0)
  {
    EveryRunIsSafe(w, maxSessions, maxMemoryGB, events);
    var s := Run(w, Initial(B.New(maxSessions, maxMemoryGB)), events);
    if s.budget.On? && s.tracker.jobs == map[] && s.ticks == map[] && s.pools == map[] {
      assert s.runners.Keys == {};
      assert forall id :: id in s.budget.reservations <==> Owed(w, s, id);
      assert s.budget.reservations == map[];
      B.EmptyBudgetHoldsNothing(s.budget);
    }
  }

  /** In flight never exceeds the largest host cap used so far, nor, per
      repository, the largest limit used for it. */
  lemma InFlightIsBounded(w: World, maxSessions: int, maxMemoryGB: real, events: seq<Event>)
    requires WellFormed(w)
    ensures var s := Run(w, Initial(B.New(maxSessions, maxMemoryGB)), events);
            && |s.tracker.jobs| <= s.peakCap
            && forall r :: T.Count(s.tracker.perRepo, r) <= PeakLimit(s, r)
  {
    EveryRunIsSafe(w, maxSessions, maxMemoryGB, events);
    var s := Run(w, Initial(B.New(maxSessions, maxMemoryGB)), events);
    forall r
      ensures T.Count(s.tracker.perRepo, r) <= PeakLimit(s, r)
    {
      CountIsInRepo(s, r);
      assert |InRepo(s, r)| <= PeakLimit(s, r);
    }
  }

  ghost predicate Falls(s: Sys, s': Sys) {
    && s'.tracker.draining
    && s'.tracker.waiting <= s.tracker.waiting
    && s'.tracker.jobs.Keys <= s.tracker.jobs.Keys
  }

  lemma TickStepAfterDrain(w: World, s: Sys, e: Event)
    requires s.tracker.draining && IsTickEvent(e)
    ensures Falls(s, Step(w, s, e))
  {
  }

  lemma PoolStepAfterDrain(w: World, s: Sys, e: Event)
    requires s.tracker.draining && IsPoolEvent(e)
    ensures Falls(s, Step(w, s, e))
  {
    PoolStepIs(w, s, e);
  }

  lemma StepAfterDrain(w: World, s: Sys, e: Event)
    requires s.tracker.draining
    ensures Falls(s, Step(w, s, e))
  {
    if IsTickEvent(e) {
      TickStepAfterDrain(w, s, e);
    } else if IsPoolEvent(e) {
      PoolStepAfterDrain(w, s, e);
    }
  }

  /** Once shutdown drains, nothing new begins: the wait count only falls. */
  lemma {:induction false} DrainOnlyFalls(w: World, s: Sys, events: seq<Event>)
    requires s.tracker.draining
    ensures Falls(s, Run(w, s, events))
    decreases |events|
  {
    if events != [] {
      StepAfterDrain(w, s, events[0]);
      DrainOnlyFalls(w, Step(w, s, events[0]), events[1..]);
    }
  }
}
