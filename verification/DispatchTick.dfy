/** One barrier tick of the dispatcher, as written, over the tracker and the
    budget: that it is a run of the state machine, and what it starts. */
module DispatchTick {
  import opened Basics
  import T = InflightTracker
  import B = AdmissionBudget
  import S = JobSelector
  import opened Dispatcher

  // ---- what a tick computes -----------------------------------------------------------

  /** The pending jobs that are not in flight. */
  ghost function Eligible(t: T.State, pending: seq<S.Job>): seq<S.Job> {
    if pending == [] then []
    else (if pending[0].id in t.jobs then [] else [pending[0]]) + Eligible(t, pending[1..])
  }

  datatype Progress = Progress(tracker: T.State, budget: B.State, started: seq<string>)

  /** Reserving for one job, beginning it, and giving back what a refusal leaves. */
  ghost function Attempt(w: World, p: Progress, repo: string, hostCap: int, job: S.Job): Progress {
    var (budget, ok) := B.Reserve(p.budget, job.id, w.estimate(job.id));
    if !ok then p.(budget := budget)
    else if T.Admits(p.tracker, hostCap, job.id) then
      Progress(T.Register(p.tracker, job.id, T.Dispatch(repo, job.checkoutKey, job.runtimeKey)), budget,
               p.started + [job.id])
    else p.(budget := B.Release(budget, job.id))
  }

  ghost function AttemptAll(w: World, p: Progress, repo: string, hostCap: int, queue: seq<S.Job>): Progress
    decreases |queue|
  {
    if queue == [] then p else AttemptAll(w, Attempt(w, p, repo, hostCap, queue[0]), repo, hostCap, queue[1..])
  }

  ghost function Slots(t: T.State, repo: string, limit: int, hostCap: int): int {
    var free, host := limit - T.Count(t.perRepo, repo), hostCap - T.Total(t.perRepo);
    if host < free then host else free
  }

  ghost function Taken(t: T.State, eligible: seq<S.Job>, slots: int, around: S.Surroundings): seq<S.Job> {
    S.Select(around, slots, eligible, t.checkouts.Keys, t.runtimes.Keys).0
  }

  /** The jobs that the tick selects; none when it gives up before selecting. */
  ghost function Chosen(t: T.State, repo: string, limit: int, hostCap: int, pending: seq<S.Job>,
                        around: S.Surroundings): seq<S.Job> {
    var slots := Slots(t, repo, limit, hostCap);
    if slots <= 0 || Eligible(t, pending) == [] then []
    else Taken(t, Eligible(t, pending), slots, around)
  }

  /** `pending` is the listed queue, None when the listing fails. */
  ghost function Ticked(w: World, p: Progress, repo: string, limit: int, globalLimit: int,
                        pending: Option<seq<S.Job>>, around: S.Surroundings): Progress {
    var hostCap := Max(globalLimit, limit);
    if limit <= 0 || repo in p.tracker.poolRuns || pending.None? then p
    else AttemptAll(w, p, repo, hostCap, Chosen(p.tracker, repo, limit, hostCap, pending.value, around))
  }

  // ---- the tick as written ---------------------------------------------------------------

  /** What a pass sees of the two objects; without a policy there is no budget. */
  ghost function Seen(tracker: T.Tracker, budget: B.Budget?, started: seq<string>): Progress
    reads tracker, budget
  {
    Progress(tracker.Abstract(), if budget == null then B.Off else budget.Abstract(), started)
  }

  /** The barrier part of `dispatchQueuedJobsTracked`; `pending` is what the
      listing returned, when it did. */
  method DispatchQueuedJobs(w: World, tracker: T.Tracker, budget: B.Budget?, repo: string, limit: int,
                            globalLimit: int, listed: bool, pending: array<S.Job>, around: S.Surroundings)
    returns (started: seq<string>)
    modifies tracker, budget, pending
    ensures Seen(tracker, budget, started)
         == Ticked(w, old(Seen(tracker, budget, [])), repo, limit, globalLimit,
                   if listed then Some(old(pending[..])) else None, around)
  {
    started := [];
    if limit <= 0 {
      return;
    }
    var hostCap := if limit > globalLimit then limit else globalLimit;
    if repo in tracker.poolRuns || !listed {
      return;
    }
    var queued := Choose(tracker, repo, limit, hostCap, pending, around);
    started := StartAll(w, tracker, budget, repo, hostCap, queued);
  }

  /** From the listed jobs to the selected ones. */
  method Choose(tracker: T.Tracker, repo: string, limit: int, hostCap: int, pending: array<S.Job>,
                around: S.Surroundings)
    returns (queued: seq<S.Job>)
    modifies pending
    ensures queued == Chosen(tracker.Abstract(), repo, limit, hostCap, old(pending[..]), around)
  {
    var n := FilterEligible(tracker, pending);
    var slots := limit - T.Count(tracker.perRepo, repo);
    var total := tracker.HostTotal();
    if hostCap - total < slots {
      slots := hostCap - total;
    }
    if slots <= 0 || n == 0 {
      return [];
    }
    var remaining;
    queued, remaining := S.SelectRunnable(around, slots, pending[..n], tracker.checkouts.Keys, tracker.runtimes.Keys);
  }

  /** The in-place filter over `pending[:0]`: the first n elements remain. */
  method FilterEligible(tracker: T.Tracker, pending: array<S.Job>) returns (n: nat)
    modifies pending
    ensures n <= pending.Length && pending[..n] == Eligible(tracker.Abstract(), old(pending[..]))
  {
    ghost var was, t, kept := pending[..], tracker.Abstract(), [];
    n := 0;
    for k := 0 to pending.Length
      invariant n == |kept| <= k && pending[..n] == kept && tracker.Abstract() == t
      invariant forall j | k <= j < pending.Length :: pending[j] == was[j]
      invariant kept + Eligible(t, was[k..]) == Eligible(t, was)
    {
      var job := pending[k];
      EligibleNext(t, was, k, kept);
      if job.id !in tracker.jobs {
        pending[n] := job;
        n := n + 1;
        kept := kept + [job];
      }
    }
  }

  /** Reading one more job, behind those that are kept. */
  lemma EligibleNext(t: T.State, pending: seq<S.Job>, k: nat, kept: seq<S.Job>)
    requires k < |pending|
    ensures kept + Eligible(t, pending[k..])
         == (if pending[k].id in t.jobs then kept else kept + [pending[k]]) + Eligible(t, pending[k + 1..])
  {
    assert pending[k..] == [pending[k]] + pending[k + 1..];
    FilterOnto(t, pending[k], pending[k + 1..], kept);
  }

  /** The loop over the selected jobs. */
  method StartAll(w: World, tracker: T.Tracker, budget: B.Budget?, repo: string, hostCap: int, queued: seq<S.Job>)
    returns (started: seq<string>)
    modifies tracker, budget
    ensures Seen(tracker, budget, started) == AttemptAll(w, old(Seen(tracker, budget, [])), repo, hostCap, queued)
  {
    started := [];
    for k := 0 to |queued|
      invariant AttemptAll(w, Seen(tracker, budget, started), repo, hostCap, queued[k..])
             == AttemptAll(w, old(Seen(tracker, budget, [])), repo, hostCap, queued)
    {
      assert queued[k..][0] == queued[k] && queued[k..][1..] == queued[k + 1..];
      var job := queued[k];
      if budget != null {
        var ok := budget.TryReserve(job.id, w.estimate(job.id));
        if !ok {
          continue;
        }
      }
      var begun := tracker.BeginWithin(hostCap, job.id, T.Dispatch(repo, job.checkoutKey, job.runtimeKey));
      if !begun {
        if budget != null {
          budget.Refund(job.id);
        }
        continue;
      }
      started := started + [job.id];
    }
  }

  // ---- a tick that meets no other is a run of the state machine ------------------------------

  lemma {:induction false} RunAppend(w: World, s: Sys, a: seq<Event>, b: seq<Event>)
    ensures Run(w, s, a + b) == Run(w, Run(w, s, a), b)
    decreases |a|
  {
    if a == [] {
      assert a + b == b;
    } else {
      assert (a + b)[1..] == a[1..] + b;
      RunAppend(w, Step(w, s, a[0]), a[1..], b);
    }
  }

  lemma RunOne(w: World, s: Sys, e: Event)
    ensures Run(w, s, [e]) == Step(w, s, e)
  {
    assert [e][1..] == [];
    assert Run(w, s, [e]) == Run(w, Step(w, s, e), []);
  }

  /** The tick of `repo` stands at this phase. */
  ghost predicate Stands(s: Sys, repo: string, phase: Phase) {
    repo in s.ticks && s.ticks[repo].phase == phase
  }

  ghost predicate SamePass(s: Sys, s': Sys, repo: string) {
    && repo in s.ticks && repo in s'.ticks && s'.ticks.Keys == s.ticks.Keys && s'.pools == s.pools
    && s'.ticks[repo].limit == s.ticks[repo].limit && s'.ticks[repo].hostCap == s.ticks[repo].hostCap
  }

  lemma FilterStep(w: World, s: Sys, repo: string, job: S.Job, todo: seq<S.Job>, kept: seq<S.Job>)
    requires Stands(s, repo, Filtering([job] + todo, kept))
    ensures var r := Step(w, s, Filter(repo));
            && Stands(r, repo, Filtering(todo, if job.id in s.tracker.jobs then kept else kept + [job]))
            && SamePass(s, r, repo) && r.tracker == s.tracker && r.budget == s.budget
  {
    assert ([job] + todo)[1..] == todo;
  }

  lemma FilterOnto(t: T.State, job: S.Job, todo: seq<S.Job>, kept: seq<S.Job>)
    ensures kept + Eligible(t, [job] + todo)
         == (if job.id in t.jobs then kept else kept + [job]) + Eligible(t, todo)
  {
    assert ([job] + todo)[1..] == todo;
    assert kept + ([job] + Eligible(t, todo)) == kept + [job] + Eligible(t, todo);
  }

  /** Filtering the listed jobs one by one keeps the eligible ones. */
  lemma {:induction false} FilterRuns(w: World, s: Sys, repo: string, todo: seq<S.Job>, kept: seq<S.Job>)
      returns (events: seq<Event>)
    requires Stands(s, repo, Filtering(todo, kept))
    ensures var r := Run(w, s, events);
            && Stands(r, repo, Filtering([], kept + Eligible(s.tracker, todo))) && SamePass(s, r, repo)
            && r.tracker == s.tracker && r.budget == s.budget
    decreases |todo|
  {
    events := [];
    if todo == [] {
      assert kept + [] == kept;
    } else {
      var job, more := todo[0], todo[1..];
      assert [job] + more == todo;
      FilterStep(w, s, repo, job, more, kept);
      FilterOnto(s.tracker, job, more, kept);
      RunOne(w, s, Filter(repo));
      var rest := FilterRuns(w, Step(w, s, Filter(repo)), repo, more,
                             if job.id in s.tracker.jobs then kept else kept + [job]);
      events := [Filter(repo)] + rest;
      RunAppend(w, s, [Filter(repo)], rest);
    }
  }

  lemma ReserveStep(w: World, s: Sys, repo: string, job: S.Job, rest: seq<S.Job>)
    requires Stands(s, repo, Dispatching([job] + rest, []))
    ensures var r := Step(w, s, Reserve(false, repo));
            var (budget, ok) := B.Reserve(s.budget, job.id, w.estimate(job.id));
            && Stands(r, repo, if ok then Holding(job, job.checkoutKey, rest, []) else Dispatching(rest, []))
            && SamePass(s, r, repo) && r.tracker == s.tracker && r.budget == budget
  {
    assert ([job] + rest)[1..] == rest;
  }

  lemma BeginStep(w: World, s: Sys, repo: string, job: S.Job, rest: seq<S.Job>)
    requires Stands(s, repo, Holding(job, job.checkoutKey, rest, []))
    ensures var r := Step(w, s, Begin(false, repo));
            var ok := T.Admits(s.tracker, s.ticks[repo].hostCap, job.id);
            var d := T.Dispatch(repo, job.checkoutKey, job.runtimeKey);
            && Stands(r, repo, if ok then Dispatching(rest, []) else Refused(job, rest, []))
            && SamePass(s, r, repo) && r.budget == s.budget
            && r.tracker == if ok then T.Register(s.tracker, job.id, d) else s.tracker
  {
  }

  lemma UndoStep(w: World, s: Sys, repo: string, job: S.Job, rest: seq<S.Job>)
    requires Stands(s, repo, Refused(job, rest, []))
    ensures var r := Step(w, s, Undo(false, repo));
            && Stands(r, repo, Dispatching(rest, [])) && SamePass(s, r, repo)
            && r.tracker == s.tracker && r.budget == B.Release(s.budget, job.id)
  {
  }

  lemma RunThree(w: World, s: Sys, a: Event, b: Event, c: Event)
    ensures Run(w, s, [a, b]) == Step(w, Step(w, s, a), b)
    ensures Run(w, s, [a, b, c]) == Step(w, Step(w, Step(w, s, a), b), c)
  {
    assert [a] + [b] == [a, b] && [a, b] + [c] == [a, b, c];
    RunOne(w, s, a);
    RunOne(w, Step(w, s, a), b);
    RunOne(w, Step(w, Step(w, s, a), b), c);
    RunAppend(w, s, [a], [b]);
    RunAppend(w, s, [a, b], [c]);
  }

  /** One attempt: reserve, and then begin, and then undo where they are enabled. */
  lemma AttemptRuns(w: World, s: Sys, repo: string, job: S.Job, rest: seq<S.Job>) returns (events: seq<Event>)
    requires Stands(s, repo, Dispatching([job] + rest, []))
    ensures var r := Run(w, s, events);
            var p := Attempt(w, Progress(s.tracker, s.budget, []), repo, s.ticks[repo].hostCap, job);
            && Stands(r, repo, Dispatching(rest, [])) && SamePass(s, r, repo)
            && r.tracker == p.tracker && r.budget == p.budget
  {
    var reserve, begin, undo := Reserve(false, repo), Begin(false, repo), Undo(false, repo);
    ReserveStep(w, s, repo, job, rest);
    RunThree(w, s, reserve, begin, undo);
    if !B.Reserve(s.budget, job.id, w.estimate(job.id)).1 {
      events := [reserve];
      RunOne(w, s, reserve);
    } else {
      var held := Step(w, s, reserve);
      BeginStep(w, held, repo, job, rest);
      if T.Admits(s.tracker, s.ticks[repo].hostCap, job.id) {
        events := [reserve, begin];
      } else {
        events := [reserve, begin, undo];
        UndoStep(w, Step(w, held, begin), repo, job, rest);
      }
    }
  }

  lemma StartedIsBookkeeping(w: World, p: Progress, q: Progress, repo: string, hostCap: int, queue: seq<S.Job>)
    requires p.tracker == q.tracker && p.budget == q.budget
    ensures AttemptAll(w, p, repo, hostCap, queue).tracker == AttemptAll(w, q, repo, hostCap, queue).tracker
    ensures AttemptAll(w, p, repo, hostCap, queue).budget == AttemptAll(w, q, repo, hostCap, queue).budget
    decreases |queue|
  {
    if queue != [] {
      StartedIsBookkeeping(w, Attempt(w, p, repo, hostCap, queue[0]), Attempt(w, q, repo, hostCap, queue[0]),
                           repo, hostCap, queue[1..]);
    }
  }

  lemma {:induction false} QueueRuns(w: World, s: Sys, repo: string, queue: seq<S.Job>) returns (events: seq<Event>)
    requires Stands(s, repo, Dispatching(queue, []))
    ensures var r := Run(w, s, events);
            var p := AttemptAll(w, Progress(s.tracker, s.budget, []), repo, s.ticks[repo].hostCap, queue);
            && Stands(r, repo, Dispatching([], [])) && SamePass(s, r, repo)
            && r.tracker == p.tracker && r.budget == p.budget
    decreases |queue|
  {
    events := [];
    if queue != [] {
      var job, rest := queue[0], queue[1..];
      assert [job] + rest == queue;
      var first := AttemptRuns(w, s, repo, job, rest);
      var next := Run(w, s, first);
      var more := QueueRuns(w, next, repo, rest);
      events := first + more;
      RunAppend(w, s, first, more);
      StartedIsBookkeeping(w, Attempt(w, Progress(s.tracker, s.budget, []), repo, s.ticks[repo].hostCap, job),
                           Progress(next.tracker, next.budget, []), repo, s.ticks[repo].hostCap, rest);
    }
  }

  lemma OpenStep(w: World, s: Sys, repo: string, limit: int, globalLimit: int)
    requires limit > 0 && repo !in s.ticks && repo !in s.tracker.poolRuns
    ensures var r := Step(w, s, TickBarrier(repo, limit, globalLimit));
            && Stands(r, repo, Listing) && r.ticks.Keys == s.ticks.Keys + {repo} && r.pools == s.pools
            && r.ticks[repo].limit == limit && r.ticks[repo].hostCap == Max(globalLimit, limit)
            && r.tracker == s.tracker && r.budget == s.budget
  {
  }

  lemma ListStep(w: World, s: Sys, repo: string, ids: seq<string>)
    requires Stands(s, repo, Listing) && ValidQueue(w, repo, ids)
    ensures var r := Step(w, s, List(repo, ids));
            && Stands(r, repo, Filtering(JobsNamed(w, ids), [])) && SamePass(s, r, repo)
            && r.tracker == s.tracker && r.budget == s.budget
  {
  }

  /** Counting against the host total of that moment. */
  lemma CountStep(w: World, s: Sys, repo: string, kept: seq<S.Job>)
    requires Stands(s, repo, Filtering([], kept))
    ensures var hostCap := s.ticks[repo].hostCap;
            var slots := Slots(s.tracker, repo, s.ticks[repo].limit, hostCap);
            var r := Step(w, s, Count(repo, hostCap - T.Total(s.tracker.perRepo)));
            if slots <= 0 || kept == [] then r == LeaveTick(s, repo)
            else Stands(r, repo, Counted(kept, slots)) && SamePass(s, r, repo)
                 && r.tracker == s.tracker && r.budget == s.budget
  {
  }

  lemma SelectStep(w: World, s: Sys, repo: string, kept: seq<S.Job>, slots: int, around: S.Surroundings)
    requires Stands(s, repo, Counted(kept, slots))
    ensures var r := Step(w, s, Select(repo, around));
            && Stands(r, repo, Dispatching(Taken(s.tracker, kept, slots, around), [])) && SamePass(s, r, repo)
            && r.tracker == s.tracker && r.budget == s.budget
  {
  }

  lemma FinishStep(w: World, s: Sys, repo: string)
    requires Stands(s, repo, Dispatching([], []))
    ensures Step(w, s, Finish(false, repo)) == LeaveTick(s, repo)
  {
  }

  /** The queue, and the tick is over. */
  lemma QueueEnds(w: World, s: Sys, repo: string, queue: seq<S.Job>) returns (events: seq<Event>)
    requires Stands(s, repo, Dispatching(queue, []))
    ensures var r := Run(w, s, events);
            var p := AttemptAll(w, Progress(s.tracker, s.budget, []), repo, s.ticks[repo].hostCap, queue);
            && r.ticks.Keys == s.ticks.Keys - {repo} && r.pools == s.pools
            && r.tracker == p.tracker && r.budget == p.budget
  {
    var finish := Finish(false, repo);
    var attempts := QueueRuns(w, s, repo, queue);
    var done := Run(w, s, attempts);
    FinishStep(w, done, repo);
    RunOne(w, done, finish);
    RunAppend(w, s, attempts, [finish]);
    events := attempts + [finish];
  }

  lemma ChosenRuns(w: World, s: Sys, repo: string, kept: seq<S.Job>, slots: int, around: S.Surroundings)
      returns (events: seq<Event>)
    requires Stands(s, repo, Counted(kept, slots))
    ensures var r := Run(w, s, events);
            var p := AttemptAll(w, Progress(s.tracker, s.budget, []), repo, s.ticks[repo].hostCap,
                                Taken(s.tracker, kept, slots, around));
            && r.ticks.Keys == s.ticks.Keys - {repo} && r.pools == s.pools
            && r.tracker == p.tracker && r.budget == p.budget
  {
    var select := Select(repo, around);
    SelectStep(w, s, repo, kept, slots, around);
    RunOne(w, s, select);
    var rest := QueueEnds(w, Step(w, s, select), repo, Taken(s.tracker, kept, slots, around));
    events := [select] + rest;
    RunAppend(w, s, [select], rest);
  }

  /** From the count on. */
  lemma CountedRuns(w: World, s: Sys, repo: string, kept: seq<S.Job>, around: S.Surroundings)
      returns (events: seq<Event>)
    requires Stands(s, repo, Filtering([], kept))
    ensures var r := Run(w, s, events);
            var hostCap := s.ticks[repo].hostCap;
            var slots := Slots(s.tracker, repo, s.ticks[repo].limit, hostCap);
            var chosen := if slots <= 0 || kept == [] then []
                          else Taken(s.tracker, kept, slots, around);
            var p := AttemptAll(w, Progress(s.tracker, s.budget, []), repo, hostCap, chosen);
            && r.ticks.Keys == s.ticks.Keys - {repo} && r.pools == s.pools
            && r.tracker == p.tracker && r.budget == p.budget
  {
    var count := Count(repo, s.ticks[repo].hostCap - T.Total(s.tracker.perRepo));
    var slots := Slots(s.tracker, repo, s.ticks[repo].limit, s.ticks[repo].hostCap);
    CountStep(w, s, repo, kept);
    RunOne(w, s, count);
    var next := Step(w, s, count);
    if slots <= 0 || kept == [] {
      events := [count];
    } else {
      var rest := ChosenRuns(w, next, repo, kept, slots, around);
      events := [count] + rest;
      RunAppend(w, s, [count], rest);
    }
  }

  /** From the listing on. */
  lemma ListedRuns(w: World, s: Sys, repo: string, ids: seq<string>, around: S.Surroundings)
      returns (events: seq<Event>)
    requires Stands(s, repo, Listing) && ValidQueue(w, repo, ids)
    ensures var r := Run(w, s, events);
            var hostCap := s.ticks[repo].hostCap;
            var chosen := Chosen(s.tracker, repo, s.ticks[repo].limit, hostCap, JobsNamed(w, ids), around);
            var p := AttemptAll(w, Progress(s.tracker, s.budget, []), repo, hostCap, chosen);
            && r.ticks.Keys == s.ticks.Keys - {repo} && r.pools == s.pools
            && r.tracker == p.tracker && r.budget == p.budget
  {
    var list, pending := List(repo, ids), JobsNamed(w, ids);
    ListStep(w, s, repo, ids);
    RunOne(w, s, list);
    var next := Step(w, s, list);
    var filter := FilterRuns(w, next, repo, pending, []);
    assert [] + Eligible(s.tracker, pending) == Eligible(s.tracker, pending);
    var filtered := Run(w, next, filter);
    var rest := CountedRuns(w, filtered, repo, Eligible(s.tracker, pending), around);
    RunAppend(w, next, filter, rest);
    events := [list] + (filter + rest);
    RunAppend(w, s, [list], filter + rest);
  }

  /** A tick that no other step interrupts is a run of the state machine. */
  lemma TickIsARun(w: World, s: Sys, repo: string, limit: int, globalLimit: int,
                   listed: Option<seq<string>>, around: S.Surroundings) returns (events: seq<Event>)
    requires repo !in s.ticks
    requires listed.Some? ==> ValidQueue(w, repo, listed.value)
    ensures var r := Run(w, s, events);
            var pending := if listed.Some? then Some(JobsNamed(w, listed.value)) else None;
            var p := Ticked(w, Progress(s.tracker, s.budget, []), repo, limit, globalLimit, pending, around);
            && r.ticks.Keys == s.ticks.Keys && r.pools == s.pools
            && r.tracker == p.tracker && r.budget == p.budget
  {
    if limit <= 0 || repo in s.tracker.poolRuns {
      return [];
    }
    var enter := TickBarrier(repo, limit, globalLimit);
    OpenStep(w, s, repo, limit, globalLimit);
    RunOne(w, s, enter);
    var entered := Step(w, s, enter);
    if listed.None? {
      RunThree(w, s, enter, Abandon(repo), Drain);
      events := [enter, Abandon(repo)];
    } else {
      var rest := ListedRuns(w, entered, repo, listed.value, around);
      events := [enter] + rest;
      RunAppend(w, s, [enter], rest);
    }
  }

  // ---- and it starts every selected job that the budget has room for ------------------------------

  /** Reserving for one job after the other, and which of them are granted. */
  ghost function Granted(w: World, b: B.State, queue: seq<S.Job>): (B.State, seq<string>)
    decreases |queue|
  {
    if queue == [] then (b, [])
    else
      var (b', ok) := B.Reserve(b, queue[0].id, w.estimate(queue[0].id));
      var (last, ids) := Granted(w, b', queue[1..]);
      (last, if ok then [queue[0].id] + ids else ids)
  }

  /** Nothing in the queue is in flight or in it twice. */
  ghost predicate Fresh(t: T.State, queue: seq<S.Job>) {
    && (forall k | 0 <= k < |queue| :: queue[k].id !in t.jobs)
    && (forall i, j | 0 <= i < j < |queue| :: queue[i].id != queue[j].id)
  }

  /** With room on the host an attempt comes down to its reservation. */
  lemma AttemptWithRoom(w: World, p: Progress, repo: string, hostCap: int, job: S.Job)
    requires T.Accurate(p.tracker) && !p.tracker.draining && job.id !in p.tracker.jobs
    requires |p.tracker.jobs| < hostCap
    ensures var q, (budget, ok) := Attempt(w, p, repo, hostCap, job), B.Reserve(p.budget, job.id, w.estimate(job.id));
            && q.budget == budget && T.Accurate(q.tracker) && !q.tracker.draining
            && q.started == p.started + (if ok then [job.id] else [])
            && q.tracker.jobs.Keys == p.tracker.jobs.Keys + (if ok then {job.id} else {})
  {
    T.TotalIsJobs(p.tracker.perRepo, p.tracker.jobs);
    T.RegisterKeepsAccurate(p.tracker, job.id, T.Dispatch(repo, job.checkoutKey, job.runtimeKey));
  }

  lemma AtMostOneMore(a: set<string>, b: set<string>, id: string)
    requires b <= a + {id}
    ensures |b| <= |a| + 1
  {
    assert a + {id} == b + (a + {id} - b);
  }

  lemma StillFresh(t: T.State, t': T.State, job: S.Job, rest: seq<S.Job>)
    requires Fresh(t, [job] + rest) && t'.jobs.Keys <= t.jobs.Keys + {job.id}
    ensures Fresh(t', rest) && |t'.jobs| <= |t.jobs| + 1 && job.id !in t.jobs
  {
    var queue := [job] + rest;
    assert queue[0] == job;
    assert forall k | 0 <= k < |rest| :: rest[k] == queue[k + 1];
    AtMostOneMore(t.jobs.Keys, t'.jobs.Keys, job.id);
  }

  lemma Regroup(ids: seq<string>, ok: bool, id: string, more: seq<string>)
    ensures ids + (if ok then [id] else []) + more == ids + if ok then [id] + more else more
  {
  }

  /** While there is room for the queue on the host, no reservation is undone. */
  lemma {:induction false} GrantedStart(w: World, p: Progress, repo: string, hostCap: int, queue: seq<S.Job>)
    requires T.Accurate(p.tracker) && !p.tracker.draining && Fresh(p.tracker, queue)
    requires |p.tracker.jobs| + |queue| <= hostCap
    ensures var q, (budget, ids) := AttemptAll(w, p, repo, hostCap, queue), Granted(w, p.budget, queue);
            q.started == p.started + ids && q.budget == budget
    decreases |queue|
  {
    if queue == [] {
      assert p.started + [] == p.started;
    } else {
      var job, rest := queue[0], queue[1..];
      assert [job] + rest == queue;
      var next := Attempt(w, p, repo, hostCap, job);
      assert job.id !in p.tracker.jobs;
      AttemptWithRoom(w, p, repo, hostCap, job);
      StillFresh(p.tracker, next.tracker, job, rest);
      GrantedStart(w, next, repo, hostCap, rest);
      Regroup(p.started, B.Reserve(p.budget, job.id, w.estimate(job.id)).1, job.id, Granted(w, next.budget, rest).1);
    }
  }

  lemma {:induction false} EligibleAreFree(w: World, t: T.State, pending: seq<S.Job>)
    requires forall job | job in pending :: job == w.job(job.id)
    ensures forall job | job in Eligible(t, pending) :: job.id !in t.jobs && job == w.job(job.id)
    decreases |pending|
  {
    if pending != [] {
      assert pending[0] in pending;
      EligibleAreFree(w, t, pending[1..]);
    }
  }

  /** What a tick selects is fresh, and there is room for it on the host. */
  lemma ChosenAreFresh(w: World, t: T.State, repo: string, limit: int, hostCap: int, pending: seq<S.Job>,
                       around: S.Surroundings)
    requires T.Accurate(t) && forall job | job in pending :: job == w.job(job.id)
    ensures var chosen := Chosen(t, repo, limit, hostCap, pending, around);
            Fresh(t, chosen) && (chosen != [] ==> |t.jobs| + |chosen| <= hostCap)
  {
    var slots, eligible := Slots(t, repo, limit, hostCap), Eligible(t, pending);
    EligibleAreFree(w, t, pending);
    T.TotalIsJobs(t.perRepo, t.jobs);
    S.SelectionIsSafe(around, slots, eligible, t.checkouts.Keys, t.runtimes.Keys);
    S.SelectionPartitions(around, slots, eligible, t.checkouts.Keys, t.runtimes.Keys);
    var (chosen, left) := S.Select(around, slots, eligible, t.checkouts.Keys, t.runtimes.Keys);
    forall k | 0 <= k < |chosen|
      ensures chosen[k] in eligible
    {
      assert chosen[k] in multiset(chosen) && chosen[k] in multiset(eligible);
    }
  }

  /** A tick that no other step interrupts starts exactly the selected jobs that
      the budget grants, and the budget keeps what it granted. */
  lemma TickStartsTheGranted(w: World, p: Progress, repo: string, limit: int, globalLimit: int,
                             pending: seq<S.Job>, around: S.Surroundings)
    requires T.Accurate(p.tracker) && !p.tracker.draining && repo !in p.tracker.poolRuns && limit > 0
    requires forall job | job in pending :: job == w.job(job.id)
    ensures var q := Ticked(w, p, repo, limit, globalLimit, Some(pending), around);
            var chosen := Chosen(p.tracker, repo, limit, Max(globalLimit, limit), pending, around);
            var (budget, ids) := Granted(w, p.budget, chosen);
            q.started == p.started + ids && q.budget == budget
  {
    var hostCap := Max(globalLimit, limit);
    var chosen := Chosen(p.tracker, repo, limit, hostCap, pending, around);
    ChosenAreFresh(w, p.tracker, repo, limit, hostCap, pending, around);
    if chosen == [] {
      assert p.started + [] == p.started;
    } else {
      GrantedStart(w, p, repo, hostCap, chosen);
    }
  }

  /** Without an admission policy every selected job is granted. */
  lemma {:induction false} NoPolicyGrantsAll(w: World, queue: seq<S.Job>)
    ensures var (budget, ids) := Granted(w, B.Off, queue);
            && budget == B.Off && |ids| == |queue|
            && forall k | 0 <= k < |ids| :: ids[k] == queue[k].id
    decreases |queue|
  {
    if queue != [] {
      NoPolicyGrantsAll(w, queue[1..]);
    }
  }
}
