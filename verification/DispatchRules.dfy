/** A tick told by the jobs in flight and the rules of the selection: which jobs it
    selects, which of them it registers, and under what keys. */
module DispatchRules {
  import opened Basics
  import T = InflightTracker
  import B = AdmissionBudget
  import S = JobSelector
  import R = SelectionRules
  import opened Dispatcher
  import opened DispatchTick

  // ---- the tracker's counts, by the jobs in flight -------------------------------------

  ghost function RunningIn(t: T.State, repo: string): set<string> { set id | id in t.jobs && t.jobs[id].repo == repo }

  ghost function HeldCheckouts(t: T.State): set<string> {
    set id | id in t.jobs && t.jobs[id].checkoutKey != "" :: t.jobs[id].checkoutKey
  }

  ghost function HeldRuntimes(t: T.State): set<string> {
    set id | id in t.jobs && t.jobs[id].runtimeKey != "" :: t.jobs[id].runtimeKey
  }

  lemma CheckoutsAreHeld(t: T.State)
    requires T.Counts(t.checkouts, t.jobs, T.Checkout, false)
    ensures t.checkouts.Keys == HeldCheckouts(t)
  {
    forall key
      ensures key in t.checkouts <==> key in HeldCheckouts(t)
    {
      var h := T.Holders(t.jobs, T.Checkout, key);
      if key in t.checkouts {
        var id :| id in h;
        assert t.jobs[id].checkoutKey == key;
      }
      if key in HeldCheckouts(t) {
        var id :| id in t.jobs && t.jobs[id].checkoutKey != "" && t.jobs[id].checkoutKey == key;
        assert id in h;
      }
    }
  }

  lemma RuntimesAreHeld(t: T.State)
    requires T.Counts(t.runtimes, t.jobs, T.Runtime, false)
    ensures t.runtimes.Keys == HeldRuntimes(t)
  {
    forall key
      ensures key in t.runtimes <==> key in HeldRuntimes(t)
    {
      var h := T.Holders(t.jobs, T.Runtime, key);
      if key in t.runtimes {
        var id :| id in h;
        assert t.jobs[id].runtimeKey == key;
      }
      if key in HeldRuntimes(t) {
        var id :| id in t.jobs && t.jobs[id].runtimeKey != "" && t.jobs[id].runtimeKey == key;
        assert id in h;
      }
    }
  }

  function Least(a: int, b: int): int { if a < b then a else b }

  lemma SlotsAreFree(t: T.State, repo: string, limit: int, hostCap: int)
    requires T.Accurate(t)
    ensures Slots(t, repo, limit, hostCap) == Least(limit - |RunningIn(t, repo)|, hostCap - |t.jobs|)
  {
    T.TotalIsJobs(t.perRepo, t.jobs);
    assert T.Holders(t.jobs, T.Repo, repo) == RunningIn(t, repo);
  }

  // ---- the selection of a tick --------------------------------------------------------------

  /** Which pending jobs are not in flight. */
  ghost predicate MarksIdle(t: T.State, pending: seq<S.Job>, idle: seq<bool>) {
    |idle| == |pending| && forall k | 0 <= k < |pending| :: idle[k] <==> pending[k].id !in t.jobs
  }

  lemma {:induction false} EligibleSnoc(t: T.State, a: seq<S.Job>, job: S.Job)
    ensures Eligible(t, a + [job]) == Eligible(t, a) + if job.id in t.jobs then [] else [job]
    decreases |a|
  {
    if a == [] {
      assert a + [job] == [job] && [job][1..] == [];
    } else {
      assert (a + [job])[0] == a[0] && (a + [job])[1..] == a[1..] + [job];
      EligibleSnoc(t, a[1..], job);
    }
  }

  lemma {:induction false} EligibleIsPicked(t: T.State, pending: seq<S.Job>, idle: seq<bool>, k: nat)
    requires MarksIdle(t, pending, idle) && k <= |pending|
    ensures Eligible(t, pending[..k]) == R.Picked(pending, idle, true, k)
    decreases k
  {
    if k > 0 {
      EligibleIsPicked(t, pending, idle, k - 1);
      assert pending[..k] == pending[..k - 1] + [pending[k - 1]];
      EligibleSnoc(t, pending[..k - 1], pending[k - 1]);
    }
  }

  /** The slots that the running jobs leave, of the repository's and of the host's. */
  ghost function Free(t: T.State, repo: string, limit: int, globalLimit: int): int {
    Least(limit - |RunningIn(t, repo)|, Max(globalLimit, limit) - |t.jobs|)
  }

  lemma ChosenOf(t: T.State, repo: string, limit: int, hostCap: int, pending: seq<S.Job>, around: S.Surroundings,
                 free: int, checkouts: set<string>, runtimes: set<string>)
    requires Slots(t, repo, limit, hostCap) == free && t.checkouts.Keys == checkouts && t.runtimes.Keys == runtimes
    ensures Chosen(t, repo, limit, hostCap, pending, around)
         == if free <= 0 || Eligible(t, pending) == [] then []
            else S.Select(around, free, Eligible(t, pending), checkouts, runtimes).0
  {
  }

  lemma ChosenIs(t: T.State, repo: string, limit: int, globalLimit: int, pending: seq<S.Job>,
                 around: S.Surroundings)
    requires T.Accurate(t)
    ensures var free, waiting := Free(t, repo, limit, globalLimit), Eligible(t, pending);
            Chosen(t, repo, limit, Max(globalLimit, limit), pending, around) ==
            if free <= 0 || waiting == [] then []
            else S.Select(around, free, waiting, HeldCheckouts(t), HeldRuntimes(t)).0
  {
    CheckoutsAreHeld(t);
    RuntimesAreHeld(t);
    SlotsAreFree(t, repo, limit, Max(globalLimit, limit));
    ChosenOf(t, repo, limit, Max(globalLimit, limit), pending, around, Free(t, repo, limit, globalLimit),
             HeldCheckouts(t), HeldRuntimes(t));
  }

  lemma IdleAreEligible(t: T.State, pending: seq<S.Job>) returns (idle: seq<bool>)
    ensures MarksIdle(t, pending, idle) && Eligible(t, pending) == R.Picked(pending, idle, true, |pending|)
  {
    idle := seq(|pending|, k requires 0 <= k < |pending| => pending[k].id !in t.jobs);
    EligibleIsPicked(t, pending, idle, |pending|);
    assert pending[..|pending|] == pending;
  }

  lemma SelectedArePicked(around: S.Surroundings, free: int, waiting: seq<S.Job>, checkouts: set<string>,
                          runtimes: set<string>) returns (took: seq<bool>, booked: seq<bool>)
    ensures |took| == |booked| == |waiting|
    ensures R.AllRuled(around, free, waiting, checkouts, runtimes, took, booked)
    ensures (if free <= 0 || waiting == [] then [] else S.Select(around, free, waiting, checkouts, runtimes).0)
         == if free <= 0 then [] else R.Picked(waiting, took, true, |waiting|)
  {
    took, booked := R.SelectionIsRuled(around, free, waiting, checkouts, runtimes);
  }

  /** Out of the pending jobs that are not in flight the tick selects what the rules of
      the selection take: with as many free slots as the repository's limit leaves
      beside its running jobs and the host's cap beside all running jobs, and with the
      keys held by the running jobs taken. With no free slot it selects nothing. */
  lemma TickIsRuled(t: T.State, repo: string, limit: int, globalLimit: int, pending: seq<S.Job>,
                    around: S.Surroundings)
      returns (idle: seq<bool>, waiting: seq<S.Job>, took: seq<bool>, booked: seq<bool>)
    requires T.Accurate(t)
    ensures MarksIdle(t, pending, idle) && waiting == R.Picked(pending, idle, true, |pending|)
    ensures |took| == |booked| == |waiting|
    ensures R.AllRuled(around, Free(t, repo, limit, globalLimit), waiting, HeldCheckouts(t), HeldRuntimes(t), took,
                       booked)
    ensures Chosen(t, repo, limit, Max(globalLimit, limit), pending, around)
         == if Free(t, repo, limit, globalLimit) <= 0 then [] else R.Picked(waiting, took, true, |waiting|)
  {
    idle := IdleAreEligible(t, pending);
    waiting := Eligible(t, pending);
    ChosenIs(t, repo, limit, globalLimit, pending, around);
    took, booked := SelectedArePicked(around, Free(t, repo, limit, globalLimit), waiting, HeldCheckouts(t),
                                      HeldRuntimes(t));
  }

  // ---- what a tick registers ---------------------------------------------------------------------

  predicate Names(queue: seq<S.Job>, id: string, d: T.Dispatch, repo: string) {
    exists job :: job in queue && job.id == id && d == T.Dispatch(repo, job.checkoutKey, job.runtimeKey)
  }

  /** From p to q these jobs were started: each is registered, for the repository and
      under the two keys of a job of the queue, and nothing else changed. */
  ghost predicate Filed(p: Progress, q: Progress, repo: string, queue: seq<S.Job>, more: seq<string>) {
    && q.started == p.started + more
    && (forall id :: id in q.tracker.jobs <==> id in p.tracker.jobs || id in more)
    && (forall id | id in p.tracker.jobs :: id !in more && q.tracker.jobs[id] == p.tracker.jobs[id])
    && (forall id | id in more :: id in q.tracker.jobs && Names(queue, id, q.tracker.jobs[id], repo))
  }

  lemma AttemptIsFiled(w: World, p: Progress, repo: string, hostCap: int, job: S.Job) returns (more: seq<string>)
    ensures Filed(p, Attempt(w, p, repo, hostCap, job), repo, [job], more)
  {
    var (budget, ok) := B.Reserve(p.budget, job.id, w.estimate(job.id));
    more := if ok && T.Admits(p.tracker, hostCap, job.id) then [job.id] else [];
    assert job in [job];
    assert p.started + [] == p.started;
  }

  lemma FiledThenFiled(p: Progress, q: Progress, r: Progress, repo: string, job: S.Job, rest: seq<S.Job>,
                       a: seq<string>, b: seq<string>)
    requires Filed(p, q, repo, [job], a) && Filed(q, r, repo, rest, b)
    ensures Filed(p, r, repo, [job] + rest, a + b)
  {
    forall id | id in a + b
      ensures Names([job] + rest, id, r.tracker.jobs[id], repo)
    {
      if id in a {
        assert Names([job], id, r.tracker.jobs[id], repo);
      } else {
        assert Names(rest, id, r.tracker.jobs[id], repo);
      }
    }
    assert p.started + a + b == p.started + (a + b);
  }

  /** The jobs that a tick reports as started are those it registers. */
  lemma {:induction false} StartedAreFiled(w: World, p: Progress, repo: string, hostCap: int, queue: seq<S.Job>)
      returns (more: seq<string>)
    ensures Filed(p, AttemptAll(w, p, repo, hostCap, queue), repo, queue, more)
    decreases |queue|
  {
    more := [];
    if queue == [] {
      assert p.started + [] == p.started;
    } else {
      var p' := Attempt(w, p, repo, hostCap, queue[0]);
      var first := AttemptIsFiled(w, p, repo, hostCap, queue[0]);
      var rest := StartedAreFiled(w, p', repo, hostCap, queue[1..]);
      assert queue == [queue[0]] + queue[1..];
      FiledThenFiled(p, p', AttemptAll(w, p', repo, hostCap, queue[1..]), repo, queue[0], queue[1..], first, rest);
      more := first + rest;
    }
  }
}
