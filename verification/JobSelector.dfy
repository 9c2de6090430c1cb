/** Which queued jobs a dispatch pass may start: at most so many, no two on one
    checkout, none on a checkout that is already held. */
module JobSelector {

  datatype Job = Job(id: string, repo: string, checkoutKey: string, runtimeKey: string)

  /** What the selector asks the store and the session policy: which runtime
      session locks are held, which jobs may borrow a temporary worker, and how
      many more of them each worker type allows. */
  datatype Surroundings = Surroundings(
    locked: string -> bool,
    eligible: string -> bool,
    workerType: string -> string,
    spare: string -> int)

  /** The selector's maps: keys taken so far and temporary workers promised. */
  datatype Selector = Selector(checkouts: set<string>, runtimes: set<string>, promised: map<string, int>)

  function Promised(s: Selector, typ: string): int {
    if typ in s.promised then s.promised[typ] else 0
  }

  /** `canUseTempWorker`, which also books the worker. */
  function BookWorker(w: Surroundings, s: Selector, job: Job): (Selector, bool) {
    var typ := w.workerType(job.id);
    if Promised(s, typ) >= w.spare(typ) || !w.eligible(job.id) then (s, false)
    else (s.(promised := s.promised[typ := Promised(s, typ) + 1]), true)
  }

  /** `selects`, for a job met when `selected` jobs are already taken. */
  function Selects(w: Surroundings, s: Selector, limit: int, job: Job, selected: nat): (Selector, bool) {
    if selected >= limit || job.checkoutKey in s.checkouts then (s, false)
    else
      var taken := job.runtimeKey != "" && job.runtimeKey in s.runtimes;
      var held := job.runtimeKey != "" && !taken && w.locked(job.runtimeKey);
      var (s', booked) := if taken || held then BookWorker(w, s, job) else (s, true);
      if taken && !booked then (s', false)
      else
        (s'.(checkouts := s'.checkouts + {job.checkoutKey},
             runtimes := if job.runtimeKey == "" then s'.runtimes else s'.runtimes + {job.runtimeKey}), true)
  }

  /** The jobs taken and the jobs left, from the k-th pending job on. */
  function SelectFrom(w: Surroundings, s: Selector, limit: int, pending: seq<Job>, selected: nat): (seq<Job>, seq<Job>)
    decreases |pending|
  {
    if pending == [] then ([], [])
    else
      var (s', yes) := Selects(w, s, limit, pending[0], selected);
      var (queued, remaining) := SelectFrom(w, s', limit, pending[1..], if yes then selected + 1 else selected);
      if yes then ([pending[0]] + queued, remaining) else (queued, [pending[0]] + remaining)
  }

  function Select(w: Surroundings, limit: int, pending: seq<Job>, seedCheckouts: set<string>,
                  seedRuntimes: set<string>): (seq<Job>, seq<Job>) {
    if limit <= 0 then ([], pending)
    else SelectFrom(w, Selector(seedCheckouts, seedRuntimes, map[]), limit, pending, 0)
  }

  /** `selectRunnableQueuedJobsSeeded`. */
  method SelectRunnable(w: Surroundings, limit: int, pending: seq<Job>, seedCheckouts: set<string>,
                        seedRuntimes: set<string>)
    returns (queued: seq<Job>, remaining: seq<Job>)
    ensures (queued, remaining) == Select(w, limit, pending, seedCheckouts, seedRuntimes)
  {
    if limit <= 0 {
      return [], pending;
    }
    var s := Selector(seedCheckouts, seedRuntimes, map[]);
    queued, remaining := [], [];
    ghost var whole := Select(w, limit, pending, seedCheckouts, seedRuntimes);
    for k := 0 to |pending|
      invariant var (q, r) := SelectFrom(w, s, limit, pending[k..], |queued|);
                queued + q == whole.0 && remaining + r == whole.1
    {
      var (s', yes) := Selects(w, s, limit, pending[k], |queued|);
      assert pending[k..][1..] == pending[k + 1..];
      if yes {
        queued := queued + [pending[k]];
      } else {
        remaining := remaining + [pending[k]];
      }
      s := s';
    }
    assert queued + [] == queued && remaining + [] == remaining;
  }

  // ---- what a selection guarantees -------------------------------------------

  ghost predicate DistinctCheckouts(jobs: seq<Job>) {
    forall i, j | 0 <= i < j < |jobs| :: jobs[i].checkoutKey != jobs[j].checkoutKey
  }

  ghost predicate Avoids(jobs: seq<Job>, keys: set<string>) {
    forall job | job in jobs :: job.checkoutKey !in keys
  }

  lemma {:induction false} SelectFromIsSafe(w: Surroundings, s: Selector, limit: int, pending: seq<Job>, selected: nat)
    requires selected <= limit
    ensures var (queued, remaining) := SelectFrom(w, s, limit, pending, selected);
            && selected + |queued| <= limit
            && DistinctCheckouts(queued) && Avoids(queued, s.checkouts)
    decreases |pending|
  {
    if pending != [] {
      var (s', yes) := Selects(w, s, limit, pending[0], selected);
      SelectFromIsSafe(w, s', limit, pending[1..], if yes then selected + 1 else selected);
    }
  }

  /** At most `limit` jobs, no two on one checkout key, none on a seeded one. */
  lemma SelectionIsSafe(w: Surroundings, limit: int, pending: seq<Job>, seedCheckouts: set<string>,
                        seedRuntimes: set<string>)
    ensures var (queued, remaining) := Select(w, limit, pending, seedCheckouts, seedRuntimes);
            && (queued != [] ==> |queued| <= limit)
            && DistinctCheckouts(queued) && Avoids(queued, seedCheckouts)
  {
    if limit > 0 {
      SelectFromIsSafe(w, Selector(seedCheckouts, seedRuntimes, map[]), limit, pending, 0);
    }
  }

  lemma {:induction false} SelectFromPartitions(w: Surroundings, s: Selector, limit: int, pending: seq<Job>,
                                                selected: nat)
    ensures var (queued, remaining) := SelectFrom(w, s, limit, pending, selected);
            multiset(queued) + multiset(remaining) == multiset(pending)
    decreases |pending|
  {
    if pending != [] {
      var (s', yes) := Selects(w, s, limit, pending[0], selected);
      SelectFromPartitions(w, s', limit, pending[1..], if yes then selected + 1 else selected);
      assert pending == [pending[0]] + pending[1..];
    }
  }

  /** No pending job is lost or taken twice. */
  lemma SelectionPartitions(w: Surroundings, limit: int, pending: seq<Job>, seedCheckouts: set<string>,
                            seedRuntimes: set<string>)
    ensures var (queued, remaining) := Select(w, limit, pending, seedCheckouts, seedRuntimes);
            multiset(queued) + multiset(remaining) == multiset(pending)
  {
    if limit > 0 {
      SelectFromPartitions(w, Selector(seedCheckouts, seedRuntimes, map[]), limit, pending, 0);
    }
  }

  /** The runtime-session rule: `extra` jobs of a worker type were taken on a
      session that was already taken, each on a temporary worker of that type. */
  function Shared(w: Surroundings, jobs: seq<Job>, runtimes: set<string>, typ: string): nat {
    if jobs == [] then 0
    else
      var job := jobs[0];
      (if job.runtimeKey != "" && job.runtimeKey in runtimes && w.workerType(job.id) == typ then 1 else 0) +
      Shared(w, jobs[1..], if job.runtimeKey == "" then runtimes else runtimes + {job.runtimeKey}, typ)
  }

  lemma {:induction false} SelectFromShares(w: Surroundings, s: Selector, limit: int, pending: seq<Job>,
                                            selected: nat, typ: string)
    requires Promised(s, typ) >= 0
    ensures var (queued, remaining) := SelectFrom(w, s, limit, pending, selected);
            var n := Shared(w, queued, s.runtimes, typ);
            n > 0 ==> Promised(s, typ) + n <= w.spare(typ)
    decreases |pending|
  {
    if pending != [] {
      var (s', yes) := Selects(w, s, limit, pending[0], selected);
      SelectFromShares(w, s', limit, pending[1..], if yes then selected + 1 else selected, typ);
    }
  }

  /** Jobs sharing a runtime session with an earlier job or a seed never
      outnumber the temporary workers their type has to spare. */
  lemma SharedSessionsAreBacked(w: Surroundings, limit: int, pending: seq<Job>, seedCheckouts: set<string>,
                                seedRuntimes: set<string>, typ: string)
    ensures var (queued, remaining) := Select(w, limit, pending, seedCheckouts, seedRuntimes);
            var n := Shared(w, queued, seedRuntimes, typ);
            n > 0 ==> n <= w.spare(typ)
  {
    if limit > 0 {
      SelectFromShares(w, Selector(seedCheckouts, seedRuntimes, map[]), limit, pending, 0, typ);
    }
  }

  ghost predicate SharesKey(jobs: seq<Job>, job: Job) {
    exists q | q in jobs ::
      q.checkoutKey == job.checkoutKey || (q.runtimeKey == job.runtimeKey && job.runtimeKey != "")
  }

  lemma {:induction false} SelectFromIsMaximal(w: Surroundings, s: Selector, limit: int, pending: seq<Job>,
                                               selected: nat, job: Job)
    requires job in SelectFrom(w, s, limit, pending, selected).1
    ensures var queued := SelectFrom(w, s, limit, pending, selected).0;
            || selected + |queued| >= limit
            || job.checkoutKey in s.checkouts || job.runtimeKey in s.runtimes
            || SharesKey(queued, job)
    decreases |pending|
  {
    var (s', yes) := Selects(w, s, limit, pending[0], selected);
    var n := if yes then selected + 1 else selected;
    var (queued, remaining) := SelectFrom(w, s', limit, pending[1..], n);
    if yes || job in remaining {
      SelectFromIsMaximal(w, s', limit, pending[1..], n, job);
      if SharesKey(queued, job) {
        var q :| q in queued
                 && (q.checkoutKey == job.checkoutKey || (q.runtimeKey == job.runtimeKey && job.runtimeKey != ""));
        assert q in SelectFrom(w, s, limit, pending, selected).0;
      }
      if yes {
        assert pending[0] in SelectFrom(w, s, limit, pending, selected).0;
      }
    }
  }

  /** A job is passed over only for a full pass, a seeded key, or a key it shares
      with a job that was taken. */
  lemma SelectionIsMaximal(w: Surroundings, limit: int, pending: seq<Job>, seedCheckouts: set<string>,
                           seedRuntimes: set<string>, job: Job)
    requires limit > 0
    requires job in Select(w, limit, pending, seedCheckouts, seedRuntimes).1
    ensures var queued := Select(w, limit, pending, seedCheckouts, seedRuntimes).0;
            || |queued| >= limit
            || job.checkoutKey in seedCheckouts || job.runtimeKey in seedRuntimes
            || SharesKey(queued, job)
  {
    SelectFromIsMaximal(w, Selector(seedCheckouts, seedRuntimes, map[]), limit, pending, 0, job);
  }
}
