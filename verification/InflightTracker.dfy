/** The daemon's in-flight job tracker: which dispatched jobs are running, which
    checkout and runtime keys they hold, how many run per repository, and which
    repositories have a live pool pass. */
module InflightTracker {

  datatype Dispatch = Dispatch(repo: string, checkoutKey: string, runtimeKey: string)

  /** The three ways jobs are counted. */
  datatype Field = Checkout | Runtime | Repo

  function KeyOf(d: Dispatch, field: Field): string {
    match field
    case Checkout => d.checkoutKey
    case Runtime => d.runtimeKey
    case Repo => d.repo
  }

  datatype State = State(
    jobs: map<string, Dispatch>,
    checkouts: map<string, int>,
    runtimes: map<string, int>,
    perRepo: map<string, int>,
    poolRuns: set<string>,
    draining: bool,
    waiting: int)

  const EMPTY := State(map[], map[], map[], map[], {}, false, 0)

  function Count(m: map<string, int>, key: string): int {
    if key in m then m[key] else 0
  }

  function Increment(m: map<string, int>, key: string): map<string, int> {
    m[key := Count(m, key) + 1]
  }

  /** `decrementCount`. */
  function Decrement(m: map<string, int>, key: string): map<string, int> {
    if key == "" then m
    else if Count(m, key) <= 1 then m - {key}
    else m[key := m[key] - 1]
  }

  /** The number of in-flight jobs a counter map adds up to. */
  ghost function Total(m: map<string, int>): int
    decreases |m|
  {
    if m == map[] then 0
    else
      var key :| key in m;
      m[key] + Total(m - {key})
  }

  lemma {:induction false} TotalRemove(m: map<string, int>, key: string)
    requires key in m
    ensures Total(m) == m[key] + Total(m - {key})
    decreases |m|
  {
    var k :| k in m && Total(m) == m[k] + Total(m - {k});
    if k != key {
      TotalRemove(m - {k}, key);
      TotalRemove(m - {key}, k);
      assert m - {k} - {key} == m - {key} - {k};
    }
  }

  // ---- the locked methods as state changes ----------------------------------

  ghost predicate Admits(s: State, hostCap: int, id: string) {
    !s.draining && id !in s.jobs && (hostCap > 0 ==> Total(s.perRepo) < hostCap)
  }

  function Register(s: State, id: string, d: Dispatch): State {
    s.(jobs := s.jobs[id := d],
       checkouts := if d.checkoutKey == "" then s.checkouts else Increment(s.checkouts, d.checkoutKey),
       runtimes := if d.runtimeKey == "" then s.runtimes else Increment(s.runtimes, d.runtimeKey),
       perRepo := Increment(s.perRepo, d.repo),
       waiting := s.waiting + 1)
  }

  function End(s: State, id: string): State {
    if id !in s.jobs then s
    else
      var d := s.jobs[id];
      s.(jobs := s.jobs - {id},
         checkouts := Decrement(s.checkouts, d.checkoutKey),
         runtimes := Decrement(s.runtimes, d.runtimeKey),
         perRepo := Decrement(s.perRepo, d.repo),
         waiting := s.waiting - 1)
  }

  predicate AdmitsPool(s: State, repo: string) {
    !s.draining && repo !in s.poolRuns && Count(s.perRepo, repo) <= 0
  }

  function RegisterPool(s: State, repo: string): State {
    s.(poolRuns := s.poolRuns + {repo}, waiting := s.waiting + 1)
  }

  function EndPool(s: State, repo: string): State {
    if repo !in s.poolRuns then s
    else s.(poolRuns := s.poolRuns - {repo}, waiting := s.waiting - 1)
  }

  // ---- what the counters mean -----------------------------------------------

  ghost function Holders(jobs: map<string, Dispatch>, field: Field, key: string): set<string> {
    set id | id in jobs && KeyOf(jobs[id], field) == key
  }

  /** A counter map is exactly the non-zero cardinalities of the holder sets,
      over the keys that are counted. */
  ghost predicate Counts(m: map<string, int>, jobs: map<string, Dispatch>, field: Field, countsBlank: bool) {
    forall key ::
      && (key in m <==> Holders(jobs, field, key) != {} && (key != "" || countsBlank))
      && (key in m ==> m[key] == |Holders(jobs, field, key)|)
  }

  /** `checkouts`, `runtimes` and `perRepo` are the per-key cardinalities of the
      in-flight jobs and the wait group counts jobs and pool passes. */
  ghost predicate Accurate(s: State) {
    && Counts(s.checkouts, s.jobs, Checkout, false)
    && Counts(s.runtimes, s.jobs, Runtime, false)
    && Counts(s.perRepo, s.jobs, Repo, true)
    && s.waiting == |s.jobs| + |s.poolRuns|
  }

  lemma HoldersAdd(jobs: map<string, Dispatch>, field: Field, id: string, d: Dispatch, key: string)
    requires id !in jobs
    ensures Holders(jobs[id := d], field, key) ==
            Holders(jobs, field, key) + (if key == KeyOf(d, field) then {id} else {})
    ensures |Holders(jobs[id := d], field, key)| ==
            |Holders(jobs, field, key)| + (if key == KeyOf(d, field) then 1 else 0)
  {
    var h := Holders(jobs, field, key);
    if key == KeyOf(d, field) {
      assert Holders(jobs[id := d], field, key) == h + {id};
    } else {
      assert Holders(jobs[id := d], field, key) == h;
    }
  }

  lemma HoldersRemove(jobs: map<string, Dispatch>, field: Field, id: string)
    requires id in jobs
    ensures forall key :: Holders(jobs - {id}, field, key) == Holders(jobs, field, key) - {id}
    ensures forall key :: id in Holders(jobs, field, key) <==> key == KeyOf(jobs[id], field)
  {
  }

  lemma CountsAfterIncrement(m: map<string, int>, jobs: map<string, Dispatch>, field: Field, countsBlank: bool,
                             id: string, d: Dispatch)
    requires Counts(m, jobs, field, countsBlank) && id !in jobs
    ensures Counts(if KeyOf(d, field) == "" && !countsBlank then m else Increment(m, KeyOf(d, field)),
                   jobs[id := d], field, countsBlank)
  {
    var k := KeyOf(d, field);
    var jobs', m' := jobs[id := d], if k == "" && !countsBlank then m else Increment(m, k);
    forall key
      ensures key in m' <==> Holders(jobs', field, key) != {} && (key != "" || countsBlank)
      ensures key in m' ==> m'[key] == |Holders(jobs', field, key)|
    {
      HoldersAdd(jobs, field, id, d, key);
    }
  }

  lemma CountsAfterDecrement(m: map<string, int>, jobs: map<string, Dispatch>, field: Field, countsBlank: bool,
                             id: string)
    requires Counts(m, jobs, field, countsBlank) && id in jobs
    requires KeyOf(jobs[id], field) != "" || !countsBlank
    ensures Counts(Decrement(m, KeyOf(jobs[id], field)), jobs - {id}, field, countsBlank)
  {
    HoldersRemove(jobs, field, id);
    var k := KeyOf(jobs[id], field);
    var h := Holders(jobs, field, k);
    assert id in h;
    assert |h - {id}| == |h| - 1;
    assert h - {id} == {} <==> |h| == 1;
  }

  lemma RegisterKeepsAccurate(s: State, id: string, d: Dispatch)
    requires Accurate(s) && id !in s.jobs
    ensures Accurate(Register(s, id, d))
  {
    CountsAfterIncrement(s.checkouts, s.jobs, Checkout, false, id, d);
    CountsAfterIncrement(s.runtimes, s.jobs, Runtime, false, id, d);
    CountsAfterIncrement(s.perRepo, s.jobs, Repo, true, id, d);
  }

  /** Ending a job keeps the counters exact precisely when the job was filed
      under a repository name: the blank name is counted in but never out. */
  lemma EndKeepsAccurateIff(s: State, id: string)
    requires Accurate(s)
    ensures Accurate(End(s, id)) <==> (id in s.jobs ==> s.jobs[id].repo != "")
  {
    if id in s.jobs {
      var d := s.jobs[id];
      CountsAfterDecrement(s.checkouts, s.jobs, Checkout, false, id);
      CountsAfterDecrement(s.runtimes, s.jobs, Runtime, false, id);
      if d.repo != "" {
        CountsAfterDecrement(s.perRepo, s.jobs, Repo, true, id);
      } else {
        HoldersRemove(s.jobs, Repo, id);
        var h := Holders(s.jobs, Repo, "");
        assert "" in s.perRepo && s.perRepo[""] == |h|;
        assert |h - {id}| == |h| - 1;
      }
    }
  }

  lemma PoolKeepsAccurate(s: State, repo: string)
    requires Accurate(s)
    ensures repo !in s.poolRuns ==> Accurate(RegisterPool(s, repo))
    ensures Accurate(EndPool(s, repo))
  {
  }

  /** `end` is idempotent. */
  lemma EndTwice(s: State, id: string)
    ensures End(End(s, id), id) == End(s, id)
  {
  }

  /** Beginning and then ending a job leaves no trace, given a repository name. */
  lemma EndUndoesRegister(s: State, id: string, d: Dispatch)
    requires Accurate(s) && id !in s.jobs && d.repo != ""
    ensures End(Register(s, id, d), id) == s
  {
    assert s.jobs[id := d] - {id} == s.jobs;
    Undone(s.checkouts, d.checkoutKey, s.jobs, Checkout, false);
    Undone(s.runtimes, d.runtimeKey, s.jobs, Runtime, false);
    Undone(s.perRepo, d.repo, s.jobs, Repo, true);
  }

  lemma Undone(m: map<string, int>, key: string, jobs: map<string, Dispatch>, field: Field, countsBlank: bool)
    requires Counts(m, jobs, field, countsBlank)
    ensures key != "" ==> Decrement(Increment(m, key), key) == m
  {
    if key != "" {
      if key in m {
        assert |Holders(jobs, field, key)| > 0;
        assert Decrement(Increment(m, key), key) == m;
      } else {
        assert Increment(m, key) - {key} == m;
      }
    }
  }

  /** The host-wide count the admission check adds up is the number of jobs. */
  lemma {:induction false} TotalIsJobs(m: map<string, int>, jobs: map<string, Dispatch>)
    requires Counts(m, jobs, Repo, true)
    ensures Total(m) == |jobs|
    decreases |m|
  {
    if m == map[] {
      assert forall id | id in jobs :: id in Holders(jobs, Repo, jobs[id].repo);
      assert jobs == map[];
    } else {
      var key :| key in m;
      var h := Holders(jobs, Repo, key);
      var rest := jobs - h;
      assert Counts(m - {key}, rest, Repo, true) by {
        forall k
          ensures Holders(rest, Repo, k) == if k == key then {} else Holders(jobs, Repo, k)
        {
        }
      }
      TotalIsJobs(m - {key}, rest);
      TotalRemove(m, key);
      assert jobs.Keys == rest.Keys + h;
      assert |jobs.Keys| == |rest.Keys| + |h|;
    }
  }

  /** The host cap holds right after every admission it was checked for. */
  lemma AdmissionRespectsCap(s: State, hostCap: int, id: string, d: Dispatch)
    requires Accurate(s) && hostCap > 0
    ensures Admits(s, hostCap, id) ==> |Register(s, id, d).jobs| <= hostCap
  {
    TotalIsJobs(s.perRepo, s.jobs);
  }

  /** A job is admitted unless the tracker drains, knows it already, or holds as many
      jobs as a positive cap allows. */
  lemma AdmittedIff(s: State, hostCap: int, id: string)
    requires Accurate(s)
    ensures Admits(s, hostCap, id) <==> !s.draining && id !in s.jobs && (hostCap <= 0 || |s.jobs| < hostCap)
  {
    TotalIsJobs(s.perRepo, s.jobs);
  }

  /** A pool pass is admitted only for a repository with nothing in flight. */
  lemma PoolStartsIdle(s: State, repo: string)
    requires Accurate(s)
    ensures AdmitsPool(s, repo) <==>
            !s.draining && repo !in s.poolRuns && forall id | id in s.jobs :: s.jobs[id].repo != repo
  {
    var h := Holders(s.jobs, Repo, repo);
    if h != {} {
      var id :| id in h;
      assert |h| > 0;
    } else {
      forall id | id in s.jobs
        ensures s.jobs[id].repo != repo
      {
        assert id !in h;
      }
    }
  }

  // ---- the tracker object ---------------------------------------------------

  class Tracker {
    var jobs: map<string, Dispatch>
    var checkouts: map<string, int>
    var runtimes: map<string, int>
    var perRepo: map<string, int>
    var poolRuns: set<string>
    var draining: bool
    var waiting: int

    ghost function Abstract(): State
      reads this
    {
      State(jobs, checkouts, runtimes, perRepo, poolRuns, draining, waiting)
    }

    constructor ()
      ensures Abstract() == EMPTY && Accurate(Abstract())
    {
      jobs, checkouts, runtimes, perRepo := map[], map[], map[], map[];
      poolRuns, draining, waiting := {}, false, 0;
    }

    /** `total`: the loop over `perRepo`, in any order. */
    method HostTotal() returns (n: int)
      ensures n == Total(perRepo)
    {
      n := 0;
      var rest := perRepo;
      while rest != map[]
        invariant n + Total(rest) == Total(perRepo)
        decreases |rest|
      {
        var key :| key in rest;
        TotalRemove(rest, key);
        n := n + rest[key];
        rest := rest - {key};
      }
    }

    /** `beginWithin`. */
    method BeginWithin(hostCap: int, id: string, d: Dispatch) returns (ok: bool)
      modifies this
      ensures ok == old(Admits(Abstract(), hostCap, id))
      ensures Abstract() == if ok then Register(old(Abstract()), id, d) else old(Abstract())
      ensures old(Accurate(Abstract())) ==> Accurate(Abstract())
    {
      if draining {
        return false;
      }
      if id in jobs {
        return false;
      }
      if hostCap > 0 {
        var total := HostTotal();
        if total >= hostCap {
          return false;
        }
      }
      ghost var before := Abstract();
      jobs := jobs[id := d];
      if d.checkoutKey != "" {
        checkouts := Increment(checkouts, d.checkoutKey);
      }
      if d.runtimeKey != "" {
        runtimes := Increment(runtimes, d.runtimeKey);
      }
      perRepo := Increment(perRepo, d.repo);
      waiting := waiting + 1;
      if Accurate(before) {
        RegisterKeepsAccurate(before, id, d);
      }
      return true;
    }

    /** `end`. */
    method EndJob(id: string)
      modifies this
      ensures Abstract() == End(old(Abstract()), id)
      ensures old(Accurate(Abstract()) && (id in jobs ==> jobs[id].repo != "")) ==> Accurate(Abstract())
    {
      ghost var before := Abstract();
      if Accurate(before) {
        EndKeepsAccurateIff(before, id);
      }
      if id !in jobs {
        return;
      }
      var d := jobs[id];
      jobs := jobs - {id};
      checkouts := Decrement(checkouts, d.checkoutKey);
      runtimes := Decrement(runtimes, d.runtimeKey);
      perRepo := Decrement(perRepo, d.repo);
      waiting := waiting - 1;
    }

    /** `tryBeginPool`. */
    method TryBeginPool(repo: string) returns (ok: bool)
      modifies this
      ensures ok == old(AdmitsPool(Abstract(), repo))
      ensures Abstract() == if ok then RegisterPool(old(Abstract()), repo) else old(Abstract())
      ensures old(Accurate(Abstract())) ==> Accurate(Abstract())
    {
      if draining || repo in poolRuns || Count(perRepo, repo) > 0 {
        return false;
      }
      poolRuns := poolRuns + {repo};
      waiting := waiting + 1;
      return true;
    }

    /** `endPool`. */
    method FinishPool(repo: string)
      modifies this
      ensures Abstract() == EndPool(old(Abstract()), repo)
      ensures old(Accurate(Abstract())) ==> Accurate(Abstract())
    {
      if repo in poolRuns {
        poolRuns := poolRuns - {repo};
        waiting := waiting - 1;
      }
    }

    /** The locked part of `drain`: from here on nothing new begins. */
    method StartDrain()
      modifies this
      ensures Abstract() == old(Abstract()).(draining := true)
    {
      draining := true;
    }

    /** `seeds`: the keys held by in-flight jobs, exactly. */
    method Seeds() returns (checkoutKeys: set<string>, runtimeKeys: set<string>)
      requires Accurate(Abstract())
      ensures forall key :: key in checkoutKeys <==> key != "" && exists id | id in jobs :: jobs[id].checkoutKey == key
      ensures forall key :: key in runtimeKeys <==> key != "" && exists id | id in jobs :: jobs[id].runtimeKey == key
    {
      checkoutKeys := checkouts.Keys;
      runtimeKeys := runtimes.Keys;
      HeldKeys(checkouts, jobs, Checkout);
      HeldKeys(runtimes, jobs, Runtime);
    }
  }

  lemma HeldKeys(m: map<string, int>, jobs: map<string, Dispatch>, field: Field)
    requires Counts(m, jobs, field, false)
    ensures forall key :: key in m <==> key != "" && exists id | id in jobs :: KeyOf(jobs[id], field) == key
  {
    forall key
      ensures Holders(jobs, field, key) != {} <==> exists id | id in jobs :: KeyOf(jobs[id], field) == key
    {
      if id :| id in jobs && KeyOf(jobs[id], field) == key {
        assert id in Holders(jobs, field, key);
      }
    }
  }
}
