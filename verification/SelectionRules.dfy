/** The selector, told job by job: which pending jobs are taken and which of them
    are promised a temporary worker, each in terms of the jobs before it. */
module SelectionRules {
  import opened JobSelector

  /** How many of the first k are marked. */
  function Marked(marks: seq<bool>, k: nat): nat
    requires k <= |marks|
  {
    if k == 0 then 0 else Marked(marks, k - 1) + if marks[k - 1] then 1 else 0
  }

  /** How many of the first k are promised a worker of this type. */
  function Workers(w: Surroundings, pending: seq<Job>, booked: seq<bool>, typ: string, k: nat): nat
    requires k <= |booked| && k <= |pending|
  {
    if k == 0 then 0
    else
      Workers(w, pending, booked, typ, k - 1)
      + if booked[k - 1] && w.workerType(pending[k - 1].id) == typ then 1 else 0
  }

  /** The first k of the marked jobs, in their order. */
  function Picked(pending: seq<Job>, marks: seq<bool>, mark: bool, k: nat): seq<Job>
    requires k <= |marks| && k <= |pending|
  {
    if k == 0 then []
    else Picked(pending, marks, mark, k - 1) + if marks[k - 1] == mark then [pending[k - 1]] else []
  }

  predicate HoldsCheckout(pending: seq<Job>, took: seq<bool>, key: string, k: nat)
    requires k <= |took| && k <= |pending|
  {
    exists j :: 0 <= j < k && took[j] && pending[j].checkoutKey == key
  }

  predicate HoldsRuntime(pending: seq<Job>, took: seq<bool>, key: string, k: nat)
    requires k <= |took| && k <= |pending|
  {
    exists j :: 0 <= j < k && took[j] && pending[j].runtimeKey == key
  }

  /** There is room, and the checkout is free. */
  predicate Open(limit: int, pending: seq<Job>, seeds: set<string>, took: seq<bool>, k: nat)
    requires k <= |took| && k < |pending|
  {
    && Marked(took, k) < limit
    && pending[k].checkoutKey !in seeds && !HoldsCheckout(pending, took, pending[k].checkoutKey, k)
  }

  /** The runtime session is in use by a running job or by one taken before. */
  predicate InUse(pending: seq<Job>, seeds: set<string>, took: seq<bool>, k: nat)
    requires k <= |took| && k < |pending|
  {
    var key := pending[k].runtimeKey;
    key != "" && (key in seeds || HoldsRuntime(pending, took, key, k))
  }

  /** A temporary worker can be had: the job may use one, and its type has one more
      than is promised to the jobs before. */
  predicate Spare(w: Surroundings, pending: seq<Job>, booked: seq<bool>, k: nat)
    requires k <= |booked| && k < |pending|
  {
    var id := pending[k].id;
    w.eligible(id) && Workers(w, pending, booked, w.workerType(id), k) < w.spare(w.workerType(id))
  }

  /** The rules for the k-th job. */
  predicate Ruled(w: Surroundings, limit: int, pending: seq<Job>, seedCheckouts: set<string>,
                  seedRuntimes: set<string>, took: seq<bool>, booked: seq<bool>, k: nat)
    requires k < |took| == |booked| <= |pending|
  {
    var open := Open(limit, pending, seedCheckouts, took, k);
    var inUse := InUse(pending, seedRuntimes, took, k);
    var locked := pending[k].runtimeKey != "" && w.locked(pending[k].runtimeKey);
    && (took[k] <==> open && (inUse ==> Spare(w, pending, booked, k)))
    && (booked[k] <==> open && (inUse || locked) && Spare(w, pending, booked, k))
  }

  // ---- decisions about the first jobs do not depend on later ones ----------------------

  lemma {:induction false} MarkedStays(marks: seq<bool>, more: bool, k: nat)
    requires k <= |marks|
    ensures Marked(marks + [more], k) == Marked(marks, k)
    decreases k
  {
    if k > 0 {
      MarkedStays(marks, more, k - 1);
    }
  }

  lemma {:induction false} WorkersStay(w: Surroundings, pending: seq<Job>, booked: seq<bool>, more: bool, typ: string,
                                       k: nat)
    requires k <= |booked| && k <= |pending|
    ensures Workers(w, pending, booked + [more], typ, k) == Workers(w, pending, booked, typ, k)
    decreases k
  {
    if k > 0 {
      WorkersStay(w, pending, booked, more, typ, k - 1);
    }
  }

  lemma {:induction false} PickedStays(pending: seq<Job>, marks: seq<bool>, more: bool, mark: bool, k: nat)
    requires k <= |marks| && k <= |pending|
    ensures Picked(pending, marks + [more], mark, k) == Picked(pending, marks, mark, k)
    decreases k
  {
    if k > 0 {
      PickedStays(pending, marks, more, mark, k - 1);
    }
  }

  lemma HoldersStay(pending: seq<Job>, took: seq<bool>, more: bool, key: string, k: nat)
    requires k <= |took| && k <= |pending|
    ensures HoldsCheckout(pending, took + [more], key, k) <==> HoldsCheckout(pending, took, key, k)
    ensures HoldsRuntime(pending, took + [more], key, k) <==> HoldsRuntime(pending, took, key, k)
  {
    var longer := took + [more];
    assert forall j | 0 <= j < k :: longer[j] == took[j];
  }

  lemma RuledStays(w: Surroundings, limit: int, pending: seq<Job>, seedCheckouts: set<string>,
                   seedRuntimes: set<string>, took: seq<bool>, booked: seq<bool>, t: bool, b: bool, k: nat)
    requires k < |took| == |booked| < |pending|
    requires Ruled(w, limit, pending, seedCheckouts, seedRuntimes, took, booked, k)
    ensures Ruled(w, limit, pending, seedCheckouts, seedRuntimes, took + [t], booked + [b], k)
  {
    MarkedStays(took, t, k);
    WorkersStay(w, pending, booked, b, w.workerType(pending[k].id), k);
    HoldersStay(pending, took, t, pending[k].checkoutKey, k);
    HoldersStay(pending, took, t, pending[k].runtimeKey, k);
    assert (took + [t])[k] == took[k] && (booked + [b])[k] == booked[k];
  }

  // ---- the selector's maps reflect the decisions ---------------------------------------------

  ghost predicate Reflects(w: Surroundings, s: Selector, pending: seq<Job>, seedCheckouts: set<string>,
                           seedRuntimes: set<string>, took: seq<bool>, booked: seq<bool>)
    requires |took| == |booked| <= |pending|
  {
    var k := |took|;
    && (forall key :: key in s.checkouts <==> key in seedCheckouts || HoldsCheckout(pending, took, key, k))
    && (forall key | key != "" :: key in s.runtimes <==> key in seedRuntimes || HoldsRuntime(pending, took, key, k))
    && (forall typ :: Promised(s, typ) == Workers(w, pending, booked, typ, k))
  }

  lemma CheckoutsGrow(pending: seq<Job>, took: seq<bool>, t: bool, key: string)
    requires |took| < |pending|
    ensures var k := |took|;
            HoldsCheckout(pending, took + [t], key, k + 1) <==>
            HoldsCheckout(pending, took, key, k) || (t && pending[k].checkoutKey == key)
    ensures var k := |took|;
            HoldsRuntime(pending, took + [t], key, k + 1) <==>
            HoldsRuntime(pending, took, key, k) || (t && pending[k].runtimeKey == key)
  {
    var k, longer := |took|, took + [t];
    assert longer[k] == t && forall j | 0 <= j < k :: longer[j] == took[j];
  }

  lemma StepIsRuled(w: Surroundings, s: Selector, limit: int, pending: seq<Job>, seedCheckouts: set<string>,
                    seedRuntimes: set<string>, took: seq<bool>, booked: seq<bool>) returns (b: bool)
    requires |took| == |booked| < |pending|
    requires Reflects(w, s, pending, seedCheckouts, seedRuntimes, took, booked)
    ensures var k := |took|;
            var (s', yes) := Selects(w, s, limit, pending[k], Marked(took, k));
            && Ruled(w, limit, pending, seedCheckouts, seedRuntimes, took + [yes], booked + [b], k)
            && s'.checkouts == (if yes then s.checkouts + {pending[k].checkoutKey} else s.checkouts)
            && s'.runtimes == (if yes && pending[k].runtimeKey != "" then s.runtimes + {pending[k].runtimeKey}
                               else s.runtimes)
            && forall typ :: Promised(s', typ)
                          == Promised(s, typ) + if b && w.workerType(pending[k].id) == typ then 1 else 0
  {
    var k, job := |took|, pending[|took|];
    var (s', yes) := Selects(w, s, limit, job, Marked(took, k));
    var open := Open(limit, pending, seedCheckouts, took, k);
    var inUse := InUse(pending, seedRuntimes, took, k);
    var locked := job.runtimeKey != "" && w.locked(job.runtimeKey);
    b := open && (inUse || locked) && Spare(w, pending, booked, k);
    MarkedStays(took, yes, k);
    WorkersStay(w, pending, booked, b, w.workerType(job.id), k);
    HoldersStay(pending, took, yes, job.checkoutKey, k);
    HoldersStay(pending, took, yes, job.runtimeKey, k);
    assert Promised(s, w.workerType(job.id)) == Workers(w, pending, booked, w.workerType(job.id), k);
    assert (took + [yes])[k] == yes && (booked + [b])[k] == b;
  }

  lemma StepReflects(w: Surroundings, s: Selector, limit: int, pending: seq<Job>, seedCheckouts: set<string>,
                     seedRuntimes: set<string>, took: seq<bool>, booked: seq<bool>) returns (b: bool)
    requires |took| == |booked| < |pending|
    requires Reflects(w, s, pending, seedCheckouts, seedRuntimes, took, booked)
    ensures var (s', yes) := Selects(w, s, limit, pending[|took|], Marked(took, |took|));
            && Ruled(w, limit, pending, seedCheckouts, seedRuntimes, took + [yes], booked + [b], |took|)
            && Reflects(w, s', pending, seedCheckouts, seedRuntimes, took + [yes], booked + [b])
  {
    b := StepIsRuled(w, s, limit, pending, seedCheckouts, seedRuntimes, took, booked);
    var yes := Selects(w, s, limit, pending[|took|], Marked(took, |took|)).1;
    forall key {
      CheckoutsGrow(pending, took, yes, key);
    }
    forall typ {
      WorkersStay(w, pending, booked, b, typ, |took|);
    }
  }

  // ---- the whole selection ----------------------------------------------------------------------

  lemma SelectNext(w: Surroundings, s: Selector, limit: int, pending: seq<Job>, k: nat, n: nat)
    requires k < |pending|
    ensures var (s', yes) := Selects(w, s, limit, pending[k], n);
            var (queued, remaining) := SelectFrom(w, s', limit, pending[k + 1..], if yes then n + 1 else n);
            SelectFrom(w, s, limit, pending[k..], n) ==
            if yes then ([pending[k]] + queued, remaining) else (queued, [pending[k]] + remaining)
  {
    assert pending[k..][0] == pending[k] && pending[k..][1..] == pending[k + 1..];
  }

  lemma PickedGrows(pending: seq<Job>, took: seq<bool>, t: bool, rest: seq<Job>, mark: bool)
    requires |took| < |pending|
    ensures var k := |took|;
            Picked(pending, took, mark, k) + (if t == mark then [pending[k]] + rest else rest) ==
            Picked(pending, took + [t], mark, k + 1) + rest
  {
    var k := |took|;
    PickedStays(pending, took, t, mark, k);
    assert (took + [t])[k] == t;
    assert Picked(pending, took, mark, k) + ([pending[k]] + rest)
        == Picked(pending, took, mark, k) + [pending[k]] + rest;
    assert Picked(pending, took, mark, k) + [] == Picked(pending, took, mark, k);
  }

  ghost predicate AllRuled(w: Surroundings, limit: int, pending: seq<Job>, seedCheckouts: set<string>,
                           seedRuntimes: set<string>, took: seq<bool>, booked: seq<bool>)
    requires |took| == |booked| <= |pending|
  {
    forall k | 0 <= k < |took| :: Ruled(w, limit, pending, seedCheckouts, seedRuntimes, took, booked, k)
  }

  lemma AllRuledGrows(w: Surroundings, limit: int, pending: seq<Job>, seedCheckouts: set<string>,
                      seedRuntimes: set<string>, took: seq<bool>, booked: seq<bool>, t: bool, b: bool)
    requires |took| == |booked| < |pending|
    requires AllRuled(w, limit, pending, seedCheckouts, seedRuntimes, took, booked)
    requires Ruled(w, limit, pending, seedCheckouts, seedRuntimes, took + [t], booked + [b], |took|)
    ensures AllRuled(w, limit, pending, seedCheckouts, seedRuntimes, took + [t], booked + [b])
  {
    forall j | 0 <= j < |took|
      ensures Ruled(w, limit, pending, seedCheckouts, seedRuntimes, took + [t], booked + [b], j)
    {
      RuledStays(w, limit, pending, seedCheckouts, seedRuntimes, took, booked, t, b, j);
    }
  }

  lemma {:induction false} FollowsFrom(w: Surroundings, s: Selector, limit: int, pending: seq<Job>,
                                       seedCheckouts: set<string>, seedRuntimes: set<string>,
                                       took: seq<bool>, booked: seq<bool>)
      returns (allTook: seq<bool>, allBooked: seq<bool>)
    requires |took| == |booked| <= |pending|
    requires Reflects(w, s, pending, seedCheckouts, seedRuntimes, took, booked)
    requires AllRuled(w, limit, pending, seedCheckouts, seedRuntimes, took, booked)
    ensures |allTook| == |allBooked| == |pending|
    ensures AllRuled(w, limit, pending, seedCheckouts, seedRuntimes, allTook, allBooked)
    ensures var k := |took|;
            var (queued, remaining) := SelectFrom(w, s, limit, pending[k..], Marked(took, k));
            && Picked(pending, took, true, k) + queued == Picked(pending, allTook, true, |pending|)
            && Picked(pending, took, false, k) + remaining == Picked(pending, allTook, false, |pending|)
    decreases |pending| - |took|
  {
    var k := |took|;
    if k == |pending| {
      allTook, allBooked := took, booked;
      assert Picked(pending, took, true, k) + [] == Picked(pending, took, true, k);
      assert Picked(pending, took, false, k) + [] == Picked(pending, took, false, k);
    } else {
      var n := Marked(took, k);
      var (s', yes) := Selects(w, s, limit, pending[k], n);
      var b := StepReflects(w, s, limit, pending, seedCheckouts, seedRuntimes, took, booked);
      AllRuledGrows(w, limit, pending, seedCheckouts, seedRuntimes, took, booked, yes, b);
      MarkedStays(took, yes, k);
      allTook, allBooked := FollowsFrom(w, s', limit, pending, seedCheckouts, seedRuntimes, took + [yes], booked + [b]);
      SelectNext(w, s, limit, pending, k, n);
      var (queued, remaining) := SelectFrom(w, s', limit, pending[k + 1..], if yes then n + 1 else n);
      PickedGrows(pending, took, yes, queued, true);
      PickedGrows(pending, took, yes, remaining, false);
    }
  }

  /** The selection is determined, job by job, by the rules: the jobs taken and the
      jobs left are those the rules take and leave, in the order they were pending. */
  lemma SelectionIsRuled(w: Surroundings, limit: int, pending: seq<Job>, seedCheckouts: set<string>,
                         seedRuntimes: set<string>) returns (took: seq<bool>, booked: seq<bool>)
    ensures |took| == |booked| == |pending|
    ensures AllRuled(w, limit, pending, seedCheckouts, seedRuntimes, took, booked)
    ensures Select(w, limit, pending, seedCheckouts, seedRuntimes)
         == (Picked(pending, took, true, |pending|), Picked(pending, took, false, |pending|))
  {
    if limit > 0 {
      took, booked := FollowsFrom(w, Selector(seedCheckouts, seedRuntimes, map[]), limit, pending, seedCheckouts,
                                  seedRuntimes, [], []);
      var (queued, remaining) := SelectFrom(w, Selector(seedCheckouts, seedRuntimes, map[]), limit, pending, 0);
      assert pending[0..] == pending && [] + queued == queued && [] + remaining == remaining;
    } else {
      took, booked := NothingIsTaken(w, limit, pending, seedCheckouts, seedRuntimes);
    }
  }

  lemma {:induction false} NothingMarked(marks: seq<bool>, k: nat)
    requires k <= |marks| && forall j | 0 <= j < |marks| :: !marks[j]
    ensures Marked(marks, k) == 0
    decreases k
  {
    if k > 0 {
      NothingMarked(marks, k - 1);
    }
  }

  lemma {:induction false} NothingPicked(pending: seq<Job>, marks: seq<bool>, k: nat)
    requires k <= |marks| && k <= |pending| && forall j | 0 <= j < |marks| :: !marks[j]
    ensures Picked(pending, marks, true, k) == [] && Picked(pending, marks, false, k) == pending[..k]
    decreases k
  {
    if k > 0 {
      NothingPicked(pending, marks, k - 1);
    }
  }

  lemma NothingIsTaken(w: Surroundings, limit: int, pending: seq<Job>, seedCheckouts: set<string>,
                       seedRuntimes: set<string>) returns (took: seq<bool>, booked: seq<bool>)
    requires limit <= 0
    ensures |took| == |booked| == |pending|
    ensures AllRuled(w, limit, pending, seedCheckouts, seedRuntimes, took, booked)
    ensures Picked(pending, took, true, |pending|) == [] && Picked(pending, took, false, |pending|) == pending
  {
    took := seq(|pending|, _ => false);
    booked := took;
    forall k | 0 <= k < |pending|
      ensures Ruled(w, limit, pending, seedCheckouts, seedRuntimes, took, booked, k)
    {
      NothingMarked(took, k);
    }
    NothingPicked(pending, took, |pending|);
  }
}
