/** The host-wide admission budget: a session cap and a memory cap, charged per
    job and refunded exactly. Memory is an exact real. */
module AdmissionBudget {

  datatype Reservation = Reservation(session: bool, memGB: real)

  /** `Off` is the nil budget of a daemon without an admission policy. */
  datatype State =
    | Off
    | On(maxSessions: int, maxMemoryGB: real,
         reservedCount: int, reservedMemGB: real, reservations: map<string, Reservation>)

  /** `newAdmissionBudget`: a policy with no positive cap turns the feature off. */
  function New(maxSessions: int, maxMemoryGB: real): State {
    if maxSessions <= 0 && maxMemoryGB <= 0.0 then Off
    else On(maxSessions, maxMemoryGB, 0, 0.0, map[])
  }

  function Reserved(s: State): map<string, Reservation> {
    if s.Off? then map[] else s.reservations
  }

  predicate Fits(s: State, est: Reservation)
    requires s.On?
  {
    && (est.session && s.maxSessions > 0 ==> s.reservedCount + 1 <= s.maxSessions)
    && (s.maxMemoryGB > 0.0 ==> s.reservedMemGB + est.memGB <= s.maxMemoryGB)
  }

  /** `Reserve`: the new state and whether the job was admitted. */
  function Reserve(s: State, id: string, est: Reservation): (State, bool) {
    if s.Off? || id in s.reservations then (s, true)
    else if !Fits(s, est) then (s, false)
    else (s.(reservedCount := s.reservedCount + (if est.session then 1 else 0),
             reservedMemGB := s.reservedMemGB + est.memGB,
             reservations := s.reservations[id := est]), true)
  }

  /** `Release`. */
  function Release(s: State, id: string): State {
    if s.Off? || id !in s.reservations then s
    else
      var r := s.reservations[id];
      s.(reservedCount := s.reservedCount - (if r.session then 1 else 0),
         reservedMemGB := s.reservedMemGB - r.memGB,
         reservations := s.reservations - {id})
  }

  // ---- what the two running sums mean ----------------------------------------

  ghost function Sessions(m: map<string, Reservation>): set<string> {
    set id | id in m && m[id].session
  }

  ghost function Memory(m: map<string, Reservation>): real
    decreases |m|
  {
    if m == map[] then 0.0
    else
      var id :| id in m;
      m[id].memGB + Memory(m - {id})
  }

  lemma {:induction false} MemoryRemove(m: map<string, Reservation>, id: string)
    requires id in m
    ensures Memory(m) == m[id].memGB + Memory(m - {id})
    decreases |m|
  {
    var k :| k in m && Memory(m) == m[k].memGB + Memory(m - {k});
    if k != id {
      MemoryRemove(m - {k}, id);
      MemoryRemove(m - {id}, k);
      assert m - {k} - {id} == m - {id} - {k};
    }
  }

  /** The sums are exact and both caps hold. */
  ghost predicate Sound(s: State) {
    s.On? ==>
      && s.reservedCount == |Sessions(s.reservations)|
      && s.reservedMemGB == Memory(s.reservations)
      && (forall id | id in s.reservations :: s.reservations[id].memGB >= 0.0)
      && (s.maxSessions > 0 ==> s.reservedCount <= s.maxSessions)
      && (s.maxMemoryGB > 0.0 ==> s.reservedMemGB <= s.maxMemoryGB)
  }

  lemma ReserveKeepsSound(s: State, id: string, est: Reservation)
    requires Sound(s) && est.memGB >= 0.0
    ensures Sound(Reserve(s, id, est).0)
  {
    if s.On? && id !in s.reservations && Fits(s, est) {
      var m := s.reservations[id := est];
      MemoryRemove(m, id);
      assert m - {id} == s.reservations;
      assert Sessions(m) == Sessions(s.reservations) + (if est.session then {id} else {});
    }
  }

  lemma ReleaseKeepsSound(s: State, id: string)
    requires Sound(s)
    ensures Sound(Release(s, id))
  {
    if s.On? && id in s.reservations {
      MemoryRemove(s.reservations, id);
      assert Sessions(s.reservations - {id}) == Sessions(s.reservations) - {id};
    }
  }

  /** A job that holds nothing yet is granted its reservation exactly when the
      sessions and the memory of all holders, with its own, stay within the caps that
      are set; a refusal changes nothing. */
  lemma GrantedIff(s: State, id: string, est: Reservation)
    requires Sound(s) && s.On? && id !in s.reservations
    ensures var (after, granted) := Reserve(s, id, est);
            && (granted <==>
                  && (est.session && s.maxSessions > 0 ==> |Sessions(s.reservations)| + 1 <= s.maxSessions)
                  && (s.maxMemoryGB > 0.0 ==> Memory(s.reservations) + est.memGB <= s.maxMemoryGB))
            && Reserved(after) == if granted then s.reservations[id := est] else s.reservations
  {
  }

  /** A job that already holds a reservation is granted it again, and nothing is
      counted twice; so is every job without a policy. */
  lemma GrantedTwice(s: State, id: string, est: Reservation, again: Reservation)
    requires Reserve(s, id, est).1
    ensures Reserve(Reserve(s, id, est).0, id, again) == (Reserve(s, id, est).0, true)
    ensures id in Reserved(s) || s.Off? ==> Reserve(s, id, again) == (s, true)
  {
  }

  /** A policy is one that sets either cap; the new budget is empty. */
  lemma NewIsOffIff(maxSessions: int, maxMemoryGB: real)
    ensures New(maxSessions, maxMemoryGB) == Off <==> !(maxSessions > 0 || maxMemoryGB > 0.0)
    ensures Sound(New(maxSessions, maxMemoryGB)) && Reserved(New(maxSessions, maxMemoryGB)) == map[]
  {
    assert Sessions(map[]) == {};
  }

  /** A reservation and its release cancel out exactly when the job held nothing
      before: for a job already holding a reservation the pair takes it away. */
  lemma ReleaseUndoesReserveIff(s: State, id: string, est: Reservation)
    ensures Release(Reserve(s, id, est).0, id) == s <==> id !in Reserved(s)
  {
    if id in Reserved(s) {
      assert id !in Reserved(Release(s, id));
    } else if s.On? && Fits(s, est) {
      assert s.reservations[id := est] - {id} == s.reservations;
    }
  }

  /** With the estimates of all jobs in flight released, the budget is empty. */
  lemma EmptyBudgetHoldsNothing(s: State)
    requires Sound(s) && s.On? && s.reservations == map[]
    ensures s.reservedCount == 0 && s.reservedMemGB == 0.0
  {
    assert Sessions(s.reservations) == {};
  }

  // ---- the budget object ----------------------------------------------------

  class Budget {
    const maxSessions: int
    const maxMemoryGB: real
    var reservedCount: int
    var reservedMemGB: real
    var reservations: map<string, Reservation>

    ghost function Abstract(): State
      reads this
    {
      On(maxSessions, maxMemoryGB, reservedCount, reservedMemGB, reservations)
    }

    constructor (maxSessions: int, maxMemoryGB: real)
      requires maxSessions > 0 || maxMemoryGB > 0.0
      ensures Abstract() == New(maxSessions, maxMemoryGB) && Sound(Abstract())
    {
      this.maxSessions, this.maxMemoryGB := maxSessions, maxMemoryGB;
      reservedCount, reservedMemGB, reservations := 0, 0.0, map[];
      new;
      assert Sessions(reservations) == {};
    }

    /** `Reserve`; the estimate is only looked at when nothing is held yet. */
    method TryReserve(id: string, est: Reservation) returns (ok: bool)
      modifies this
      ensures (Abstract(), ok) == Reserve(old(Abstract()), id, est)
      ensures old(Sound(Abstract())) && est.memGB >= 0.0 ==> Sound(Abstract())
    {
      ghost var before := Abstract();
      if Sound(before) && est.memGB >= 0.0 {
        ReserveKeepsSound(before, id, est);
      }
      if id in reservations {
        return true;
      }
      if est.session && maxSessions > 0 && reservedCount + 1 > maxSessions {
        return false;
      }
      if maxMemoryGB > 0.0 && reservedMemGB + est.memGB > maxMemoryGB {
        return false;
      }
      if est.session {
        reservedCount := reservedCount + 1;
      }
      reservedMemGB := reservedMemGB + est.memGB;
      reservations := reservations[id := est];
      return true;
    }

    /** `Release`. */
    method Refund(id: string)
      modifies this
      ensures Abstract() == Release(old(Abstract()), id)
      ensures old(Sound(Abstract())) ==> Sound(Abstract())
    {
      ghost var before := Abstract();
      if Sound(before) {
        ReleaseKeepsSound(before, id);
      }
      if id !in reservations {
        return;
      }
      var r := reservations[id];
      if r.session {
        reservedCount := reservedCount - 1;
      }
      reservedMemGB := reservedMemGB - r.memGB;
      reservations := reservations - {id};
    }
  }
}
