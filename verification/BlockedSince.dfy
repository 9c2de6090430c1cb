/** Blocked-role episodes: opening, reaping and re-nudging. Instants and durations
    are in nanoseconds. */
module BlockedSince {
  import opened Basics
  import opened Text

  datatype Episode = Episode(blockedSince: int, emitted: Option<int>, updatedAt: int)

  const STALE_GAP := 5 * 60 * 1_000_000_000

  // ---- the episode table ---------------------------------------------------------

  /** `fails` stands for a failing database. */
  class Episodes {
    var rows: map<string, Episode>

    constructor ()
      ensures rows == map[]
    {
      rows := map[];
    }

    /** Opens an episode, or refreshes `updatedAt` of an open one. */
    method Upsert(subject: string, blockedSince: int, now: int, fails: bool) returns (ok: bool)
      modifies this
      ensures ok == !fails
      ensures rows == if fails then old(rows) else
                        old(rows)[subject := Opened(Row(old(rows), subject), blockedSince, now)]
    {
      if fails {
        return false;
      }
      if subject in rows {
        rows := rows[subject := rows[subject].(updatedAt := now)];
      } else {
        rows := rows[subject := Episode(blockedSince, None, now)];
      }
      return true;
    }

    method Mark(subject: string, at: int, fails: bool) returns (ok: bool)
      modifies this
      ensures ok == !fails
      ensures rows == if fails || subject !in old(rows) then old(rows)
                      else old(rows)[subject := old(rows)[subject].(emitted := Some(at), updatedAt := at)]
    {
      if fails {
        return false;
      }
      if subject in rows {
        rows := rows[subject := rows[subject].(emitted := Some(at), updatedAt := at)];
      }
      return true;
    }

    method Clear(subject: string, fails: bool) returns (ok: bool)
      modifies this
      ensures ok == !fails
      ensures rows == if fails then old(rows) else old(rows) - {subject}
    {
      if fails {
        return false;
      }
      rows := rows - {subject};
      return true;
    }

    /** The open episodes, each once. */
    method List() returns (subjects: seq<string>)
      ensures forall s :: s in subjects <==> s in rows
      ensures forall i, j :: 0 <= i < j < |subjects| ==> subjects[i] != subjects[j]
    {
      subjects := [];
      var left := rows.Keys;
      while left != {}
        invariant left <= rows.Keys
        invariant forall s :: s in subjects <==> s in rows && s !in left
        invariant forall i, j :: 0 <= i < j < |subjects| ==> subjects[i] != subjects[j]
        decreases left
      {
        var s :| s in left;
        left := left - {s};
        subjects := subjects + [s];
      }
    }
  }

  function Row(rows: map<string, Episode>, subject: string): Option<Episode> {
    if subject in rows then Some(rows[subject]) else None
  }

  /** The row that an upsert leaves. */
  function Opened(row: Option<Episode>, observedAt: int, now: int): Episode {
    if row.Some? then row.value.(updatedAt := now) else Episode(observedAt, None, now)
  }

  // ---- one evaluation --------------------------------------------------------------

  datatype State = Blocked | Idle | Working | Finished | Unknown

  /** One entry of a snapshot; `stored` tells whether its upsert would succeed. */
  datatype Entry = Entry(role: string, state: State, stored: bool)

  /** One evaluation: a snapshot in its iteration order, and which database calls fail. */
  datatype Tick = Tick(observedAt: int, now: int, entries: seq<Entry>, listed: bool,
                       markFails: set<string>, clearFails: set<string>)

  const ROLE := "role:"

  function Subject(e: Entry): string { ROLE + TrimSpace(e.role) }

  predicate Concerns(e: Entry, subject: string) { TrimSpace(e.role) != "" && Subject(e) == subject }

  predicate BlockedIn(entries: seq<Entry>, subject: string) {
    exists e :: e in entries && Concerns(e, subject) && e.state.Blocked?
  }

  predicate ReadyIn(entries: seq<Entry>, subject: string) {
    exists e :: e in entries && Concerns(e, subject) && e.state.Blocked? && e.stored
  }

  predicate ConfirmedIn(entries: seq<Entry>, subject: string) {
    exists e :: e in entries && Concerns(e, subject) && !e.state.Blocked? && !e.state.Unknown?
  }

  /** What one evaluation means for one subject. */
  datatype Sighting = Sighting(observedAt: int, now: int, blocked: bool, ready: bool, confirmed: bool,
                               listed: bool, marks: bool, clears: bool)

  function Sight(t: Tick, subject: string): Sighting {
    Sighting(t.observedAt, t.now, BlockedIn(t.entries, subject), ReadyIn(t.entries, subject),
             ConfirmedIn(t.entries, subject), t.listed, subject !in t.markFails, subject !in t.clearFails)
  }

  predicate Stale(e: Episode, now: int) { e.updatedAt <= now - STALE_GAP }

  /** Blocked for long enough, and not nudged within the interval. */
  predicate Due(e: Episode, wakeAfter: int, now: int) {
    now - e.blockedSince > wakeAfter && (e.emitted.Some? ==> now - e.emitted.value > wakeAfter)
  }

  function AfterUpsert(row: Option<Episode>, s: Sighting): Option<Episode> {
    if s.ready then Some(Opened(row, s.observedAt, s.now)) else row
  }

  predicate Emits(row: Option<Episode>, s: Sighting, wakeAfter: int) {
    var mid := AfterUpsert(row, s);
    mid.Some? && s.listed && s.blocked && s.ready && s.marks && Due(mid.value, wakeAfter, s.now)
  }

  predicate Clears(row: Option<Episode>, s: Sighting) {
    row.Some? && s.listed && !s.blocked && s.clears && (s.confirmed || Stale(row.value, s.now))
  }

  /** The row of a subject after one evaluation. */
  function Next(row: Option<Episode>, s: Sighting, wakeAfter: int): Option<Episode> {
    var mid := AfterUpsert(row, s);
    if Emits(row, s, wakeAfter) then Some(mid.value.(emitted := Some(s.now), updatedAt := s.now))
    else if Clears(mid, s) then None
    else mid
  }

  /** What the second loop does to a listed row, and whether it nudges. */
  predicate Nudged(mid: map<string, Episode>, s: string, t: Tick, wakeAfter: int) {
    ROLE <= s && s in mid && BlockedIn(t.entries, s) && ReadyIn(t.entries, s) && s !in t.markFails
    && Due(mid[s], wakeAfter, t.now)
  }

  function Swept(mid: map<string, Episode>, s: string, t: Tick, wakeAfter: int): Option<Episode>
    requires s in mid
  {
    if Nudged(mid, s, t, wakeAfter) then Some(mid[s].(emitted := Some(t.now), updatedAt := t.now))
    else if ROLE <= s && !BlockedIn(t.entries, s) && s !in t.clearFails
            && (ConfirmedIn(t.entries, s) || Stale(mid[s], t.now)) then None
    else Some(mid[s])
  }

  datatype Subjects = Subjects(blocked: set<string>, ready: set<string>, confirmed: set<string>)

  /** The subject sets that some entries give. */
  ghost predicate Collected(entries: seq<Entry>, c: Subjects) {
    && (forall s :: s in c.blocked <==> BlockedIn(entries, s))
    && (forall s :: s in c.ready <==> ReadyIn(entries, s))
    && (forall s :: s in c.confirmed <==> ConfirmedIn(entries, s))
  }

  function Collect(c: Subjects, e: Entry): Subjects {
    if TrimSpace(e.role) == "" || e.state.Unknown? then c
    else if !e.state.Blocked? then c.(confirmed := c.confirmed + {Subject(e)})
    else c.(blocked := c.blocked + {Subject(e)}, ready := if e.stored then c.ready + {Subject(e)} else c.ready)
  }

  lemma CollectOne(entries: seq<Entry>, c: Subjects, e: Entry)
    requires Collected(entries, c)
    ensures Collected(entries + [e], Collect(c, e))
  {
    forall s
      ensures BlockedIn(entries + [e], s) <==> BlockedIn(entries, s) || (Concerns(e, s) && e.state.Blocked?)
      ensures ReadyIn(entries + [e], s) <==> ReadyIn(entries, s) || (Concerns(e, s) && e.state.Blocked? && e.stored)
      ensures ConfirmedIn(entries + [e], s)
         <==> ConfirmedIn(entries, s) || (Concerns(e, s) && !e.state.Blocked? && !e.state.Unknown?)
    {
      var more := entries + [e];
      assert e in more && forall x :: x in more <==> x in entries || x == e;
    }
  }

  /** The first loop: the three subject sets, and the upserts. */
  method Observe(table: Episodes, t: Tick) returns (blocked: set<string>, ready: set<string>, confirmed: set<string>)
    modifies table
    ensures Collected(t.entries, Subjects(blocked, ready, confirmed))
    ensures forall s :: Row(table.rows, s) == AfterUpsert(Row(old(table.rows), s), Sight(t, s))
  {
    blocked, ready, confirmed := {}, {}, {};
    for k := 0 to |t.entries|
      invariant Collected(t.entries[..k], Subjects(blocked, ready, confirmed))
      invariant forall s :: Row(table.rows, s)
                         == if s in ready then Some(Opened(Row(old(table.rows), s), t.observedAt, t.now))
                            else Row(old(table.rows), s)
    {
      var e := t.entries[k];
      assert t.entries[..k + 1] == t.entries[..k] + [e];
      CollectOne(t.entries[..k], Subjects(blocked, ready, confirmed), e);
      if TrimSpace(e.role) == "" {
        continue;
      }
      if e.state.Blocked? {
        blocked := blocked + {Subject(e)};
        var stored := table.Upsert(Subject(e), t.observedAt, t.now, !e.stored);
        if !stored {
          continue;
        }
        ready := ready + {Subject(e)};
      } else if !e.state.Unknown? {
        confirmed := confirmed + {Subject(e)};
      }
    }
    assert t.entries[..|t.entries|] == t.entries;
  }

  /** The second loop: nudging what is due, and reaping. */
  method Sweep(table: Episodes, t: Tick, c: Subjects, wakeAfter: int) returns (emitted: seq<string>)
    requires Collected(t.entries, c)
    modifies table
    ensures forall s :: Row(table.rows, s)
                     == if s in old(table.rows) then Swept(old(table.rows), s, t, wakeAfter) else None
    ensures forall s :: s in emitted <==> Nudged(old(table.rows), s, t, wakeAfter)
    ensures forall i, j :: 0 <= i < j < |emitted| ==> emitted[i] != emitted[j]
  {
    emitted := [];
    ghost var mid := table.rows;
    var subjects := table.List();
    for k := 0 to |subjects|
      invariant forall s :: s in subjects[k..] || s !in subjects ==> Row(table.rows, s) == Row(mid, s)
      invariant forall s :: s in subjects[..k] ==> Row(table.rows, s) == Swept(mid, s, t, wakeAfter)
      invariant forall s :: s in emitted <==> s in subjects[..k] && Nudged(mid, s, t, wakeAfter)
      invariant forall i, j :: 0 <= i < j < |emitted| ==> emitted[i] != emitted[j]
    {
      var s := subjects[k];
      assert subjects[..k + 1] == subjects[..k] + [s];
      assert s !in subjects[..k] && s !in subjects[k + 1..];
      assert s in subjects && s in mid;
      assert Row(table.rows, s) == Row(mid, s);
      assert Swept(table.rows, s, t, wakeAfter) == Swept(mid, s, t, wakeAfter);
      var nudged := SweepRow(table, t, c, wakeAfter, s);
      if nudged {
        emitted := emitted + [s];
      }
    }
  }

  /** One episode of that loop, and whether it is nudged. */
  method SweepRow(table: Episodes, t: Tick, c: Subjects, wakeAfter: int, s: string) returns (nudged: bool)
    requires Collected(t.entries, c) && s in table.rows
    modifies table
    ensures nudged == Nudged(old(table.rows), s, t, wakeAfter)
    ensures Row(table.rows, s) == Swept(old(table.rows), s, t, wakeAfter)
    ensures forall x :: x != s ==> Row(table.rows, x) == Row(old(table.rows), x)
  {
    if !(ROLE <= s) {
      return false;
    }
    if s in c.blocked {
      if s in c.ready && Due(table.rows[s], wakeAfter, t.now) {
        nudged := table.Mark(s, t.now, s in t.markFails);
        return;
      }
    } else if s in c.confirmed || Stale(table.rows[s], t.now) {
      var _ := table.Clear(s, s in t.clearFails);
    }
    return false;
  }

  lemma StepsTogether(before: map<string, Episode>, mid: map<string, Episode>, s: string, t: Tick, wakeAfter: int)
    requires t.listed && Row(mid, s) == AfterUpsert(Row(before, s), Sight(t, s))
    ensures ROLE <= s ==>
              Next(Row(before, s), Sight(t, s), wakeAfter) == (if s in mid then Swept(mid, s, t, wakeAfter) else None)
    ensures Nudged(mid, s, t, wakeAfter) <==> ROLE <= s && Emits(Row(before, s), Sight(t, s), wakeAfter)
    ensures !(ROLE <= s) ==> Row(mid, s) == Row(before, s) == if s in mid then Swept(mid, s, t, wakeAfter) else None
  {
    ReadyIsRole(t.entries, s);
  }

  lemma ReadyIsRole(entries: seq<Entry>, s: string)
    ensures ReadyIn(entries, s) ==> ROLE <= s
  {
    if ReadyIn(entries, s) {
      var e :| e in entries && Concerns(e, s);
      assert ROLE <= Subject(e);
    }
  }

  /** What an evaluation does to the rows, and whom it nudges. */
  ghost predicate Evaluated(rows: map<string, Episode>, t: Tick, wakeAfter: int,
                            after: map<string, Episode>, emitted: seq<string>) {
    && (forall s :: Row(after, s) == if ROLE <= s then Next(Row(rows, s), Sight(t, s), wakeAfter) else Row(rows, s))
    && (forall s :: s in emitted <==> ROLE <= s && Emits(Row(rows, s), Sight(t, s), wakeAfter))
    && (forall i, j :: 0 <= i < j < |emitted| ==> emitted[i] != emitted[j])
  }

  /** `evaluateBlockedRoleEpisodes` with `emitBlockedSinceEpisode`. Every role row
      steps by `Next`, other rows stay, and exactly the due subjects are nudged;
      without a wake interval nothing happens. */
  method Evaluate(table: Episodes, t: Tick, wakeAfter: int) returns (emitted: seq<string>)
    modifies table
    ensures wakeAfter <= 0 ==> emitted == [] && table.rows == old(table.rows)
    ensures wakeAfter > 0 ==> Evaluated(old(table.rows), t, wakeAfter, table.rows, emitted)
  {
    emitted := [];
    if wakeAfter <= 0 {
      return;
    }
    var blocked, ready, confirmed := Observe(table, t);
    ghost var mid := table.rows;
    if t.listed {
      emitted := Sweep(table, t, Subjects(blocked, ready, confirmed), wakeAfter);
      forall s {
        StepsTogether(old(table.rows), mid, s, t, wakeAfter);
      }
    } else {
      forall s
        ensures ReadyIn(t.entries, s) ==> ROLE <= s
      {
        ReadyIsRole(t.entries, s);
      }
    }
  }

  // ---- whole runs, for one subject ------------------------------------------------------

  /** A row, and the nudges so far: each with the start of its episode. */
  datatype Nudge = Nudge(since: int, at: int)

  function Rows(row: Option<Episode>, sightings: seq<Sighting>, wakeAfter: int): Option<Episode>
    decreases |sightings|
  {
    if sightings == [] then row else Rows(Next(row, sightings[0], wakeAfter), sightings[1..], wakeAfter)
  }

  function NudgeOf(row: Option<Episode>, s: Sighting): Nudge {
    Nudge(if AfterUpsert(row, s).Some? then AfterUpsert(row, s).value.blockedSince else 0, s.now)
  }

  function Nudges(row: Option<Episode>, sightings: seq<Sighting>, wakeAfter: int): seq<Nudge>
    decreases |sightings|
  {
    if sightings == [] then []
    else
      var s := sightings[0];
      (if Emits(row, s, wakeAfter) then [NudgeOf(row, s)] else [])
      + Nudges(Next(row, s, wakeAfter), sightings[1..], wakeAfter)
  }

  /** A monotone clock, each snapshot taken no earlier than the previous evaluation. */
  predicate Ordered(sightings: seq<Sighting>) {
    forall i, j :: 0 <= i < j < |sightings| ==> Precedes(sightings[i], sightings[j])
  }

  predicate Precedes(a: Sighting, b: Sighting) { a.now <= b.now && a.now <= b.observedAt }

  predicate Spaced(nudges: seq<Nudge>, wakeAfter: int) {
    && (forall k | 0 <= k < |nudges| :: nudges[k].at - nudges[k].since > wakeAfter)
    && (forall k | 0 < k < |nudges| :: nudges[k].at - nudges[k - 1].at > wakeAfter)
  }

  predicate Follows(last: Option<Nudge>, n: Nudge, wakeAfter: int) {
    n.at - n.since > wakeAfter && (last.Some? ==> n.at - last.value.at > wakeAfter)
  }

  /** What the row remembers of the previous nudge: its instant, or a later start. */
  predicate Remembers(row: Option<Episode>, last: Option<Nudge>) {
    row.Some? && last.Some? ==>
      if row.value.emitted.Some? then row.value.emitted.value == last.value.at
      else row.value.blockedSince >= last.value.at
  }

  function LastOf(nudges: seq<Nudge>): Option<Nudge> {
    if nudges == [] then None else Some(nudges[|nudges| - 1])
  }

  lemma SpacingStep(row: Option<Episode>, s: Sighting, wakeAfter: int, last: Option<Nudge>)
    requires wakeAfter > 0 && Remembers(row, last)
    requires last.Some? ==> last.value.at <= s.now && last.value.at <= s.observedAt
    ensures !Emits(row, s, wakeAfter) ==> Remembers(Next(row, s, wakeAfter), last)
    ensures Emits(row, s, wakeAfter) ==> Follows(last, NudgeOf(row, s), wakeAfter)
    ensures Emits(row, s, wakeAfter) ==> Remembers(Next(row, s, wakeAfter), Some(NudgeOf(row, s)))
  {
  }

  lemma SpacedSnoc(past: seq<Nudge>, n: Nudge, wakeAfter: int)
    requires Spaced(past, wakeAfter) && Follows(LastOf(past), n, wakeAfter)
    ensures Spaced(past + [n], wakeAfter) && LastOf(past + [n]) == Some(n)
  {
  }

  /** The last nudge is no later than anything that follows. */
  predicate Before(last: Option<Nudge>, sightings: seq<Sighting>) {
    last.Some? && sightings != [] ==> last.value.at <= sightings[0].now && last.value.at <= sightings[0].observedAt
  }

  lemma OrderedTail(sightings: seq<Sighting>, last: Option<Nudge>)
    requires sightings != [] && Ordered(sightings) && Before(last, sightings)
    ensures Ordered(sightings[1..]) && Before(last, sightings[1..])
    ensures forall n: Nudge :: n.at == sightings[0].now ==> Before(Some(n), sightings[1..])
  {
    var rest := sightings[1..];
    forall i, j | 0 <= i < j < |rest|
      ensures Precedes(rest[i], rest[j])
    {
      assert Precedes(sightings[i + 1], sightings[j + 1]);
    }
    if rest != [] {
      assert Precedes(sightings[0], sightings[1]);
      assert last.Some? ==> last.value.at <= sightings[0].now;
    }
  }

  lemma {:induction false} SpacingFrom(row: Option<Episode>, sightings: seq<Sighting>, wakeAfter: int, past: seq<Nudge>)
    requires wakeAfter > 0 && Ordered(sightings) && Spaced(past, wakeAfter)
    requires Remembers(row, LastOf(past)) && Before(LastOf(past), sightings)
    ensures Spaced(past + Nudges(row, sightings, wakeAfter), wakeAfter)
    decreases |sightings|
  {
    if sightings == [] {
      assert past + [] == past;
    } else {
      var s, rest := sightings[0], sightings[1..];
      var next := Next(row, s, wakeAfter);
      var more := Nudges(next, rest, wakeAfter);
      SpacingStep(row, s, wakeAfter, LastOf(past));
      OrderedTail(sightings, LastOf(past));
      if Emits(row, s, wakeAfter) {
        SpacedSnoc(past, NudgeOf(row, s), wakeAfter);
        SpacingFrom(next, rest, wakeAfter, past + [NudgeOf(row, s)]);
        assert past + [NudgeOf(row, s)] + more == past + ([NudgeOf(row, s)] + more);
      } else {
        SpacingFrom(next, rest, wakeAfter, past);
        assert [] + more == more;
      }
    }
  }

  /** The spacing of nudges over a whole run, across clears and re-blocks: each
      comes more than `wakeAfter` after its episode began and after the one before. */
  lemma NudgesAreSpaced(sightings: seq<Sighting>, wakeAfter: int)
    requires wakeAfter > 0 && Ordered(sightings)
    ensures Spaced(Nudges(None, sightings, wakeAfter), wakeAfter)
  {
    SpacingFrom(None, sightings, wakeAfter, []);
    assert [] + Nudges(None, sightings, wakeAfter) == Nudges(None, sightings, wakeAfter);
  }

  // ---- whole runs of evaluations of one table -------------------------------------------

  /** Each table is what the evaluation of the one before leaves. */
  ghost predicate Evaluations(tables: seq<map<string, Episode>>, ticks: seq<Tick>, logs: seq<seq<string>>,
                              wakeAfter: int)
  {
    && |tables| == |ticks| + 1 && |logs| == |ticks|
    && forall k | 0 <= k < |ticks| :: Evaluated(tables[k], ticks[k], wakeAfter, tables[k + 1], logs[k])
  }

  function Sights(ticks: seq<Tick>, subject: string): (s: seq<Sighting>)
    ensures |s| == |ticks| && forall k | 0 <= k < |s| :: s[k] == Sight(ticks[k], subject)
  {
    seq(|ticks|, k requires 0 <= k < |ticks| => Sight(ticks[k], subject))
  }

  /** When the subject was nudged. */
  function Told(ticks: seq<Tick>, logs: seq<seq<string>>, subject: string): seq<int>
    requires |logs| == |ticks|
  {
    if ticks == [] then []
    else (if subject in logs[0] then [ticks[0].now] else []) + Told(ticks[1..], logs[1..], subject)
  }

  function Instants(nudges: seq<Nudge>): (at: seq<int>)
    ensures |at| == |nudges| && forall k | 0 <= k < |at| :: at[k] == nudges[k].at
  {
    seq(|nudges|, k requires 0 <= k < |nudges| => nudges[k].at)
  }

  lemma RunCons(row: Option<Episode>, s: Sighting, rest: seq<Sighting>, wakeAfter: int)
    ensures Rows(row, [s] + rest, wakeAfter) == Rows(Next(row, s, wakeAfter), rest, wakeAfter)
    ensures Instants(Nudges(row, [s] + rest, wakeAfter))
         == (if Emits(row, s, wakeAfter) then [s.now] else [])
            + Instants(Nudges(Next(row, s, wakeAfter), rest, wakeAfter))
  {
    assert ([s] + rest)[1..] == rest;
  }

  lemma ToldCons(t: Tick, ticks: seq<Tick>, log: seq<string>, logs: seq<seq<string>>, subject: string)
    requires |logs| == |ticks|
    ensures Told([t] + ticks, [log] + logs, subject)
         == (if subject in log then [t.now] else []) + Told(ticks, logs, subject)
  {
    assert ([t] + ticks)[1..] == ticks && ([log] + logs)[1..] == logs;
  }

  lemma EvaluationsTail(tables: seq<map<string, Episode>>, ticks: seq<Tick>, logs: seq<seq<string>>, wakeAfter: int)
    requires Evaluations(tables, ticks, logs, wakeAfter) && ticks != []
    ensures Evaluated(tables[0], ticks[0], wakeAfter, tables[1], logs[0])
    ensures Evaluations(tables[1..], ticks[1..], logs[1..], wakeAfter)
  {
    forall k | 0 <= k < |ticks[1..]|
      ensures Evaluated(tables[1..][k], ticks[1..][k], wakeAfter, tables[1..][k + 1], logs[1..][k])
    {
      assert Evaluated(tables[k + 1], ticks[k + 1], wakeAfter, tables[k + 2], logs[k + 1]);
    }
  }

  /** The row of a role runs through its sightings, and its nudges are those of the
      run. */
  lemma {:induction false} EvaluationsAreARun(tables: seq<map<string, Episode>>, ticks: seq<Tick>,
                                              logs: seq<seq<string>>, wakeAfter: int, subject: string)
    requires Evaluations(tables, ticks, logs, wakeAfter) && ROLE <= subject
    ensures Row(tables[|ticks|], subject) == Rows(Row(tables[0], subject), Sights(ticks, subject), wakeAfter)
    ensures Told(ticks, logs, subject) == Instants(Nudges(Row(tables[0], subject), Sights(ticks, subject), wakeAfter))
    decreases |ticks|
  {
    if ticks != [] {
      EvaluationsTail(tables, ticks, logs, wakeAfter);
      EvaluationsAreARun(tables[1..], ticks[1..], logs[1..], wakeAfter, subject);
      assert Sights(ticks, subject) == [Sight(ticks[0], subject)] + Sights(ticks[1..], subject);
      assert ticks == [ticks[0]] + ticks[1..] && logs == [logs[0]] + logs[1..];
      RunCons(Row(tables[0], subject), Sight(ticks[0], subject), Sights(ticks[1..], subject), wakeAfter);
      ToldCons(ticks[0], ticks[1..], logs[0], logs[1..], subject);
    }
  }

  predicate TicksOrdered(ticks: seq<Tick>) {
    forall i, j :: 0 <= i < j < |ticks| ==> ticks[i].now <= ticks[j].now && ticks[i].now <= ticks[j].observedAt
  }

  /** However the evaluations of a table that was empty go, with a monotone clock no
      role is nudged twice within the interval. */
  lemma EvaluationsAreSpaced(tables: seq<map<string, Episode>>, ticks: seq<Tick>, logs: seq<seq<string>>,
                             wakeAfter: int, subject: string)
    requires Evaluations(tables, ticks, logs, wakeAfter) && ROLE <= subject && tables[0] == map[]
    requires wakeAfter > 0 && TicksOrdered(ticks)
    ensures var told := Told(ticks, logs, subject);
            forall k | 0 < k < |told| :: told[k] - told[k - 1] > wakeAfter
  {
    EvaluationsAreARun(tables, ticks, logs, wakeAfter, subject);
    NudgesAreSpaced(Sights(ticks, subject), wakeAfter);
  }

  // ---- an evaluation, told from the entries of its snapshot ------------------------------

  predicate Seen(entries: seq<Entry>, role: string, state: State) {
    exists e :: e in entries && TrimSpace(e.role) == role && e.state == state
  }

  /** Seen blocked, with the episode stored. */
  predicate SeenStored(entries: seq<Entry>, role: string) {
    exists e :: e in entries && TrimSpace(e.role) == role && e.state == Blocked && e.stored
  }

  predicate SeenUnblocked(entries: seq<Entry>, role: string) {
    Seen(entries, role, Idle) || Seen(entries, role, Working) || Seen(entries, role, Finished)
  }

  const FIVE_MINUTES := 300_000_000_000

  lemma SightTells(t: Tick, role: string)
    requires role != ""
    ensures var s := Sight(t, "role:" + role);
            && (s.blocked <==> Seen(t.entries, role, Blocked)) && (s.ready <==> SeenStored(t.entries, role))
            && (s.confirmed <==> SeenUnblocked(t.entries, role))
  {
    forall e: Entry
      ensures Concerns(e, "role:" + role) <==> TrimSpace(e.role) == role
    {
      assert ("role:" + TrimSpace(e.role))[5..] == TrimSpace(e.role) && ("role:" + role)[5..] == role;
    }
  }

  /** A role that no entry shows blocked loses its episode exactly when an entry
      shows it idle, working or done, or when it was last seen five minutes ago; an
      unknown state is no such entry. Otherwise its row stays, and it is not nudged. */
  lemma NotSeenBlocked(rows: map<string, Episode>, t: Tick, wakeAfter: int, after: map<string, Episode>,
                       emitted: seq<string>, role: string)
    requires Evaluated(rows, t, wakeAfter, after, emitted) && role != "" && !Seen(t.entries, role, Blocked)
    ensures var s := "role:" + role;
            && s !in emitted
            && (s in after <==> s in rows
                                && !(t.listed && s !in t.clearFails
                                     && (SeenUnblocked(t.entries, role) || t.now - rows[s].updatedAt >= FIVE_MINUTES)))
            && (s in after ==> after[s] == rows[s])
  {
    var s := "role:" + role;
    SightTells(t, role);
    assert !SeenStored(t.entries, role);
    assert ROLE <= s && Row(after, s) == Next(Row(rows, s), Sight(t, s), wakeAfter);
  }

  /** A role seen blocked keeps the start of its episode, or begins one at the time of
      the snapshot; it is nudged exactly when it has been blocked, and not been
      nudged, for longer than the interval. */
  lemma SeenBlocked(rows: map<string, Episode>, t: Tick, wakeAfter: int, after: map<string, Episode>,
                    emitted: seq<string>, role: string)
    requires Evaluated(rows, t, wakeAfter, after, emitted) && role != "" && SeenStored(t.entries, role)
    ensures var s := "role:" + role;
            var since := if s in rows then rows[s].blockedSince else t.observedAt;
            var last := if s in rows then rows[s].emitted else None;
            && (s in emitted <==> t.listed && s !in t.markFails && t.now - since > wakeAfter
                                  && (last.None? || t.now - last.value > wakeAfter))
            && s in after && after[s] == Episode(since, if s in emitted then Some(t.now) else last, t.now)
  {
    var s := "role:" + role;
    SightTells(t, role);
    assert Seen(t.entries, role, Blocked);
    assert ROLE <= s && Row(after, s) == Next(Row(rows, s), Sight(t, s), wakeAfter);
  }

  /** When the episode could not be stored, nothing happens to the role. */
  lemma SeenButNotStored(rows: map<string, Episode>, t: Tick, wakeAfter: int, after: map<string, Episode>,
                         emitted: seq<string>, role: string)
    requires Evaluated(rows, t, wakeAfter, after, emitted) && role != ""
    requires Seen(t.entries, role, Blocked) && !SeenStored(t.entries, role)
    ensures var s := "role:" + role; s !in emitted && Row(after, s) == Row(rows, s)
  {
    var s := "role:" + role;
    SightTells(t, role);
    assert ROLE <= s && Row(after, s) == Next(Row(rows, s), Sight(t, s), wakeAfter);
  }

  /** Entries without a role open no episode and are never nudged for. */
  lemma NamelessOpensNothing(rows: map<string, Episode>, t: Tick, wakeAfter: int, after: map<string, Episode>,
                             emitted: seq<string>)
    requires Evaluated(rows, t, wakeAfter, after, emitted)
    ensures "role:" !in emitted && ("role:" in after ==> "role:" in rows && after["role:"] == rows["role:"])
  {
    var s := "role:";
    forall e: Entry
      ensures !Concerns(e, s)
    {
      if TrimSpace(e.role) != "" {
        assert |"role:" + TrimSpace(e.role)| > |s|;
      }
    }
    assert ROLE <= s && Row(after, s) == Next(Row(rows, s), Sight(t, s), wakeAfter);
  }

  // ---- and so for whole runs ----------------------------------------------------------------

  /** The role's entries are unknown, or there are none, within the gap. */
  predicate Ambiguous(t: Tick, role: string, lastSeen: int) {
    && (forall e | e in t.entries && TrimSpace(e.role) == role :: e.state == Unknown)
    && t.now - lastSeen < FIVE_MINUTES
  }

  lemma AmbiguousIsUnseen(t: Tick, role: string, lastSeen: int)
    requires Ambiguous(t, role, lastSeen)
    ensures !Seen(t.entries, role, Blocked) && !SeenUnblocked(t.entries, role)
  {
  }

  /** Unknown and absent observations inside the gap leave the whole row alone. */
  lemma {:induction false} UnknownKeepsTheRow(tables: seq<map<string, Episode>>, ticks: seq<Tick>,
                                              logs: seq<seq<string>>, wakeAfter: int, role: string)
    requires Evaluations(tables, ticks, logs, wakeAfter) && role != "" && "role:" + role in tables[0]
    requires forall t | t in ticks :: Ambiguous(t, role, tables[0]["role:" + role].updatedAt)
    ensures var s := "role:" + role; s in tables[|ticks|] && tables[|ticks|][s] == tables[0][s]
    ensures Told(ticks, logs, "role:" + role) == []
    decreases |ticks|
  {
    if ticks != [] {
      assert ticks[0] in ticks;
      EvaluationsTail(tables, ticks, logs, wakeAfter);
      AmbiguousIsUnseen(ticks[0], role, tables[0]["role:" + role].updatedAt);
      NotSeenBlocked(tables[0], ticks[0], wakeAfter, tables[1], logs[0], role);
      UnknownKeepsTheRow(tables[1..], ticks[1..], logs[1..], wakeAfter, role);
    }
  }

  /** Each tick sees the role blocked, or is ambiguous within the gap of the last
      one that stored a blocked observation. */
  predicate Blips(ticks: seq<Tick>, role: string, lastSeen: int)
    decreases |ticks|
  {
    ticks != [] ==>
      && (Seen(ticks[0].entries, role, Blocked) || Ambiguous(ticks[0], role, lastSeen))
      && Blips(ticks[1..], role, if SeenStored(ticks[0].entries, role) then ticks[0].now else lastSeen)
  }

  lemma BlipKeepsTheStart(rows: map<string, Episode>, t: Tick, wakeAfter: int, after: map<string, Episode>,
                          emitted: seq<string>, role: string)
    requires Evaluated(rows, t, wakeAfter, after, emitted) && role != "" && "role:" + role in rows
    requires Seen(t.entries, role, Blocked) || Ambiguous(t, role, rows["role:" + role].updatedAt)
    ensures var s := "role:" + role;
            && s in after && after[s].blockedSince == rows[s].blockedSince
            && after[s].updatedAt == if SeenStored(t.entries, role) then t.now else rows[s].updatedAt
  {
    if SeenStored(t.entries, role) {
      SeenBlocked(rows, t, wakeAfter, after, emitted, role);
    } else if Seen(t.entries, role, Blocked) {
      SeenButNotStored(rows, t, wakeAfter, after, emitted, role);
    } else {
      AmbiguousIsUnseen(t, role, rows["role:" + role].updatedAt);
      NotSeenBlocked(rows, t, wakeAfter, after, emitted, role);
    }
  }

  /** Such a run never resets the start of the episode. */
  lemma {:induction false} BlipsNeverReset(tables: seq<map<string, Episode>>, ticks: seq<Tick>,
                                           logs: seq<seq<string>>, wakeAfter: int, role: string)
    requires Evaluations(tables, ticks, logs, wakeAfter) && role != "" && "role:" + role in tables[0]
    requires Blips(ticks, role, tables[0]["role:" + role].updatedAt)
    ensures var s := "role:" + role;
            s in tables[|ticks|] && tables[|ticks|][s].blockedSince == tables[0][s].blockedSince
    decreases |ticks|
  {
    if ticks != [] {
      EvaluationsTail(tables, ticks, logs, wakeAfter);
      BlipKeepsTheStart(tables[0], ticks[0], wakeAfter, tables[1], logs[0], role);
      BlipsNeverReset(tables[1..], ticks[1..], logs[1..], wakeAfter, role);
    }
  }

  // ---- when episodes close and nudges come ----------------------------------------------

  /** An evaluation closes an episode exactly when the subject is not seen blocked
      and is seen definitely unblocked, or was last seen a stale gap ago. */
  lemma ClosesIff(e: Episode, s: Sighting, wakeAfter: int)
    requires s.ready ==> s.blocked
    ensures Next(Some(e), s, wakeAfter).None?
       <==> s.listed && s.clears && !s.blocked && (s.confirmed || s.now - e.updatedAt >= STALE_GAP)
    ensures Next(Some(e), s, wakeAfter).Some? ==> Next(Some(e), s, wakeAfter).value.blockedSince == e.blockedSince
  {
  }

  /** Sightings that leave the subject ambiguous, each within the gap of the last
      evaluation that saw it blocked. */
  predicate Tolerable(lastSeen: int, sightings: seq<Sighting>)
    decreases |sightings|
  {
    sightings != [] ==>
      var s := sightings[0];
      && (s.ready ==> s.blocked)
      && (s.blocked || (!s.confirmed && s.now - lastSeen < STALE_GAP))
      && Tolerable(if s.ready then s.now else lastSeen, sightings[1..])
  }

  /** Unknown or absent observations inside the gap never reset `blockedSince`. */
  lemma {:induction false} BlipsKeepTheStart(e: Episode, sightings: seq<Sighting>, wakeAfter: int)
    requires Tolerable(e.updatedAt, sightings)
    ensures var r := Rows(Some(e), sightings, wakeAfter); r.Some? && r.value.blockedSince == e.blockedSince
    decreases |sightings|
  {
    if sightings != [] {
      var s := sightings[0];
      ClosesIff(e, s, wakeAfter);
      BlipsKeepTheStart(Next(Some(e), s, wakeAfter).value, sightings[1..], wakeAfter);
    }
  }

  /** A dropped or failed nudge heals: an open episode that is seen blocked again
      after the interval is nudged at the first evaluation that can mark it. */
  lemma NudgedAgainIff(e: Episode, s: Sighting, wakeAfter: int)
    requires s.ready && s.blocked && s.listed && wakeAfter > 0
    ensures Emits(Some(e), s, wakeAfter)
       <==> s.marks && s.now - e.blockedSince > wakeAfter && (e.emitted == None || s.now - e.emitted.value > wakeAfter)
    ensures !s.marks ==> Next(Some(e), s, wakeAfter) == Some(e.(updatedAt := s.now))
  {
  }
}
