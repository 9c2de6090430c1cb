/** Bulk pulls of remote templates into the local store. */
module TemplatePull {
  import opened Basics
  import opened Text

  datatype Template = Template(content: string, commit: string)

  datatype Kind = Installed | Updated | Unchanged | Skipped | Failed

  datatype Outcome = Outcome(id: string, kind: Kind, commit: string)

  type Rows = map<string, Template>

  /** The remote at one moment, and which store calls fail: `fetch` is None when the
      template cannot be fetched or parsed. */
  datatype World = World(
    builtin: set<string>, retired: set<string>, invalid: set<string>,
    fetch: string -> Option<Template>, readFails: set<string>, writeFails: set<string>)

  // ---- one template -------------------------------------------------------------------

  /** What comparing the remote template with the stored one says, before any write. */
  function Judge(w: World, rows: Rows, id: string): Outcome {
    if id in w.builtin || id in w.retired then Outcome(id, Skipped, "")
    else if id in w.invalid || w.fetch(id).None? || id in w.readFails then Outcome(id, Failed, "")
    else
      var fetched := w.fetch(id).value;
      var kind :=
        if id !in rows then Installed else if rows[id].content == fetched.content then Unchanged else Updated;
      Outcome(id, kind, fetched.commit)
  }

  /** The template differs from the stored one and would be written. */
  predicate Pending(w: World, rows: Rows, id: string) {
    Judge(w, rows, id).kind.Installed? || Judge(w, rows, id).kind.Updated?
  }

  function ResultOf(w: World, rows: Rows, id: string, dryRun: bool): Outcome {
    if !dryRun && Pending(w, rows, id) && id in w.writeFails then Outcome(id, Failed, "") else Judge(w, rows, id)
  }

  function RowsAfter(w: World, rows: Rows, id: string, dryRun: bool): Rows {
    if !dryRun && Pending(w, rows, id) && id !in w.writeFails then rows[id := w.fetch(id).value] else rows
  }

  // ---- a batch ----------------------------------------------------------------------------

  function Results(w: World, rows: Rows, ids: seq<string>, dryRun: bool): seq<Outcome>
    decreases |ids|
  {
    if ids == [] then []
    else [ResultOf(w, rows, ids[0], dryRun)] + Results(w, RowsAfter(w, rows, ids[0], dryRun), ids[1..], dryRun)
  }

  function Final(w: World, rows: Rows, ids: seq<string>, dryRun: bool): Rows
    decreases |ids|
  {
    if ids == [] then rows else Final(w, RowsAfter(w, rows, ids[0], dryRun), ids[1..], dryRun)
  }

  /** The named ids that are not blank. */
  function Named(ids: seq<string>): seq<string> {
    if ids == [] then []
    else (if TrimSpace(ids[0]) == "" then [] else [TrimSpace(ids[0])]) + Named(ids[1..])
  }

  /** The batch: the named ids, or without any the remote listing. */
  function Selected(ids: seq<string>, discovered: Option<seq<string>>): Option<seq<string>> {
    if Named(ids) == [] then discovered else Some(Named(ids))
  }

  lemma NamedNext(done: seq<string>, ids: seq<string>, k: nat)
    requires k < |ids|
    ensures done + Named(ids[k..])
         == done + (if TrimSpace(ids[k]) == "" then [] else [TrimSpace(ids[k])]) + Named(ids[k + 1..])
  {
    assert ids[k..][1..] == ids[k + 1..];
  }

  method TrimIds(ids: seq<string>) returns (selected: seq<string>)
    ensures selected == Named(ids)
  {
    selected := [];
    for k := 0 to |ids|
      invariant selected + Named(ids[k..]) == Named(ids)
    {
      NamedNext(selected, ids, k);
      var trimmed := TrimSpace(ids[k]);
      if trimmed != "" {
        selected := selected + [trimmed];
      } else {
        assert selected + [] == selected;
      }
    }
  }

  /** The local template table. */
  class Store {
    var rows: Rows

    constructor (rows: Rows)
      ensures this.rows == rows
    {
      this.rows := rows;
    }

    method PullOne(w: World, id: string, dryRun: bool) returns (r: Outcome)
      modifies this
      ensures r == ResultOf(w, old(rows), id, dryRun)
      ensures rows == RowsAfter(w, old(rows), id, dryRun)
    {
      if id in w.builtin || id in w.retired {
        return Outcome(id, Skipped, "");
      }
      if id in w.invalid {
        return Outcome(id, Failed, "");
      }
      var fetched := w.fetch(id);
      if fetched.None? || id in w.readFails {
        return Outcome(id, Failed, "");
      }
      var commit := fetched.value.commit;
      var hasExisting := id in rows;
      if hasExisting && rows[id].content == fetched.value.content {
        return Outcome(id, Unchanged, commit);
      }
      var kind := if hasExisting then Updated else Installed;
      if dryRun {
        return Outcome(id, kind, commit);
      }
      if id in w.writeFails {
        return Outcome(id, Failed, "");
      }
      rows := rows[id := fetched.value];
      return Outcome(id, kind, commit);
    }

    /** `Pull`; `discovered` is the remote listing, None if it fails. */
    method Pull(w: World, ids: seq<string>, discovered: Option<seq<string>>, dryRun: bool)
      returns (r: Option<seq<Outcome>>)
      modifies this
      ensures var selected := Selected(ids, discovered);
              if selected.None? then r == None && rows == old(rows)
              else r == Some(Results(w, old(rows), selected.value, dryRun))
                   && rows == Final(w, old(rows), selected.value, dryRun)
    {
      var selected := TrimIds(ids);
      if selected == [] {
        if discovered.None? {
          return None;
        }
        selected := discovered.value;
      }
      var results := PullAll(w, selected, dryRun);
      return Some(results);
    }

    /** The loop of `Pull`. */
    method PullAll(w: World, ids: seq<string>, dryRun: bool) returns (results: seq<Outcome>)
      modifies this
      ensures results == Results(w, old(rows), ids, dryRun)
      ensures rows == Final(w, old(rows), ids, dryRun)
    {
      results := [];
      for k := 0 to |ids|
        invariant results + Results(w, rows, ids[k..], dryRun) == Results(w, old(rows), ids, dryRun)
        invariant Final(w, rows, ids[k..], dryRun) == Final(w, old(rows), ids, dryRun)
      {
        assert ids[k..][1..] == ids[k + 1..] && ids[k..][0] == ids[k];
        var r := PullOne(w, ids[k], dryRun);
        assert results + ([r] + Results(w, rows, ids[k + 1..], dryRun))
            == results + [r] + Results(w, rows, ids[k + 1..], dryRun);
        results := results + [r];
      }
    }
  }

  // ---- what a pull does, told from the remote and the table ----------------------------------

  /** Nothing keeps this id from being pulled. */
  predicate Pullable(w: World, id: string) {
    && id !in w.builtin && id !in w.retired && id !in w.invalid
    && w.fetch(id).Some? && id !in w.readFails && id !in w.writeFails
  }

  /** A pull leaves the fetched content in the table, and reports whether the id was
      absent, stored with another content, or stored with this one; only the last
      writes nothing. */
  lemma PullStoresTheFetched(w: World, rows: Rows, id: string)
    requires Pullable(w, id)
    ensures var r, after, fetched := ResultOf(w, rows, id, false), RowsAfter(w, rows, id, false), w.fetch(id).value;
            && id in after && after[id].content == fetched.content && r.id == id && r.commit == fetched.commit
            && (r.kind == Installed <==> id !in rows)
            && (r.kind == Updated <==> id in rows && rows[id].content != fetched.content)
            && (r.kind == Unchanged <==> id in rows && rows[id].content == fetched.content)
            && after == if id in rows && rows[id].content == fetched.content then rows else rows[id := fetched]
  {
    var fetched := w.fetch(id).value;
    if id in rows && rows[id].content == fetched.content {
      assert !Pending(w, rows, id);
    } else {
      assert Pending(w, rows, id);
    }
  }

  /** Exactly when an id is skipped or fails; the table is then as it was. */
  lemma SkippedOrFailedIff(w: World, rows: Rows, id: string, dryRun: bool)
    ensures var r := ResultOf(w, rows, id, dryRun);
            var skipped := id in w.builtin || id in w.retired;
            var unread := id in w.invalid || w.fetch(id) == None || id in w.readFails;
            && (r.kind == Skipped <==> skipped)
            && (r.kind == Failed <==>
                  && !skipped
                  && (unread || (!dryRun && id in w.writeFails
                                 && !(id in rows && rows[id].content == w.fetch(id).value.content))))
            && (r.kind == Skipped || r.kind == Failed ==> RowsAfter(w, rows, id, dryRun) == rows)
  {
    assert Pending(w, rows, id) <==>
      && !(id in w.builtin || id in w.retired || id in w.invalid || w.fetch(id).None? || id in w.readFails)
      && !(id in rows && rows[id].content == w.fetch(id).value.content);
  }

  /** After a batch every id of it that can be pulled is stored as fetched, and
      everything else is as it was. */
  lemma BatchStoresTheFetched(w: World, rows: Rows, ids: seq<string>, id: string)
    ensures var after := Final(w, rows, ids, false);
            && (id in ids && Pullable(w, id) ==> id in after && after[id].content == w.fetch(id).value.content)
            && (id !in ids || !Pullable(w, id) ==> Row(after, id) == Row(rows, id))
  {
    FinalRow(w, rows, ids, id);
    if Pullable(w, id) {
      PullStoresTheFetched(w, rows, id);
    }
  }

  /** The batch holds the named ids that are not blank, trimmed. */
  lemma {:induction false} NamedIff(ids: seq<string>, id: string)
    ensures id in Named(ids) <==> id != "" && exists x :: x in ids && TrimSpace(x) == id
    decreases |ids|
  {
    if ids != [] {
      assert ids == [ids[0]] + ids[1..];
      NamedIff(ids[1..], id);
      if x :| x in ids && TrimSpace(x) == id {
        assert x == ids[0] || x in ids[1..];
      }
      assert ids[0] in ids;
    }
  }

  /** In their order. */
  lemma {:induction false} NamedAppend(a: seq<string>, b: seq<string>)
    ensures Named(a + b) == Named(a) + Named(b)
    decreases |a|
  {
    if a == [] {
      assert a + b == b;
    } else {
      assert (a + b)[1..] == a[1..] + b;
      NamedAppend(a[1..], b);
    }
  }

  lemma {:induction false} NothingNamedIff(ids: seq<string>)
    ensures Named(ids) == [] <==> forall id | id in ids :: TrimSpace(id) == ""
    decreases |ids|
  {
    if ids != [] {
      assert ids == [ids[0]] + ids[1..];
      NothingNamedIff(ids[1..]);
    }
  }

  /** When every id is blank, or there is none, the listing is pulled; otherwise the
      ids that are not blank, and no listing is needed. */
  lemma SelectedIff(ids: seq<string>, discovered: Option<seq<string>>)
    ensures Selected(ids, discovered)
         == if forall id | id in ids :: TrimSpace(id) == "" then discovered else Some(Named(ids))
  {
    NothingNamedIff(ids);
  }

  // ---- dry runs, and pulling twice ------------------------------------------------------------

  /** A dry run leaves the store unchanged. */
  lemma {:induction false} DryRunWritesNothing(w: World, rows: Rows, ids: seq<string>)
    ensures Final(w, rows, ids, true) == rows
    decreases |ids|
  {
    if ids != [] {
      DryRunWritesNothing(w, rows, ids[1..]);
    }
  }

  function Row(rows: Rows, id: string): Option<Template> { if id in rows then Some(rows[id]) else None }

  /** A pull stores exactly the pending templates of the batch whose write succeeds. */
  lemma {:induction false} FinalRow(w: World, rows: Rows, ids: seq<string>, id: string)
    ensures Row(Final(w, rows, ids, false), id)
         == if id in ids && Pending(w, rows, id) && id !in w.writeFails then w.fetch(id) else Row(rows, id)
    decreases |ids|
  {
    if ids != [] {
      assert ids == [ids[0]] + ids[1..];
      FinalRow(w, RowsAfter(w, rows, ids[0], false), ids[1..], id);
    }
  }

  /** What a later pull of the same batch reports, given the first result. */
  function Again(first: Outcome): Outcome {
    if first.kind.Installed? || first.kind.Updated? then first.(kind := Unchanged) else first
  }

  lemma {:induction false} ResultsAfter(w: World, rows: Rows, stored: Rows, ids: seq<string>)
    requires forall id | id in ids ::
      Row(stored, id) == if Pending(w, rows, id) && id !in w.writeFails then w.fetch(id) else Row(rows, id)
    ensures Results(w, stored, ids, false)
         == seq(|ids|, k requires 0 <= k < |ids| => Again(ResultOf(w, rows, ids[k], false)))
    ensures Final(w, stored, ids, false) == stored
    decreases |ids|
  {
    if ids != [] {
      var id := ids[0];
      assert ids == [id] + ids[1..];
      assert ResultOf(w, stored, id, false) == Again(ResultOf(w, rows, id, false));
      assert RowsAfter(w, stored, id, false) == stored by {
        SettledStays(w, rows, stored, id);
      }
      ResultsAfter(w, rows, stored, ids[1..]);
    }
  }

  lemma SettledStays(w: World, rows: Rows, stored: Rows, id: string)
    requires Row(stored, id) == if Pending(w, rows, id) && id !in w.writeFails then w.fetch(id) else Row(rows, id)
    ensures Pending(w, stored, id) ==> id in w.writeFails
  {
  }

  /** A second pull of the same batch writes nothing, and reports every template
      that was fetched and stored or already equal as unchanged. */
  lemma SecondPullIsQuiet(w: World, rows: Rows, ids: seq<string>)
    ensures var stored := Final(w, rows, ids, false);
            && Final(w, stored, ids, false) == stored
            && |Results(w, stored, ids, false)| == |ids|
            && forall k | 0 <= k < |ids| ::
                 Results(w, stored, ids, false)[k] == Again(ResultOf(w, rows, ids[k], false))
  {
    var stored := Final(w, rows, ids, false);
    forall id | id in ids
      ensures Row(stored, id) == if Pending(w, rows, id) && id !in w.writeFails then w.fetch(id) else Row(rows, id)
    {
      FinalRow(w, rows, ids, id);
    }
    ResultsAfter(w, rows, stored, ids);
  }

  /** Written at most once, and successfully. */
  predicate Foretold(w: World, rows: Rows, done: seq<string>, id: string) {
    Pending(w, rows, id) ==> id !in w.writeFails && id !in done
  }

  lemma {:induction false} AgreeFrom(w: World, rows: Rows, now: Rows, done: seq<string>, ids: seq<string>)
    requires forall id :: Row(now, id)
               == if id in done && Pending(w, rows, id) && id !in w.writeFails then w.fetch(id) else Row(rows, id)
    ensures Results(w, now, ids, false) == Results(w, rows, ids, true)
       <==> forall k | 0 <= k < |ids| :: Foretold(w, rows, done + ids[..k], ids[k])
    decreases |ids|
  {
    if ids != [] {
      var id, rest := ids[0], ids[1..];
      var next := RowsAfter(w, now, id, false);
      forall x
        ensures Row(next, x)
             == if x in done + [id] && Pending(w, rows, x) && x !in w.writeFails then w.fetch(x) else Row(rows, x)
      {
      }
      AgreeFrom(w, rows, next, done + [id], rest);
      assert done + ids[..0] == done;
      assert ResultOf(w, now, id, false) == ResultOf(w, rows, id, true) <==> Foretold(w, rows, done, id);
      HeadAndTail(w, rows, done, ids);
      ConsEqual(ResultOf(w, now, id, false), Results(w, next, rest, false),
                ResultOf(w, rows, id, true), Results(w, rows, rest, true));
    }
  }

  lemma ConsEqual<T>(a: T, s: seq<T>, b: T, t: seq<T>)
    ensures [a] + s == [b] + t <==> a == b && s == t
  {
    assert ([a] + s)[1..] == s && ([b] + t)[1..] == t && ([a] + s)[0] == a && ([b] + t)[0] == b;
  }

  lemma HeadAndTail(w: World, rows: Rows, done: seq<string>, ids: seq<string>)
    requires ids != []
    ensures (forall k | 0 <= k < |ids| :: Foretold(w, rows, done + ids[..k], ids[k]))
       <==> Foretold(w, rows, done, ids[0])
            && forall k | 0 <= k < |ids[1..]| :: Foretold(w, rows, done + [ids[0]] + ids[1..][..k], ids[1..][k])
  {
    var rest := ids[1..];
    assert done + ids[..0] == done;
    forall k | 0 <= k < |rest|
      ensures done + [ids[0]] + rest[..k] == done + ids[..k + 1] && rest[k] == ids[k + 1]
    {
    }
    if forall k | 0 <= k < |rest| :: Foretold(w, rows, done + [ids[0]] + rest[..k], rest[k]) {
      forall k | 0 < k < |ids|
        ensures Foretold(w, rows, done, ids[0]) ==> Foretold(w, rows, done + ids[..k], ids[k])
      {
        assert Foretold(w, rows, done + [ids[0]] + rest[..k - 1], rest[k - 1]);
      }
    }
  }

  /** The exact condition: a dry run reports what a real pull from the same store
      reports, id by id, if and only if every template that would be written is
      listed once and can be written. */
  lemma DryRunAgreesIff(w: World, rows: Rows, ids: seq<string>)
    ensures Results(w, rows, ids, false) == Results(w, rows, ids, true)
       <==> forall k | 0 <= k < |ids| :: Foretold(w, rows, ids[..k], ids[k])
  {
    AgreeFrom(w, rows, rows, [], ids);
    assert forall k | 0 <= k <= |ids| :: [] + ids[..k] == ids[..k];
  }
}
