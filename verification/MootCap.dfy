/** The message cap of a moot thread: agent sends check the cap and append in
    separate store calls, from any number of processes at once. */
module MootCap {
  import opened Basics

  /** One thread and the sends under way: `passed` may append, `seeing` were told
      that the cap is reached, `posting` found no overrun message. */
  datatype Thread = Thread(
    cap: int, messages: nat, overruns: nat, refused: nat,
    passed: set<string>, seeing: set<string>, posting: set<string>)

  /** The atomic store calls of a send by one sender; `Drop` is a failing call. */
  datatype Event = Check(id: string) | Append(id: string) | Look(id: string) | Post(id: string) | Drop(id: string)

  predicate Closed(t: Thread) { t.cap > 0 && t.messages >= t.cap }

  function Step(t: Thread, e: Event): Thread {
    match e
    case Check(id) =>
      if id in t.passed + t.seeing + t.posting then t
      else if Closed(t) then t.(seeing := t.seeing + {id}) else t.(passed := t.passed + {id})
    case Append(id) =>
      if id in t.passed then t.(messages := t.messages + 1, passed := t.passed - {id}) else t
    case Look(id) =>
      if id !in t.seeing then t
      else if t.overruns > 0 then t.(seeing := t.seeing - {id}, refused := t.refused + 1)
      else t.(seeing := t.seeing - {id}, posting := t.posting + {id})
    case Post(id) =>
      if id !in t.posting then t
      else t.(overruns := t.overruns + 1, refused := t.refused + 1, posting := t.posting - {id})
    case Drop(id) =>
      t.(passed := t.passed - {id}, seeing := t.seeing - {id}, posting := t.posting - {id})
  }

  function Run(t: Thread, events: seq<Event>): Thread
    decreases |events|
  {
    if events == [] then t else Run(Step(t, events[0]), events[1..])
  }

  function Opened(cap: int): Thread { Thread(cap, 0, 0, 0, {}, {}, {}) }

  /** A send that meets no other: `chatSendViaStore` with `enforceMootSendCap`. */
  class Room {
    const cap: int
    var messages: nat
    var overruns: nat
    var refused: nat

    function State(): Thread
      reads this
    {
      Thread(cap, messages, overruns, refused, {}, {}, {})
    }

    constructor (cap: int)
      ensures State() == Opened(cap)
    {
      this.cap := cap;
      messages, overruns, refused := 0, 0, 0;
    }

    /** `enforceMootSendCap`. */
    method Enforce() returns (ok: bool)
      modifies this
      ensures ok == !Closed(old(State()))
      ensures messages == old(messages)
      ensures overruns == (if ok || old(overruns) > 0 then old(overruns) else 1)
      ensures refused == old(refused) + if ok then 0 else 1
    {
      if cap <= 0 || messages < cap {
        return true;
      }
      if overruns == 0 {
        overruns := overruns + 1;
      }
      refused := refused + 1;
      return false;
    }

    method Send(id: string) returns (ok: bool)
      modifies this
      ensures ok == !Closed(old(State()))
      ensures State() == Run(old(State()), [Check(id), Append(id), Look(id), Post(id)])
    {
      ok := Enforce();
      if ok {
        messages := messages + 1;
      }
      FourSteps(old(State()), Check(id), Append(id), Look(id), Post(id));
      ghost var all := {id};
      assert all - {id} == {} && {} + {id} == all && ({} - {id}) == {};
    }
  }

  lemma FourSteps(t: Thread, a: Event, b: Event, c: Event, d: Event)
    ensures Run(t, [a, b, c, d]) == Step(Step(Step(Step(t, a), b), c), d)
  {
    var s1, s2, s3 := Step(t, a), Step(Step(t, a), b), Step(Step(Step(t, a), b), c);
    assert [a, b, c, d][1..] == [b, c, d] && [b, c, d][1..] == [c, d] && [c, d][1..] == [d] && [d][1..] == [];
    assert Run(t, [a, b, c, d]) == Run(s1, [b, c, d]);
    assert Run(s1, [b, c, d]) == Run(s2, [c, d]);
    assert Run(s2, [c, d]) == Run(s3, [d]);
    assert Run(s3, [d]) == Run(Step(s3, d), []);
  }

  // ---- what every interleaving keeps ----------------------------------------------------

  /** Only these senders take part. */
  predicate By(events: seq<Event>, senders: set<string>) {
    forall e | e in events :: e.id in senders
  }

  predicate Sound(t: Thread, senders: set<string>) {
    && t.cap > 0 && senders != {}
    && t.passed <= senders && t.posting <= senders
    && t.messages + |t.passed| <= t.cap + |senders| - 1
    && t.overruns + |t.posting| <= |senders|
    && (t.refused > 0 ==> t.overruns > 0)
  }

  lemma Removed(s: set<string>, id: string)
    ensures |s - {id}| == if id in s then |s| - 1 else |s|
  {
    assert id !in s ==> s - {id} == s;
  }

  lemma CheckKeeps(t: Thread, id: string, senders: set<string>)
    requires Sound(t, senders) && id in senders
    ensures Sound(Step(t, Check(id)), senders)
  {
    SubsetSize(t.passed + {id}, senders);
  }

  lemma LookKeeps(t: Thread, id: string, senders: set<string>)
    requires Sound(t, senders) && id in senders
    ensures Sound(Step(t, Look(id)), senders)
  {
    SubsetSize(t.posting + {id}, senders);
  }

  lemma LeaveKeeps(t: Thread, e: Event, senders: set<string>)
    requires Sound(t, senders) && (e.Append? || e.Post? || e.Drop?)
    ensures Sound(Step(t, e), senders)
  {
    Removed(t.passed, e.id);
    Removed(t.posting, e.id);
  }

  lemma StepKeeps(t: Thread, e: Event, senders: set<string>)
    requires Sound(t, senders) && e.id in senders
    ensures Sound(Step(t, e), senders) && Step(t, e).cap == t.cap
  {
    match e
    case Check(id) => CheckKeeps(t, id, senders);
    case Look(id) => LookKeeps(t, id, senders);
    case _ => LeaveKeeps(t, e, senders);
  }

  lemma {:induction false} RunKeeps(t: Thread, events: seq<Event>, senders: set<string>)
    requires Sound(t, senders) && By(events, senders)
    ensures Sound(Run(t, events), senders) && Run(t, events).cap == t.cap
    decreases |events|
  {
    if events != [] {
      StepKeeps(t, events[0], senders);
      RunKeeps(Step(t, events[0]), events[1..], senders);
    }
  }

  /** With k concurrent senders the thread never exceeds the cap by more than k - 1
      messages, posts at most k overrun messages, and at least one once a send was
      refused; with one sender both bounds are exact. */
  lemma CapHolds(cap: int, senders: set<string>, events: seq<Event>)
    requires cap > 0 && senders != {} && By(events, senders)
    ensures var t := Run(Opened(cap), events);
            && t.messages <= cap + |senders| - 1
            && t.overruns <= |senders|
            && (t.refused > 0 ==> t.overruns >= 1)
            && (|senders| == 1 ==> t.messages <= cap && t.overruns <= 1)
  {
    RunKeeps(Opened(cap), events, senders);
  }

  function UnderWay(t: Thread): nat { |t.passed| + |t.seeing| + |t.posting| }

  predicate Apart(t: Thread) { t.passed !! t.seeing && t.passed !! t.posting && t.seeing !! t.posting }

  predicate Takes(t: Thread, e: Event) { e.id in t.passed + t.seeing + t.posting }

  /** How many sends begin, and how many of them are dropped. */
  function Begun(t: Thread, events: seq<Event>): nat
    decreases |events|
  {
    if events == [] then 0
    else (if events[0].Check? && !Takes(t, events[0]) then 1 else 0) + Begun(Step(t, events[0]), events[1..])
  }

  function Dropped(t: Thread, events: seq<Event>): nat
    decreases |events|
  {
    if events == [] then 0
    else (if events[0].Drop? && Takes(t, events[0]) then 1 else 0) + Dropped(Step(t, events[0]), events[1..])
  }

  function Account(t: Thread): nat { t.messages + t.refused + UnderWay(t) }

  lemma Added(s: set<string>, id: string)
    requires id !in s
    ensures |s + {id}| == |s| + 1
  {
  }

  lemma CheckAccounts(t: Thread, id: string)
    requires Apart(t)
    ensures var t' := Step(t, Check(id));
            Apart(t') && Account(t') == Account(t) + if Takes(t, Check(id)) then 0 else 1
  {
    if !Takes(t, Check(id)) {
      Added(t.seeing, id);
      Added(t.passed, id);
    }
  }

  lemma DropAccounts(t: Thread, id: string)
    requires Apart(t)
    ensures var t' := Step(t, Drop(id));
            Apart(t') && Account(t') + (if Takes(t, Drop(id)) then 1 else 0) == Account(t)
  {
    Removed(t.passed, id);
    Removed(t.seeing, id);
    Removed(t.posting, id);
  }

  lemma AppendAccounts(t: Thread, id: string)
    requires Apart(t)
    ensures Apart(Step(t, Append(id))) && Account(Step(t, Append(id))) == Account(t)
  {
    Removed(t.passed, id);
  }

  lemma LookAccounts(t: Thread, id: string)
    requires Apart(t)
    ensures Apart(Step(t, Look(id))) && Account(Step(t, Look(id))) == Account(t)
  {
    if id in t.seeing {
      Removed(t.seeing, id);
      Added(t.posting, id);
    }
  }

  lemma PostAccounts(t: Thread, id: string)
    requires Apart(t)
    ensures Apart(Step(t, Post(id))) && Account(Step(t, Post(id))) == Account(t)
  {
    Removed(t.posting, id);
  }

  /** Every send that began is accounted for: its message is there, it was refused, it
      was dropped, or it is under way. */
  lemma {:induction false} SendsAreAccountedFor(t: Thread, events: seq<Event>)
    requires Apart(t)
    ensures var t' := Run(t, events);
            && Apart(t')
            && t'.messages + t'.refused + UnderWay(t') + Dropped(t, events)
            == t.messages + t.refused + UnderWay(t) + Begun(t, events)
    decreases |events|
  {
    if events != [] {
      match events[0] {
        case Check(id) => CheckAccounts(t, id);
        case Drop(id) => DropAccounts(t, id);
        case Append(id) => AppendAccounts(t, id);
        case Look(id) => LookAccounts(t, id);
        case Post(id) => PostAccounts(t, id);
      }
      SendsAreAccountedFor(Step(t, events[0]), events[1..]);
    }
  }

  /** Without a positive cap no send is ever refused. */
  lemma {:induction false} NoCapRefusesNone(t: Thread, events: seq<Event>)
    requires t.cap <= 0 && t.seeing == {} && t.posting == {}
    ensures var t' := Run(t, events); t'.refused == t.refused && t'.overruns == t.overruns && t'.seeing == {}
    decreases |events|
  {
    if events != [] {
      NoCapRefusesNone(Step(t, events[0]), events[1..]);
    }
  }

  // ---- the bound is attained -------------------------------------------------------------

  lemma {:induction false} RunAppend(t: Thread, a: seq<Event>, b: seq<Event>)
    ensures Run(t, a + b) == Run(Run(t, a), b)
    decreases |a|
  {
    if a == [] {
      assert a + b == b;
    } else {
      assert (a + b)[1..] == a[1..] + b;
      RunAppend(Step(t, a[0]), a[1..], b);
    }
  }

  function Waiting(cap: int, messages: nat, passed: set<string>): Thread {
    Thread(cap, messages, 0, 0, passed, {}, {})
  }

  /** One sender alone fills the thread up to n messages. */
  lemma {:induction false} Fills(cap: int, n: nat, id: string) returns (events: seq<Event>)
    requires n <= cap
    ensures Run(Opened(cap), events) == Waiting(cap, n, {})
    ensures forall e | e in events :: e.id == id
    decreases n
  {
    if n == 0 {
      events := [];
    } else {
      var before := Fills(cap, n - 1, id);
      var send := [Check(id), Append(id)];
      events := before + send;
      var t := Waiting(cap, n - 1, {});
      RunAppend(Opened(cap), before, send);
      assert send[1..] == [Append(id)] && [Append(id)][1..] == [];
      assert {} + {id} == {id} && {id} - {id} == {};
      assert Run(t, send) == Run(Step(t, Check(id)), [Append(id)]);
      assert Run(Step(t, Check(id)), [Append(id)]) == Run(Step(Step(t, Check(id)), Append(id)), []);
    }
  }

  /** All senders check before any appends. */
  lemma {:induction false} AllCheck(cap: int, n: nat, senders: set<string>,
                                    done: set<string>) returns (events: seq<Event>)
    requires n < cap && done !! senders
    ensures Run(Waiting(cap, n, done), events) == Waiting(cap, n, done + senders)
    ensures By(events, senders)
    decreases |senders|
  {
    events := [];
    if senders == {} {
      assert done + senders == done;
    } else {
      var id :| id in senders;
      var rest := AllCheck(cap, n, senders - {id}, done + {id});
      events := [Check(id)] + rest;
      assert events[1..] == rest;
      assert done + {id} + (senders - {id}) == done + senders;
    }
  }

  lemma {:induction false} AllAppend(cap: int, n: nat, senders: set<string>) returns (events: seq<Event>)
    ensures Run(Waiting(cap, n, senders), events) == Waiting(cap, n + |senders|, {})
    ensures By(events, senders)
    decreases |senders|
  {
    events := [];
    if senders != {} {
      var id :| id in senders;
      var rest := AllAppend(cap, n + 1, senders - {id});
      events := [Append(id)] + rest;
      assert events[1..] == rest;
    }
  }

  /** For every cap and every set of senders some interleaving reaches the bound. */
  lemma BoundIsAttained(cap: int, senders: set<string>) returns (events: seq<Event>)
    requires cap > 0 && senders != {}
    ensures By(events, senders)
    ensures Run(Opened(cap), events).messages == cap + |senders| - 1
  {
    var id :| id in senders;
    var fill := Fills(cap, cap - 1, id);
    var check := AllCheck(cap, cap - 1, senders, {});
    var append := AllAppend(cap, cap - 1, senders);
    assert {} + senders == senders;
    events := fill + (check + append);
    RunAppend(Opened(cap), fill, check + append);
    RunAppend(Waiting(cap, cap - 1, {}), check, append);
  }

  // ---- and so is the bound on overrun messages --------------------------------------------

  function Crowded(cap: int, overruns: nat, seeing: set<string>, posting: set<string>): Thread
    requires cap >= 0
  {
    Thread(cap, cap, overruns, overruns, {}, seeing, posting)
  }

  /** In a full thread every sender is told so. */
  lemma {:induction false} AllSee(cap: int, senders: set<string>, done: set<string>) returns (events: seq<Event>)
    requires cap > 0 && done !! senders
    ensures Run(Crowded(cap, 0, done, {}), events) == Crowded(cap, 0, done + senders, {})
    ensures By(events, senders)
    decreases |senders|
  {
    events := [];
    if senders == {} {
      assert done + senders == done;
    } else {
      var id :| id in senders;
      var rest := AllSee(cap, senders - {id}, done + {id});
      events := [Check(id)] + rest;
      assert events[1..] == rest;
      assert done + {id} + (senders - {id}) == done + senders;
    }
  }

  /** All look for the overrun message before any posts it. */
  lemma {:induction false} AllLook(cap: int, senders: set<string>, done: set<string>) returns (events: seq<Event>)
    requires cap > 0 && done !! senders
    ensures Run(Crowded(cap, 0, senders, done), events) == Crowded(cap, 0, {}, done + senders)
    ensures By(events, senders)
    decreases |senders|
  {
    events := [];
    if senders == {} {
      assert done + senders == done;
    } else {
      var id :| id in senders;
      var rest := AllLook(cap, senders - {id}, done + {id});
      events := [Look(id)] + rest;
      assert events[1..] == rest;
      assert done + {id} + (senders - {id}) == done + senders;
    }
  }

  lemma {:induction false} AllPost(cap: int, n: nat, senders: set<string>) returns (events: seq<Event>)
    requires cap > 0
    ensures Run(Crowded(cap, n, {}, senders), events) == Crowded(cap, n + |senders|, {}, {})
    ensures By(events, senders)
    decreases |senders|
  {
    events := [];
    if senders != {} {
      var id :| id in senders;
      var rest := AllPost(cap, n + 1, senders - {id});
      events := [Post(id)] + rest;
      assert events[1..] == rest;
    }
  }

  /** For every cap some interleaving posts the overrun message once per sender. */
  lemma NoticesAttained(cap: int, senders: set<string>) returns (events: seq<Event>)
    requires cap > 0 && senders != {}
    ensures By(events, senders) && Run(Opened(cap), events).overruns == |senders|
  {
    var id :| id in senders;
    var fill := Fills(cap, cap, id);
    var see := AllSee(cap, senders, {});
    var look := AllLook(cap, senders, {});
    var post := AllPost(cap, 0, senders);
    assert {} + senders == senders;
    events := fill + (see + (look + post));
    RunAppend(Opened(cap), fill, see + (look + post));
    RunAppend(Crowded(cap, 0, {}, {}), see, look + post);
    RunAppend(Crowded(cap, 0, senders, {}), look, post);
  }

  /** The overrun message is posted at most once in every run, and the cap is kept
      in every run, exactly when there is one sender. */
  lemma OneSenderIff(cap: int, senders: set<string>)
    requires cap > 0 && senders != {}
    ensures (forall events | By(events, senders) :: Run(Opened(cap), events).overruns <= 1) <==> |senders| == 1
    ensures (forall events | By(events, senders) :: Run(Opened(cap), events).messages <= cap) <==> |senders| == 1
  {
    var many := NoticesAttained(cap, senders);
    var full := BoundIsAttained(cap, senders);
    assert By(full, senders);
    forall events | By(events, senders)
      ensures |senders| == 1 ==> Run(Opened(cap), events).overruns <= 1 && Run(Opened(cap), events).messages <= cap
    {
      CapHolds(cap, senders, events);
    }
    assert |senders| > 0;
  }
}
