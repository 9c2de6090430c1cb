/** The auto-respond sweep for one thread and agent: a scan reads the completed
    replies, then the jobs in flight, then dispatches; jobs end, and their replies
    are posted, in between. Instants are in milliseconds. */
module AutoRespond {
  import opened Basics

  /** Where a scan is: `Counted` has read the replies, `Free` also found nothing in
      flight. Both remember the instant of the last reply as read. */
  datatype Scan = Resting | Counted(last: int) | Free(last: int)

  /** `running` jobs are queued or running; `unposted` jobs are terminal with their
      reply still to be posted; `notices` are cap messages. */
  datatype Lane = Lane(
    cap: int, cooldown: int, replies: nat, last: int, running: nat, unposted: nat,
    notices: nat, unread: bool, scan: Scan)

  datatype Event =
    | Mention
    | ReadReplies
    | ReadInFlight
    | Dispatch(now: int, accepted: bool, marked: bool)
    | Finish(replies: bool)
    | PostReply(at: int)
    | LoseReply

  function Park(l: Lane): Lane {
    l.(notices := if l.notices == 0 then 1 else l.notices, unread := false)
  }

  predicate Cooling(l: Lane, last: int, now: int) {
    l.cooldown > 0 && last > 0 && now - last < l.cooldown
  }

  function Step(l: Lane, e: Event): Lane {
    match e
    case Mention => l.(unread := true)
    case ReadReplies =>
      if !l.scan.Resting? || !l.unread then l
      else if l.replies >= l.cap then Park(l)
      else l.(scan := Counted(l.last))
    case ReadInFlight =>
      if !l.scan.Counted? then l
      else l.(scan := if l.running > 0 then Resting else Free(l.scan.last))
    case Dispatch(now, accepted, marked) =>
      if !l.scan.Free? then l
      else if Cooling(l, l.scan.last, now) || !accepted then l.(scan := Resting)
      else l.(scan := Resting, running := l.running + 1, unread := if marked then false else l.unread)
    case Finish(replies) =>
      if l.running == 0 then l
      else l.(running := l.running - 1, unposted := if replies then l.unposted + 1 else l.unposted)
    case PostReply(at) =>
      if l.unposted == 0 then l
      else l.(unposted := l.unposted - 1, replies := l.replies + 1, last := Max(l.last, at))
    case LoseReply =>
      if l.unposted == 0 then l else l.(unposted := l.unposted - 1)
  }

  function Run(l: Lane, events: seq<Event>): Lane
    decreases |events|
  {
    if events == [] then l else Run(Step(l, events[0]), events[1..])
  }

  function Opened(cap: int, cooldown: int): Lane {
    Lane(cap, cooldown, 0, 0, 0, 0, 0, false, Resting)
  }

  /** All the replies a thread has or is owed. */
  function Total(l: Lane): nat { l.replies + l.running + l.unposted }

  // ---- one scan without interference -------------------------------------------------------

  class Sweeper {
    const cap: int
    const cooldown: int
    var replies: nat
    var last: int
    var running: nat
    var unposted: nat
    var notices: nat
    var unread: bool

    function State(): Lane
      reads this
    {
      Lane(cap, cooldown, replies, last, running, unposted, notices, unread, Resting)
    }

    constructor (cap: int, cooldown: int)
      ensures State() == Opened(cap, cooldown)
    {
      this.cap, this.cooldown := cap, cooldown;
      replies, last, running, unposted, notices, unread := 0, 0, 0, 0, 0, false;
    }

    /** `parkChatAutoRespondCapReached`. */
    method ParkCapReached()
      modifies this
      ensures State() == Park(old(State()))
    {
      if notices == 0 {
        notices := notices + 1;
      }
      unread := false;
    }

    /** `runOneChatAutoRespond`, for a thread with an unread mention. */
    method RunOne(now: int, accepted: bool, marked: bool)
      requires unread
      modifies this
      ensures State() == Run(old(State()), [ReadReplies, ReadInFlight, Dispatch(now, accepted, marked)])
    {
      ThreeSteps(State(), ReadReplies, ReadInFlight, Dispatch(now, accepted, marked));
      if replies >= cap {
        ParkCapReached();
        return;
      }
      if running > 0 {
        return;
      }
      if cooldown > 0 && last > 0 && now - last < cooldown {
        return;
      }
      if !accepted {
        return;
      }
      running := running + 1;
      if marked {
        unread := false;
      }
    }
  }

  lemma TwoSteps(l: Lane, a: Event, b: Event)
    ensures Run(l, [a, b]) == Step(Step(l, a), b)
  {
    assert [a, b][1..] == [b] && [b][1..] == [];
    assert Run(l, [a, b]) == Run(Step(l, a), [b]);
    assert Run(Step(l, a), [b]) == Run(Step(Step(l, a), b), []);
  }

  lemma ThreeSteps(l: Lane, a: Event, b: Event, c: Event)
    ensures Run(l, [a, b, c]) == Step(Step(Step(l, a), b), c)
  {
    assert [a, b, c][1..] == [b, c] && [b, c][1..] == [c] && [c][1..] == [];
    assert Run(l, [a, b, c]) == Run(Step(l, a), [b, c]);
    assert Run(Step(l, a), [b, c]) == Run(Step(Step(l, a), b), [c]);
    assert Run(Step(Step(l, a), b), [c]) == Run(Step(Step(Step(l, a), b), c), []);
  }

  /** What one undisturbed scan of an unread mention does. It starts a job exactly
      when the replies are under the cap, nothing runs, the job is accepted and the
      last reply, if any, is at least a positive cooldown old. It announces the cap
      exactly when that is reached and was not announced. The mention stays unread
      unless the cap is reached or its job starts and the mark is written. */
  lemma ScanStartsIff(l: Lane, now: int, accepted: bool, marked: bool)
    requires l.scan.Resting? && l.unread
    ensures var m := Run(l, [ReadReplies, ReadInFlight, Dispatch(now, accepted, marked)]);
            var rested := l.cooldown <= 0 || l.last <= 0 || l.last + l.cooldown <= now;
            var starts := l.replies < l.cap && l.running == 0 && accepted && rested;
            && m.running == l.running + (if starts then 1 else 0)
            && (m.notices == l.notices + 1 <==> l.replies >= l.cap && l.notices == 0)
            && (m.notices == l.notices || m.notices == l.notices + 1)
            && (m.unread <==> l.replies < l.cap && !(starts && marked))
            && m == l.(running := m.running, notices := m.notices, unread := m.unread)
  {
    ThreeSteps(l, ReadReplies, ReadInFlight, Dispatch(now, accepted, marked));
  }

  // ---- what every interleaving keeps -----------------------------------------------------

  predicate Sound(l: Lane) {
    && l.running <= 1 && (l.scan.Free? ==> l.running == 0) && l.notices <= 1
  }

  lemma {:induction false} RunIsSound(l: Lane, events: seq<Event>)
    requires Sound(l)
    ensures Sound(Run(l, events))
    ensures Run(l, events).cap == l.cap && Run(l, events).cooldown == l.cooldown
    decreases |events|
  {
    if events != [] {
      RunIsSound(Step(l, events[0]), events[1..]);
    }
  }

  /** At most one job of the agent is in flight in the thread, and the cap is
      announced at most once, in every interleaving. */
  lemma OneInFlight(cap: int, cooldown: int, events: seq<Event>)
    ensures Run(Opened(cap, cooldown), events).running <= 1
    ensures Run(Opened(cap, cooldown), events).notices <= 1
  {
    RunIsSound(Opened(cap, cooldown), events);
  }

  /** No more than f finished jobs ever wait for their reply to be posted. */
  predicate Prompt(l: Lane, events: seq<Event>, f: nat)
    decreases |events|
  {
    l.unposted <= f && (events != [] ==> Prompt(Step(l, events[0]), events[1..], f))
  }

  predicate Bounded(l: Lane, f: nat) {
    && Sound(l) && Total(l) <= Max(l.cap, 0) + f + 1
    && (!l.scan.Resting? ==> Total(l) <= l.cap + f)
  }

  lemma {:induction false} BoundedRuns(l: Lane, events: seq<Event>, f: nat)
    requires Bounded(l, f) && Prompt(l, events, f)
    ensures Bounded(Run(l, events), f)
    decreases |events|
  {
    if events != [] {
      BoundedRuns(Step(l, events[0]), events[1..], f);
    }
  }

  /** Replies and jobs exceed the cap by at most one more than the finished jobs
      whose replies wait to be posted. */
  lemma CapWithin(cap: int, cooldown: int, events: seq<Event>, f: nat)
    requires cap >= 0 && Prompt(Opened(cap, cooldown), events, f)
    ensures Total(Run(Opened(cap, cooldown), events)) <= cap + f + 1
  {
    BoundedRuns(Opened(cap, cooldown), events, f);
    RunIsSound(Opened(cap, cooldown), events);
  }

  // ---- the cap itself ----------------------------------------------------------------------

  /** Every scan counts when no reply waits to be posted, and no job ends between
      its two reads. */
  predicate Undisturbed(l: Lane, events: seq<Event>)
    decreases |events|
  {
    events != [] ==>
      var e := events[0];
      && (e.ReadReplies? && Step(l, e).scan.Counted? && l.scan.Resting? ==> l.unposted == 0)
      && (e.Finish? ==> !l.scan.Counted?)
      && Undisturbed(Step(l, e), events[1..])
  }

  predicate Capped(l: Lane) {
    && Sound(l) && Total(l) <= Max(l.cap, 0)
    && (!l.scan.Resting? ==> l.unposted == 0 && l.replies < l.cap)
  }

  lemma {:induction false} CappedRuns(l: Lane, events: seq<Event>)
    requires Capped(l) && Undisturbed(l, events)
    ensures Capped(Run(l, events))
    decreases |events|
  {
    if events != [] {
      CappedRuns(Step(l, events[0]), events[1..]);
    }
  }

  /** Undisturbed scans keep replies and jobs within the cap. */
  lemma CapHolds(cap: int, cooldown: int, events: seq<Event>)
    requires cap >= 0 && Undisturbed(Opened(cap, cooldown), events)
    ensures Total(Run(Opened(cap, cooldown), events)) <= cap
  {
    CappedRuns(Opened(cap, cooldown), events);
    RunIsSound(Opened(cap, cooldown), events);
  }

  /** What happens around a scan between its first read and its second. */
  predicate Around(e: Event) { e.Mention? || e.Finish? || e.PostReply? || e.LoseReply? }

  /** How many jobs and replies come to nothing between the reads. */
  function Lost(l: Lane, events: seq<Event>): nat
    decreases |events|
  {
    if events == [] then 0
    else
      var e := events[0];
      (if (e == Finish(false) && l.running > 0) || (e.LoseReply? && l.unposted > 0) then 1 else 0)
      + Lost(Step(l, e), events[1..])
  }

  lemma {:induction false} Conserved(l: Lane, events: seq<Event>)
    requires forall e | e in events :: Around(e)
    ensures Total(Run(l, events)) + Lost(l, events) == Total(l)
    ensures Run(l, events).scan == l.scan && Run(l, events).cap == l.cap && Run(l, events).cooldown == l.cooldown
    decreases |events|
  {
    if events != [] {
      assert Around(events[0]) && forall e | e in events[1..] :: e in events;
      Conserved(Step(l, events[0]), events[1..]);
    }
  }

  function Scanned(l: Lane, events: seq<Event>, now: int, marked: bool): Lane {
    Step(Step(Run(Step(l, ReadReplies), events), ReadInFlight), Dispatch(now, true, marked))
  }

  /** With these events between its two reads a scan finds nothing in flight, and
      the job it starts leaves the thread over the cap. */
  predicate Oversteps(l: Lane, events: seq<Event>, now: int, marked: bool) {
    && (forall e | e in events :: Around(e))
    && Run(Step(l, ReadReplies), events).running == 0
    && Total(Scanned(l, events, now, marked)) > l.cap
  }

  /** The exact condition, as it stands when a scan begins its first read: the scan
      can overstep the cap if and only if the replies posted, those not posted yet
      and the job in flight already reach it. */
  lemma OverstepsIff(l: Lane, now: int, marked: bool)
    requires l.scan.Resting? && l.unread && l.replies < l.cap && l.running <= 1 && !Cooling(l, l.last, now)
    ensures (exists events :: Oversteps(l, events, now, marked)) <==> Total(l) >= l.cap
  {
    if events :| Oversteps(l, events, now, marked) {
      ScanAddsOne(l, events, now, marked);
    }
    if Total(l) >= l.cap {
      var ending := if l.running == 0 then [] else [Finish(true)];
      EndingEnds(Step(l, ReadReplies));
      assert Oversteps(l, ending, now, marked);
    }
  }

  /** The job in flight, if any, ends with a reply still to be posted. */
  lemma EndingEnds(l: Lane)
    requires l.running <= 1
    ensures var l' := Run(l, if l.running == 0 then [] else [Finish(true)]);
            l'.running == 0 && l'.scan == l.scan && Total(l') == Total(l) && l'.cooldown == l.cooldown
  {
    if l.running == 1 {
      assert [Finish(true)][1..] == [];
      assert Run(l, [Finish(true)]) == Run(Step(l, Finish(true)), []);
    }
  }

  lemma ScanAddsOne(l: Lane, events: seq<Event>, now: int, marked: bool)
    requires l.scan.Resting? && l.unread && l.replies < l.cap && forall e | e in events :: Around(e)
    ensures Total(Scanned(l, events, now, marked)) <= Total(l) + 1
  {
    Conserved(Step(l, ReadReplies), events);
  }

  lemma {:induction false} RunAppend(l: Lane, a: seq<Event>, b: seq<Event>)
    ensures Run(l, a + b) == Run(Run(l, a), b)
    decreases |a|
  {
    if a == [] {
      assert a + b == b;
    } else {
      assert (a + b)[1..] == a[1..] + b;
      RunAppend(Step(l, a[0]), a[1..], b);
    }
  }

  /** With a cap of one, a job that ends between the two reads lets a second one in. */
  lemma CapIsOverstepped()
    ensures var first := [ReadReplies, ReadInFlight, Dispatch(0, true, true)];
            var disturbed := [Mention, ReadReplies, Finish(true)]
                             + [PostReply(1), ReadInFlight, Dispatch(2, true, true)];
            var l := Run(Run(Step(Opened(1, 0), Mention), first), disturbed);
            l.replies == 1 && l.running == 1
  {
    var l := Step(Opened(1, 0), Mention);
    ThreeSteps(l, ReadReplies, ReadInFlight, Dispatch(0, true, true));
    var m := Run(l, [ReadReplies, ReadInFlight, Dispatch(0, true, true)]);
    assert m == Opened(1, 0).(running := 1);
    var start, finish := [Mention, ReadReplies, Finish(true)], [PostReply(1), ReadInFlight, Dispatch(2, true, true)];
    RunAppend(m, start, finish);
    ThreeSteps(m, Mention, ReadReplies, Finish(true));
    ThreeSteps(Run(m, start), PostReply(1), ReadInFlight, Dispatch(2, true, true));
  }

  /** A mention answered by a job that ends without its reply being posted yet. */
  const ROUND := [Mention, ReadReplies, ReadInFlight, Dispatch(0, true, true), Finish(true)]

  function Rounds(n: nat): seq<Event> { if n == 0 then [] else ROUND + Rounds(n - 1) }

  predicate Quiet(l: Lane) {
    l.cap > 0 && !Cooling(l, l.last, 0) && l.replies == 0 && l.running == 0 && l.scan == Resting && !l.unread
  }

  lemma OneRound(l: Lane)
    requires Quiet(l)
    ensures Run(l, ROUND) == l.(unposted := l.unposted + 1)
  {
    var first, last := [Mention, ReadReplies, ReadInFlight], [Dispatch(0, true, true), Finish(true)];
    assert ROUND == first + last;
    RunAppend(l, first, last);
    ThreeSteps(l, Mention, ReadReplies, ReadInFlight);
    TwoSteps(Run(l, first), Dispatch(0, true, true), Finish(true));
  }

  /** Without a bound on the replies that wait to be posted no cap holds: for every
      positive cap and every n, some run starts n jobs that all reply. */
  lemma {:induction false} DelayedRepliesDefeatTheCap(l: Lane, n: nat)
    requires Quiet(l)
    ensures Run(l, Rounds(n)) == l.(unposted := l.unposted + n)
    decreases n
  {
    if n > 0 {
      OneRound(l);
      RunAppend(l, ROUND, Rounds(n - 1));
      DelayedRepliesDefeatTheCap(l.(unposted := l.unposted + 1), n - 1);
    }
  }
}
