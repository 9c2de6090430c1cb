/** The bridge's token bucket, over exact reals and with arbitrary clock readings. */
module TokenBucket {

  datatype Bucket = Bucket(capacity: real, refill: real, tokens: real, last: real)

  predicate Valid(b: Bucket) {
    b.refill > 0.0 && 0.0 <= b.tokens <= b.capacity
  }

  /** What the bucket earns while `last` moves on to `upTo`. */
  function Earned(b: Bucket, upTo: real): real { (upTo - b.last) * b.refill }

  /** Crediting the time since `last`; a clock that did not advance credits nothing. */
  function Credit(b: Bucket, now: real): Bucket {
    if now <= b.last then b
    else
      var tokens := b.tokens + Earned(b, now);
      b.(tokens := if tokens > b.capacity then b.capacity else tokens, last := now)
  }

  predicate Admits(b: Bucket, now: real) { Credit(b, now).tokens >= 1.0 }

  /** `Allow` at one clock reading. */
  function Step(b: Bucket, now: real): Bucket {
    var c := Credit(b, now);
    if Admits(b, now) then c.(tokens := c.tokens - 1.0) else c
  }

  function Run(b: Bucket, readings: seq<real>): Bucket
    decreases |readings|
  {
    if readings == [] then b else Run(Step(b, readings[0]), readings[1..])
  }

  /** How many of the calls are admitted. */
  function Admitted(b: Bucket, readings: seq<real>): nat
    decreases |readings|
  {
    if readings == [] then 0
    else (if Admits(b, readings[0]) then 1 else 0) + Admitted(Step(b, readings[0]), readings[1..])
  }

  /** What the cap throws away at one reading, and over a run. */
  function Spilt(b: Bucket, now: real): real {
    if now <= b.last then 0.0
    else
      var tokens := b.tokens + Earned(b, now);
      if tokens > b.capacity then tokens - b.capacity else 0.0
  }

  function AllSpilt(b: Bucket, readings: seq<real>): real
    decreases |readings|
  {
    if readings == [] then 0.0 else Spilt(b, readings[0]) + AllSpilt(Step(b, readings[0]), readings[1..])
  }

  class Limiter {
    const capacity: real
    const refill: real
    var tokens: real
    var last: real

    function State(): Bucket
      reads this
    {
      Bucket(capacity, refill, tokens, last)
    }

    /** `newBridgeTokenBucket`: full, and refilled at that many per
        period. */
    constructor (requests: nat, period: real, now: real)
      requires requests > 0 && period > 0.0
      ensures Valid(State()) && tokens == capacity == requests as real && last == now
      ensures refill * period == capacity
    {
      capacity := requests as real;
      tokens := requests as real;
      refill := requests as real / period;
      last := now;
    }

    method Allow(now: real) returns (ok: bool)
      modifies this
      ensures ok == Admits(old(State()), now)
      ensures State() == Step(old(State()), now)
    {
      var elapsed := now - last;
      if elapsed > 0.0 {
        tokens := tokens + elapsed * refill;
        if tokens > capacity {
          tokens := capacity;
        }
        last := now;
      }
      if tokens < 1.0 {
        return false;
      }
      tokens := tokens - 1.0;
      return true;
    }
  }

  lemma EarnedAdds(b: Bucket, c: Bucket, upTo: real)
    requires c.refill == b.refill
    ensures Earned(b, c.last) + Earned(c, upTo) == Earned(b, upTo)
  {
  }

  lemma EarnedIsPositive(b: Bucket, now: real)
    requires b.refill > 0.0
    ensures Earned(b, b.last) == 0.0
    ensures now > b.last ==> Earned(b, now) > 0.0
  {
  }

  lemma StepIsSound(b: Bucket, now: real)
    requires Valid(b)
    ensures var s := Step(b, now);
            && Valid(s) && s.last >= b.last && s.capacity == b.capacity && s.refill == b.refill
            && s.tokens + (if Admits(b, now) then 1.0 else 0.0) + Spilt(b, now)
               == b.tokens + Earned(b, s.last)
            && Spilt(b, now) >= 0.0
  {
    EarnedIsPositive(b, now);
  }

  /** Conservation: what a run earns is what it admits, keeps and spills. The
      tokens stay in range throughout. */
  lemma {:induction false} Conservation(b: Bucket, readings: seq<real>)
    requires Valid(b)
    ensures var r := Run(b, readings);
            && Valid(r) && r.capacity == b.capacity && r.refill == b.refill && r.last >= b.last
            && r.tokens + Admitted(b, readings) as real + AllSpilt(b, readings)
               == b.tokens + Earned(b, r.last)
            && AllSpilt(b, readings) >= 0.0
    decreases |readings|
  {
    if readings != [] {
      var next := Step(b, readings[0]);
      StepIsSound(b, readings[0]);
      Conservation(next, readings[1..]);
      EarnedAdds(b, next, Run(b, readings).last);
    }
  }

  /** In any window of any run, the admissions are at most the capacity plus what
      the advance of `last` refills. */
  lemma WindowBound(b: Bucket, before: seq<real>, during: seq<real>)
    requires Valid(b)
    ensures var start := Run(b, before);
            Admitted(start, during) as real <= b.capacity + Earned(start, Run(start, during).last)
  {
    Conservation(b, before);
    Conservation(Run(b, before), during);
  }

  /** The latest reading decides `last`, whatever order the readings come in. */
  lemma {:induction false} LastIsLatest(b: Bucket, readings: seq<real>)
    requires Valid(b)
    ensures var r := Run(b, readings);
            && (r.last == b.last || r.last in readings) && b.last <= r.last
            && forall now | now in readings :: now <= r.last
    decreases |readings|
  {
    if readings != [] {
      var next := Step(b, readings[0]);
      StepIsSound(b, readings[0]);
      LastIsLatest(next, readings[1..]);
      forall now | now in readings
        ensures now <= Run(b, readings).last
      {
        assert now == readings[0] || now in readings[1..];
      }
    }
  }

  lemma EarnsOne(b: Bucket, now: real)
    requires b.refill > 0.0 && now >= b.last + 1.0 / b.refill
    ensures now > b.last && Earned(b, now) >= 1.0
  {
    var wait := 1.0 / b.refill;
    assert wait * b.refill == 1.0;
    assert (now - b.last - wait) * b.refill >= 0.0;
  }

  /** After any run, a caller that comes a full refill time after the latest
      reading is admitted. */
  lemma PatienceIsAdmitted(b: Bucket, readings: seq<real>, now: real)
    requires Valid(b) && b.capacity >= 1.0
    requires now >= Run(b, readings).last + 1.0 / b.refill
    ensures Admits(Run(b, readings), now)
  {
    Conservation(b, readings);
    EarnsOne(Run(b, readings), now);
  }

  /** A run in which the cap never bites admits all it can: fewer than one token
      of what was earned is left when the last call is refused. */
  lemma NothingIsWithheld(b: Bucket, readings: seq<real>, now: real)
    requires Valid(b) && AllSpilt(b, readings + [now]) == 0.0
    requires !Admits(Run(b, readings), now)
    ensures var r := Run(b, readings + [now]);
            Admitted(b, readings + [now]) as real > b.tokens + Earned(b, r.last) - 1.0
  {
    Conservation(b, readings);
    StepIsSound(Run(b, readings), now);
    RunSnoc(b, readings, now);
    Conservation(b, readings + [now]);
  }

  lemma {:induction false} RunSnoc(b: Bucket, readings: seq<real>, now: real)
    ensures Run(b, readings + [now]) == Step(Run(b, readings), now)
    decreases |readings|
  {
    if readings == [] {
      assert [] + [now] == [now];
    } else {
      assert (readings + [now])[1..] == readings[1..] + [now];
      RunSnoc(Step(b, readings[0]), readings[1..], now);
    }
  }
}
