/** The REST rate limiter: a token bucket refilled from a clock that may step back. */
module TokenBucket {
  import opened Domain

  /** The bucket's state as a value; `updatedAt` is the largest clock reading credited so far. */
  datatype Bucket = Bucket(capacity: real, rate: real, tokens: real, updatedAt: real)

  ghost predicate Sound(b: Bucket) {
    b.capacity > 0.0 && b.rate > 0.0 && 0.0 <= b.tokens <= b.capacity
  }

  function Accrued(rate: real, elapsed: real): real {
    rate * elapsed
  }

  function Refilled(b: Bucket, now: real): Bucket {
    if now - b.updatedAt > 0.0
    then b.(tokens := Min(b.capacity, b.tokens + Accrued(b.rate, now - b.updatedAt)), updatedAt := now)
    else b
  }

  function Taken(b: Bucket, tokens: int): Bucket {
    b.(tokens := b.tokens - tokens as real)
  }

  /** How one `acquire` ends: refused, granted, or still waiting when the clock readings run out. */
  datatype Verdict = Refused | Granted | Waiting

  predicate IsValid(b: Bucket, tokens: int) {
    0 < tokens && tokens as real <= b.capacity
  }

  /** The wait loop over the readings it sees, one per turn. */
  function Acquired(b: Bucket, tokens: int, clock: seq<real>): (Bucket, Verdict)
    requires IsValid(b, tokens)
    decreases |clock|
  {
    if clock == [] then (b, Waiting)
    else
      var r := Refilled(b, clock[0]);
      if r.tokens >= tokens as real then (Taken(r, tokens), Granted) else Acquired(r, tokens, clock[1..])
  }

  function Seconds(deficit: real, rate: real): real
    requires rate > 0.0
  {
    deficit / rate
  }

  /** Seconds `acquire` sleeps before its next turn. */
  function Wait(b: Bucket, tokens: int): real
    requires b.rate > 0.0
  {
    Seconds(tokens as real - b.tokens, b.rate)
  }

  class AsyncTokenBucket {
    const capacity: real
    const refillPerSec: real
    var tokens: real
    var updatedAt: real

    ghost function View(): Bucket
      reads this
    {
      Bucket(capacity, refillPerSec, tokens, updatedAt)
    }

    ghost predicate Valid()
      reads this
    {
      Sound(View())
    }

    constructor (ratePerMinute: int, burst: Option<int>, now: real)
      requires ratePerMinute > 0 && (burst.Some? ==> burst.value > 0)
      ensures Valid()
      ensures View() == Bucket(burst.GetOr(ratePerMinute) as real, ratePerMinute as real / 60.0, burst.GetOr(ratePerMinute) as real, now)
    {
      capacity := burst.GetOr(ratePerMinute) as real;
      refillPerSec := ratePerMinute as real / 60.0;
      tokens := burst.GetOr(ratePerMinute) as real;
      updatedAt := now;
    }

    method Refill(now: real)
      requires Valid()
      modifies this
      ensures Valid() && View() == Refilled(old(View()), now)
    {
      RefillKeepsSound(View(), now);
      var elapsed := now - updatedAt;
      if elapsed > 0.0 {
        tokens := Min(capacity, tokens + Accrued(refillPerSec, elapsed));
        updatedAt := now;
      }
    }

    /** `acquire`: `clock` holds the readings its turns will see, as far as they are given. */
    method Acquire(wanted: int, clock: seq<real>) returns (verdict: Verdict, wait: real)
      requires Valid()
      modifies this
      ensures Valid()
      ensures verdict.Refused? <==> !IsValid(old(View()), wanted)
      ensures verdict.Refused? ==> View() == old(View())
      ensures IsValid(old(View()), wanted) ==> (View(), verdict) == Acquired(old(View()), wanted, clock)
      ensures verdict.Waiting? && clock != [] ==> wait == Wait(View(), wanted) > 0.0
    {
      hide Refilled, Accrued, Seconds;
      wait := 0.0;
      if wanted <= 0 || wanted as real > capacity {
        return Refused, wait;
      }
      var turn := 0;
      ghost var start := View();
      assert clock[0..] == clock;
      while turn < |clock|
        invariant turn <= |clock| && Valid() && capacity == start.capacity
        invariant Acquired(start, wanted, clock) == Acquired(View(), wanted, clock[turn..])
        invariant turn > 0 ==> wait == Wait(View(), wanted) > 0.0
      {
        assert clock[turn..][1..] == clock[turn + 1..];
        Refill(clock[turn]);
        if tokens >= wanted as real {
          tokens := tokens - wanted as real;
          return Granted, wait;
        }
        var deficit := wanted as real - tokens;
        wait := Seconds(deficit, refillPerSec);
        DeficitAccrues(refillPerSec, deficit, wait);
        turn := turn + 1;
      }
      verdict := Waiting;
    }
  }

  /** Construction with the source's checks: no bucket for a rate or burst that is not positive. */
  method NewBucket(ratePerMinute: int, burst: Option<int>, now: real) returns (bucket: Option<AsyncTokenBucket>)
    ensures bucket.Some? <==> ratePerMinute > 0 && (burst.Some? ==> burst.value > 0)
    ensures bucket.Some? ==> fresh(bucket.value) && bucket.value.Valid() && bucket.value.tokens == bucket.value.capacity
  {
    if ratePerMinute <= 0 || (burst.Some? && burst.value <= 0) {
      return None;
    }
    var made := new AsyncTokenBucket(ratePerMinute, burst, now);
    bucket := Some(made);
  }

  // ── One refill ───────────────────────────────────────────────────

  lemma RefillKeepsSound(b: Bucket, now: real)
    requires Sound(b)
    ensures Sound(Refilled(b, now))
  {
    if now - b.updatedAt > 0.0 {
      assert Accrued(b.rate, now - b.updatedAt) > 0.0;
    }
  }

  /** Credit is at most the rate times how far the clock went past anything it had shown before; a
      reading at or behind the high-water mark credits nothing. */
  lemma RefillCreditsOnce(b: Bucket, now: real)
    requires Sound(b)
    ensures var r := Refilled(b, now);
            && r.tokens <= b.tokens + Accrued(b.rate, r.updatedAt - b.updatedAt)
            && r.updatedAt == Max(b.updatedAt, now)
            && r.capacity == b.capacity && r.rate == b.rate
  {
  }

  lemma AccruedAdds(rate: real, one: real, two: real)
    ensures Accrued(rate, one) + Accrued(rate, two) == Accrued(rate, one + two)
  {
  }

  // ── Runs of acquires ─────────────────────────────────────────────

  /** One `acquire` and the readings it saw; the lock makes calls follow one another. */
  datatype Call = Call(tokens: int, clock: seq<real>)

  datatype Grant = Grant(tokens: int, at: real)

  /** The bucket and every grant so far, with the high-water reading it was made at. */
  datatype Ledger = Ledger(bucket: Bucket, grants: seq<Grant>)

  function Served(l: Ledger, call: Call): Ledger {
    if !IsValid(l.bucket, call.tokens) then l
    else
      var (b, verdict) := Acquired(l.bucket, call.tokens, call.clock);
      Ledger(b, if verdict.Granted? then l.grants + [Grant(call.tokens, b.updatedAt)] else l.grants)
  }

  function ServedAll(l: Ledger, calls: seq<Call>): Ledger {
    if calls == [] then l else Served(ServedAll(l, calls[..|calls| - 1]), calls[|calls| - 1])
  }

  function Total(grants: seq<Grant>): real {
    if grants == [] then 0.0 else Total(grants[..|grants| - 1]) + grants[|grants| - 1].tokens as real
  }

  lemma TotalAppend(grants: seq<Grant>, grant: Grant)
    ensures Total(grants + [grant]) == Total(grants) + grant.tokens as real
    ensures Total([]) == 0.0
  {
    assert (grants + [grant])[..|grants|] == grants;
  }

  /** From any grant on, what was granted and what is left never exceed a full bucket plus the accrual. */
  ghost predicate Bounded(l: Ledger) {
    && Sound(l.bucket)
    && forall i :: 0 <= i < |l.grants| ==>
         && l.grants[i].at <= l.bucket.updatedAt
         && Total(l.grants[i..]) + l.bucket.tokens <= l.bucket.capacity + Accrued(l.bucket.rate, l.bucket.updatedAt - l.grants[i].at)
  }

  lemma RefillKeepsBounded(l: Ledger, now: real)
    requires Bounded(l)
    ensures Bounded(l.(bucket := Refilled(l.bucket, now)))
  {
    hide Refilled, Accrued, Total;
    var b, r := l.bucket, Refilled(l.bucket, now);
    RefillKeepsSound(b, now);
    RefillCreditsOnce(b, now);
    forall i | 0 <= i < |l.grants|
      ensures Total(l.grants[i..]) + r.tokens <= r.capacity + Accrued(r.rate, r.updatedAt - l.grants[i].at)
    {
      AccruedAdds(b.rate, b.updatedAt - l.grants[i].at, r.updatedAt - b.updatedAt);
      assert b.updatedAt - l.grants[i].at + (r.updatedAt - b.updatedAt) == r.updatedAt - l.grants[i].at;
    }
  }

  lemma TakeKeepsBounded(l: Ledger, tokens: int)
    requires Bounded(l) && tokens > 0 && l.bucket.tokens >= tokens as real
    ensures Bounded(Ledger(Taken(l.bucket, tokens), l.grants + [Grant(tokens, l.bucket.updatedAt)]))
  {
    hide Accrued, Total;
    var grant := Grant(tokens, l.bucket.updatedAt);
    var grants := l.grants + [grant];
    NoAccrual(l.bucket.rate);
    forall i | 0 <= i < |grants|
      ensures Total(grants[i..]) + Taken(l.bucket, tokens).tokens
              <= l.bucket.capacity + Accrued(l.bucket.rate, l.bucket.updatedAt - grants[i].at)
    {
      var tail := grants[i..];
      if i < |l.grants| {
        assert tail == l.grants[i..] + [grant];
        TotalAppend(l.grants[i..], grant);
      } else {
        assert tail == [] + [grant];
        TotalAppend([], grant);
      }
    }
  }

  lemma NoAccrual(rate: real)
    ensures Accrued(rate, 0.0) == 0.0
  {
  }

  lemma {:induction false} AcquireKeepsBounded(l: Ledger, tokens: int, clock: seq<real>)
    requires Bounded(l) && IsValid(l.bucket, tokens)
    ensures var (b, verdict) := Acquired(l.bucket, tokens, clock);
            Bounded(Ledger(b, if verdict.Granted? then l.grants + [Grant(tokens, b.updatedAt)] else l.grants))
    decreases |clock|
  {
    hide Bounded, Refilled;
    if clock != [] {
      var r := Refilled(l.bucket, clock[0]);
      RefillKeepsBounded(l, clock[0]);
      if r.tokens >= tokens as real {
        TakeKeepsBounded(l.(bucket := r), tokens);
      } else {
        SameCapacity(l.bucket, clock[0]);
        AcquireKeepsBounded(l.(bucket := r), tokens, clock[1..]);
      }
    }
  }

  lemma SameCapacity(b: Bucket, now: real)
    ensures Refilled(b, now).capacity == b.capacity && Refilled(b, now).rate == b.rate
  {
  }

  lemma {:induction false} RunKeepsBounded(l: Ledger, calls: seq<Call>)
    requires Bounded(l)
    ensures Bounded(ServedAll(l, calls))
  {
    hide Bounded, Acquired;
    if calls != [] {
      var before, call := ServedAll(l, calls[..|calls| - 1]), calls[|calls| - 1];
      RunKeepsBounded(l, calls[..|calls| - 1]);
      if IsValid(before.bucket, call.tokens) {
        AcquireKeepsBounded(before, call.tokens, call.clock);
      }
    }
  }

  lemma {:induction false} SlotsStay(l: Ledger, calls: seq<Call>, n: nat)
    requires n <= |calls|
    ensures ServedAll(l, calls[..n]).grants <= ServedAll(l, calls).grants
  {
    if n < |calls| {
      SlotsStay(l, calls[..|calls| - 1], n);
      assert calls[..|calls| - 1][..n] == calls[..n];
    } else {
      assert calls[..n] == calls;
    }
  }

  lemma {:induction false} RunReaches(l: Ledger, calls: seq<Call>, j: nat) returns (n: nat)
    requires |l.grants| <= j < |ServedAll(l, calls).grants|
    ensures n <= |calls| && |ServedAll(l, calls[..n]).grants| == j + 1
    ensures ServedAll(l, calls[..n]).grants[j].at == ServedAll(l, calls[..n]).bucket.updatedAt
  {
    hide Acquired;
    var last := |calls| - 1;
    if j < |ServedAll(l, calls[..last]).grants| {
      n := RunReaches(l, calls[..last], j);
      assert calls[..last][..n] == calls[..n];
    } else {
      n := |calls|;
      assert calls[..n] == calls;
    }
  }

  /** For any two grants of any run, in exact arithmetic: the tokens granted from one to the other are at
      most one full bucket plus what accrued between their (high-water) clock readings. */
  lemma WindowsAreBounded(b: Bucket, calls: seq<Call>, i: nat, j: nat)
    requires Sound(b)
    requires i <= j < |ServedAll(Ledger(b, []), calls).grants|
    ensures var grants := ServedAll(Ledger(b, []), calls).grants;
            Total(grants[i..j + 1]) <= b.capacity + Accrued(b.rate, grants[j].at - grants[i].at)
  {
    hide Served, Total, Accrued;
    var start := Ledger(b, []);
    var n := RunReaches(start, calls, j);
    var reached := ServedAll(start, calls[..n]);
    SlotsStay(start, calls, n);
    RunKeepsBounded(start, calls[..n]);
    SettingsStay(start, calls[..n]);
    assert reached.grants[i..] == ServedAll(start, calls).grants[i..j + 1];
  }

  lemma {:induction false} SettingsStay(l: Ledger, calls: seq<Call>)
    ensures ServedAll(l, calls).bucket.capacity == l.bucket.capacity && ServedAll(l, calls).bucket.rate == l.bucket.rate
  {
    if calls != [] {
      var before, call := ServedAll(l, calls[..|calls| - 1]), calls[|calls| - 1];
      SettingsStay(l, calls[..|calls| - 1]);
      if IsValid(before.bucket, call.tokens) {
        AcquireKeepsSettings(before.bucket, call.tokens, call.clock);
      }
    }
  }

  lemma {:induction false} AcquireKeepsSettings(b: Bucket, tokens: int, clock: seq<real>)
    requires IsValid(b, tokens)
    ensures Acquired(b, tokens, clock).0.capacity == b.capacity && Acquired(b, tokens, clock).0.rate == b.rate
    decreases |clock|
  {
    if clock != [] && Refilled(b, clock[0]).tokens < tokens as real {
      AcquireKeepsSettings(Refilled(b, clock[0]), tokens, clock[1..]);
    }
  }

  // ── The wait is long enough, and no longer ───────────────────────

  /** A turn that could not grant sleeps so that the next turn grants exactly when the clock has moved by
      at least the computed wait past the high-water mark. */
  lemma SecondTurnGrants(b: Bucket, tokens: int, first: real, second: real)
    requires Sound(b) && IsValid(b, tokens)
    requires Refilled(b, first).tokens < tokens as real
    ensures var r := Refilled(b, first);
            Acquired(b, tokens, [first, second]).1.Granted? <==> second - r.updatedAt >= Wait(r, tokens)
  {
    var r := Refilled(b, first);
    RefillKeepsSound(b, first);
    SameCapacity(b, first);
    assert [first, second][1..] == [second];
    var again := Refilled(r, second);
    assert Acquired(b, tokens, [first, second]) == Acquired(r, tokens, [second]);
    assert Acquired(r, tokens, [second]).1.Granted? <==> again.tokens >= tokens as real by {
      assert [second][1..] == [];
    }
    DeficitAccrues(r.rate, tokens as real - r.tokens, second - r.updatedAt);
  }

  lemma DeficitAccrues(rate: real, deficit: real, elapsed: real)
    requires rate > 0.0 && deficit > 0.0
    ensures Seconds(deficit, rate) > 0.0
    ensures elapsed >= Seconds(deficit, rate) <==> Accrued(rate, elapsed) >= deficit
  {
    var wait := deficit / rate;
    assert rate * wait == deficit;
    if elapsed >= wait {
      assert rate * (elapsed - wait) >= 0.0;
    } else {
      assert rate * (wait - elapsed) > 0.0;
    }
  }
}
