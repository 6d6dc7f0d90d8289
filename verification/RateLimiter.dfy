/**
 The fixed-window limiter of api/handler.go:156-176. A call reads the clock once
 to compare and, when it refills, once more to set the next refill; the second
 reading is never before the first.
 */
module RateLimiterSpec {
  type Time = int

  datatype Bucket = Bucket(tokens: int, refillAt: Time)

  datatype Call = Call(t1: Time, t2: Time)

  predicate Refills(b: Bucket, c: Call) {
    c.t1 > b.refillAt
  }

  /** The bucket a call decides on: refilled if the window has passed. */
  function Current(b: Bucket, c: Call, capacity: nat, period: nat): Bucket {
    if Refills(b, c) then Bucket(capacity, c.t2 + period) else b
  }

  predicate Granted(b: Bucket, c: Call, capacity: nat, period: nat) {
    Current(b, c, capacity, period).tokens > 0
  }

  function Next(b: Bucket, c: Call, capacity: nat, period: nat): Bucket {
    var cur := Current(b, c, capacity, period);
    if cur.tokens > 0 then cur.(tokens := cur.tokens - 1) else cur
  }

  function Run(b: Bucket, cs: seq<Call>, capacity: nat, period: nat): Bucket
    decreases |cs|
  {
    if cs == [] then b else Run(Next(b, cs[0], capacity, period), cs[1..], capacity, period)
  }

  /** How many of the calls are granted. */
  function Grants(b: Bucket, cs: seq<Call>, capacity: nat, period: nat): nat
    decreases |cs|
  {
    if cs == [] then 0
    else (if Granted(b, cs[0], capacity, period) then 1 else 0)
         + Grants(Next(b, cs[0], capacity, period), cs[1..], capacity, period)
  }

  predicate Valid(b: Bucket, capacity: nat) {
    0 <= b.tokens <= capacity
  }

  /** The clock does not go back between calls or within one. */
  ghost predicate Monotone(cs: seq<Call>) {
    && (forall i :: 0 <= i < |cs| ==> cs[i].t1 <= cs[i].t2)
    && (forall i, j :: 0 <= i < j < |cs| ==> cs[i].t2 <= cs[j].t1)
  }

  /** Every call is made no later than `end`. */
  predicate Until(cs: seq<Call>, end: Time) {
    forall i :: 0 <= i < |cs| ==> cs[i].t1 <= end
  }

  /** Tokens stay within 0..capacity over any sequence of calls. */
  lemma {:induction false} TokensInRange(b: Bucket, cs: seq<Call>, capacity: nat, period: nat)
    requires Valid(b, capacity)
    ensures Valid(Run(b, cs, capacity, period), capacity)
    decreases |cs|
  {
    if cs != [] {
      TokensInRange(Next(b, cs[0], capacity, period), cs[1..], capacity, period);
    }
  }

  lemma TailOk(cs: seq<Call>, end: Time)
    requires cs != [] && Monotone(cs) && Until(cs, end)
    ensures Monotone(cs[1..]) && Until(cs[1..], end)
    ensures forall i :: 0 <= i < |cs[1..]| ==> cs[1..][i].t1 >= cs[0].t2
  {
    assert forall i :: 0 <= i < |cs[1..]| ==> cs[1..][i] == cs[i + 1];
  }

  /** Calls that end within n periods of the next refill get what is in the
      bucket and at most n refills more. */
  lemma {:induction false} GrantsBeforeRefills(b: Bucket, cs: seq<Call>, capacity: nat, period: nat, n: nat)
    requires Valid(b, capacity) && Monotone(cs) && Until(cs, b.refillAt + n * period)
    ensures Grants(b, cs, capacity, period) <= b.tokens + n * capacity
    decreases |cs|
  {
    if cs != [] {
      var b' := Next(b, cs[0], capacity, period);
      TailOk(cs, b.refillAt + n * period);
      if Refills(b, cs[0]) {
        assert n > 0 by {
          assert n == 0 ==> n * period == 0;
        }
        assert (n - 1) * period + period == n * period;
        assert (n - 1) * capacity + capacity == n * capacity;
        GrantsBeforeRefills(b', cs[1..], capacity, period, n - 1);
      } else {
        GrantsBeforeRefills(b', cs[1..], capacity, period, n);
      }
    }
  }

  /** Over any span of k refill periods, from any state of the bucket, at most
      (k + 1) * capacity calls are granted. */
  lemma {:induction false} WindowBound(b: Bucket, cs: seq<Call>, capacity: nat, period: nat, start: Time, k: nat)
    requires Valid(b, capacity) && Monotone(cs)
    requires Until(cs, start + k * period) && forall i :: 0 <= i < |cs| ==> start <= cs[i].t1
    ensures Grants(b, cs, capacity, period) <= (k + 1) * capacity
    ensures start <= b.refillAt ==> Grants(b, cs, capacity, period) <= b.tokens + k * capacity
    decreases |cs|
  {
    assert (k + 1) * capacity == k * capacity + capacity;
    if cs != [] {
      var b' := Next(b, cs[0], capacity, period);
      TailOk(cs, start + k * period);
      if Refills(b, cs[0]) {
        GrantsBeforeRefills(b', cs[1..], capacity, period, k);
        if start <= b.refillAt {
          FirstRefillUsesOne(b, cs, capacity, period, start, k);
        }
      } else {
        WindowBound(b', cs[1..], capacity, period, start, k);
      }
    }
  }

  /** A refill inside the span leaves room for only k - 1 more. */
  lemma FirstRefillUsesOne(b: Bucket, cs: seq<Call>, capacity: nat, period: nat, start: Time, k: nat)
    requires Valid(b, capacity) && Monotone(cs) && cs != [] && Refills(b, cs[0]) && start <= b.refillAt
    requires Until(cs, start + k * period)
    ensures Grants(b, cs, capacity, period) <= k * capacity
  {
    assert k > 0 by {
      assert k == 0 ==> k * period == 0;
    }
    var b' := Next(b, cs[0], capacity, period);
    TailOk(cs, start + k * period);
    assert (k - 1) * period + period == k * period;
    assert (k - 1) * capacity + capacity == k * capacity;
    GrantsBeforeRefills(b', cs[1..], capacity, period, k - 1);
  }

  /** A call after refillAt fills the bucket for a whole period: of the calls from it
      on that are made within a period of it, exactly the first `capacity` are
      granted, however few tokens were left. */
  lemma RefillRestoresAll(b: Bucket, cs: seq<Call>, capacity: nat, period: nat)
    requires Valid(b, capacity) && Monotone(cs) && cs != [] && cs[0].t1 > b.refillAt
    requires forall i :: 0 < i < |cs| ==> cs[i].t1 <= cs[0].t2 + period
    ensures Grants(b, cs, capacity, period) == if |cs| < capacity then |cs| else capacity
  {
    var more := cs[1..];
    assert forall i :: 0 <= i < |more| ==> more[i] == cs[i + 1];
    RefusedOnlyWhenSpent(Next(b, cs[0], capacity, period), more, capacity, period);
  }

  /** A call is refused only when the window it falls in has used all its tokens:
      capacity grants have been made since the refill that opened it. */
  lemma {:induction false} RefusedOnlyWhenSpent(b: Bucket, cs: seq<Call>, capacity: nat, period: nat)
    requires Valid(b, capacity) && Monotone(cs)
    requires forall i :: 0 <= i < |cs| ==> cs[i].t1 <= b.refillAt
    ensures Run(b, cs, capacity, period).tokens == b.tokens - Grants(b, cs, capacity, period)
    ensures Run(b, cs, capacity, period).refillAt == b.refillAt
    ensures Grants(b, cs, capacity, period) == if |cs| < b.tokens then |cs| else b.tokens
    decreases |cs|
  {
    if cs != [] {
      TailOk(cs, b.refillAt);
      RefusedOnlyWhenSpent(Next(b, cs[0], capacity, period), cs[1..], capacity, period);
    }
  }
}

module RateLimiter {
  import opened RateLimiterSpec

  class TokenBucket {
    const capacity: nat
    const refillBy: nat
    var tokens: int
    var refillAt: Time

    ghost function View(): Bucket
      reads this
    {
      Bucket(tokens, refillAt)
    }

    /** Of the calls made in the first period, a new bucket grants as many as its
        capacity and refuses the rest. */
    constructor (capacity: nat, refillBy: nat, now: Time)
      ensures this.capacity == capacity && this.refillBy == refillBy
      ensures View() == Bucket(capacity, now + refillBy) && RateLimiterSpec.Valid(View(), capacity)
      ensures forall cs :: Monotone(cs) && Until(cs, now + refillBy) ==>
                Grants(View(), cs, capacity, refillBy) == if |cs| < capacity then |cs| else capacity
    {
      this.capacity := capacity;
      this.refillBy := refillBy;
      tokens := capacity;
      refillAt := now + refillBy;
      new;
      forall cs | Monotone(cs) && Until(cs, now + refillBy)
        ensures Grants(View(), cs, capacity, refillBy) == if |cs| < capacity then |cs| else capacity
      {
        RefusedOnlyWhenSpent(View(), cs, capacity, refillBy);
      }
    }

    method Allow(t1: Time, t2: Time) returns (ok: bool)
      requires RateLimiterSpec.Valid(View(), capacity) && t1 <= t2
      modifies this
      ensures RateLimiterSpec.Valid(View(), capacity)
      ensures View() == Next(old(View()), Call(t1, t2), capacity, refillBy)
      ensures ok <==> Granted(old(View()), Call(t1, t2), capacity, refillBy)
      ensures t1 > old(refillAt) && capacity > 0 ==> ok
    {
      if t1 > refillAt {
        tokens := capacity;
        refillAt := t2 + refillBy;
      }
      if tokens <= 0 {
        return false;
      }
      tokens := tokens - 1;
      return true;
    }
  }
}
