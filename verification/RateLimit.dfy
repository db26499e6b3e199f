/** A token bucket per client that forgets: it answers as one that never does, and its map
    is bounded whatever the traffic. */
module RateLimit {
  import opened Wrappers

  type Key = nat

  /** The size of a bucket, what it gains in a second, and how many clients may have one. */
  datatype Limits = Limits(rate: real, burst: real, maxKeys: nat)

  datatype Bucket = Bucket(tokens: real, last: real)

  predicate Usable(l: Limits) { l.rate > 0.0 && l.burst >= 0.0 }

  // ----------------------------------------------- the limiter that never forgets

  /** What a bucket gains between two times. */
  function Gain(l: Limits, from: real, to: real): real { (to - from) * l.rate }

  function Refilled(l: Limits, b: Bucket, now: real): real {
    var full := b.tokens + Gain(l, b.last, now);
    if full < l.burst then full else l.burst
  }

  function Tokens(l: Limits, m: map<Key, Bucket>, key: Key, now: real): real {
    if key in m then Refilled(l, m[key], now) else l.burst
  }

  predicate Allows(l: Limits, m: map<Key, Bucket>, key: Key, now: real) { Tokens(l, m, key, now) >= 1.0 }

  function Spent(l: Limits, m: map<Key, Bucket>, key: Key, now: real): map<Key, Bucket> {
    var tokens := Tokens(l, m, key, now);
    m[key := Bucket(if tokens >= 1.0 then tokens - 1.0 else tokens, now)]
  }

  datatype Request = Request(key: Key, now: real)

  function Served(l: Limits, m: map<Key, Bucket>, requests: seq<Request>): map<Key, Bucket> {
    if requests == [] then m
    else
      var r := requests[|requests| - 1];
      Spent(l, Served(l, m, requests[..|requests| - 1]), r.key, r.now)
  }

  /** How many of a key's requests were allowed. */
  function Granted(l: Limits, m: map<Key, Bucket>, requests: seq<Request>, key: Key): nat {
    if requests == [] then 0
    else
      var before, r := requests[..|requests| - 1], requests[|requests| - 1];
      Granted(l, m, before, key)
        + (if r.key == key && Allows(l, Served(l, m, before), key, r.now) then 1 else 0)
  }

  ghost predicate Sane(l: Limits, m: map<Key, Bucket>, now: real) {
    forall k :: k in m ==> 0.0 <= m[k].tokens <= l.burst && m[k].last <= now
  }

  ghost predicate Within(requests: seq<Request>, from: real, to: real) {
    && from <= to
    && (forall i :: 0 <= i < |requests| ==> from <= requests[i].now <= to)
    && (forall i, j :: 0 <= i < j < |requests| ==> requests[i].now <= requests[j].now)
  }

  lemma GainSplits(l: Limits, a: real, b: real, c: real)
    ensures Gain(l, a, c) == Gain(l, a, b) + Gain(l, b, c)
  {}

  lemma GainGrows(l: Limits, a: real, b: real)
    requires Usable(l) && a <= b
    ensures Gain(l, a, b) >= 0.0
  {}

  lemma GainIs(l: Limits, from: real, to: real)
    ensures Gain(l, from, to) == (to - from) * l.rate
  {}

  lemma NoGain(l: Limits, now: real)
    ensures Gain(l, now, now) == 0.0
  {
    var none := now - now;
    assert none == 0.0;
    assert none * l.rate == 0.0;
  }

  lemma TokensRange(l: Limits, m: map<Key, Bucket>, key: Key, now: real)
    requires Usable(l) && Sane(l, m, now)
    ensures 0.0 <= Tokens(l, m, key, now) <= l.burst
  {
    if key in m {
      GainGrows(l, m[key].last, now);
    }
  }

  lemma SpentSane(l: Limits, m: map<Key, Bucket>, key: Key, now: real)
    requires Usable(l) && Sane(l, m, now)
    ensures Sane(l, Spent(l, m, key, now), now)
  {
    TokensRange(l, m, key, now);
  }

  lemma LaterTokens(l: Limits, m: map<Key, Bucket>, key: Key, now: real, later: real)
    requires Usable(l) && Sane(l, m, now) && now <= later
    ensures Tokens(l, m, key, later) <= Tokens(l, m, key, now) + Gain(l, now, later)
  {
    GainGrows(l, now, later);
    if key in m {
      GainSplits(l, m[key].last, now, later);
    }
  }

  /** Right after a request its key has one less if it was allowed, and the others the same. */
  lemma SpentTokens(l: Limits, m: map<Key, Bucket>, asked: Key, now: real, key: Key)
    requires Usable(l) && Sane(l, m, now)
    ensures Tokens(l, Spent(l, m, asked, now), key, now)
      == Tokens(l, m, key, now) - (if asked == key && Allows(l, m, key, now) then 1.0 else 0.0)
  {
    TokensRange(l, m, asked, now);
    var spent := Spent(l, m, asked, now);
    if asked == key {
      RefilledAtOnce(l, spent[key]);
    } else {
      assert key in m ==> spent[key] == m[key];
    }
  }

  lemma RefilledAtOnce(l: Limits, b: Bucket)
    requires b.tokens <= l.burst
    ensures Refilled(l, b, b.last) == b.tokens
  {
    NoGain(l, b.last);
  }

  /** One request: what its window loses and gains. */
  lemma OneRequest(l: Limits, m: map<Key, Bucket>, asked: Key, now: real, key: Key, to: real)
    requires Usable(l) && Sane(l, m, now) && now <= to
    ensures Tokens(l, Spent(l, m, asked, now), key, to)
      <= Tokens(l, m, key, now) - (if asked == key && Allows(l, m, key, now) then 1.0 else 0.0) + Gain(l, now, to)
  {
    SpentSane(l, m, asked, now);
    SpentTokens(l, m, asked, now, key);
    LaterTokens(l, Spent(l, m, asked, now), key, now, to);
  }

  lemma OneMore(l: Limits, m: map<Key, Bucket>, s: map<Key, Bucket>, asked: Key, now: real, key: Key, from: real, to: real, granted: nat)
    requires Usable(l) && Sane(l, s, now) && from <= now <= to
    requires Tokens(l, s, key, now) <= Tokens(l, m, key, from) + Gain(l, from, now) - granted as real
    ensures Tokens(l, Spent(l, s, asked, now), key, to)
      <= Tokens(l, m, key, from) + Gain(l, from, to) - (granted + (if asked == key && Allows(l, s, key, now) then 1 else 0)) as real
  {
    OneRequest(l, s, asked, now, key, to);
    GainSplits(l, from, now, to);
  }

  lemma SaneLater(l: Limits, m: map<Key, Bucket>, now: real, later: real)
    requires Sane(l, m, now) && now <= later
    ensures Sane(l, m, later)
  {}

  lemma {:induction false} ServedSane(l: Limits, m: map<Key, Bucket>, requests: seq<Request>, from: real, to: real)
    requires Usable(l) && Sane(l, m, from) && Within(requests, from, to)
    ensures Sane(l, Served(l, m, requests), to)
  {
    if requests == [] {
      SaneLater(l, m, from, to);
    } else {
      var before, r := requests[..|requests| - 1], requests[|requests| - 1];
      ServedSane(l, m, before, from, r.now);
      SpentSane(l, Served(l, m, before), r.key, r.now);
      SaneLater(l, Served(l, m, requests), r.now, to);
    }
  }

  /** What a key has left is at most what it had, and the refill, less what it was allowed. */
  lemma {:induction false} Potential(l: Limits, m: map<Key, Bucket>, requests: seq<Request>, key: Key, from: real, to: real)
    requires Usable(l) && Sane(l, m, from) && Within(requests, from, to)
    ensures Tokens(l, Served(l, m, requests), key, to)
      <= Tokens(l, m, key, from) + Gain(l, from, to) - Granted(l, m, requests, key) as real
  {
    if requests == [] {
      LaterTokens(l, m, key, from, to);
    } else {
      var before, r := requests[..|requests| - 1], requests[|requests| - 1];
      Potential(l, m, before, key, from, r.now);
      ServedSane(l, m, before, from, r.now);
      OneMore(l, m, Served(l, m, before), r.key, r.now, key, from, to, Granted(l, m, before, key));
    }
  }

  /** In any window a key is allowed at most a burst and the window's refill. */
  lemma WindowBound(l: Limits, m: map<Key, Bucket>, requests: seq<Request>, key: Key, from: real, to: real)
    requires Usable(l) && Sane(l, m, from) && Within(requests, from, to)
    ensures Granted(l, m, requests, key) as real <= l.burst + (to - from) * l.rate
  {
    GainIs(l, from, to);
    Potential(l, m, requests, key, from, to);
    TokensRange(l, m, key, from);
    ServedSane(l, m, requests, from, to);
    TokensRange(l, Served(l, m, requests), key, to);
  }

  /** A request is allowed when a whole token is there, of those left and those gained since
      in time, and never more than a burst. */
  lemma AllowsExactly(l: Limits, m: map<Key, Bucket>, key: Key, now: real)
    ensures Allows(l, m, key, now) <==> l.burst >= 1.0 && (key in m ==> m[key].tokens + (now - m[key].last) * l.rate >= 1.0)
  {
    if key in m {
      GainIs(l, m[key].last, now);
    }
  }

  function Repeated(key: Key, now: real, n: nat): seq<Request> { seq(n, _ => Request(key, now)) }

  /** However many requests a new client makes at once, as many are allowed as there are whole
      tokens in a burst. */
  lemma {:induction false} BurstExactly(l: Limits, m: map<Key, Bucket>, key: Key, now: real, n: nat)
    requires Usable(l) && key !in m
    ensures var granted := Granted(l, m, Repeated(key, now, n), key);
      && granted <= n && granted as real <= l.burst && (granted < n ==> l.burst < (granted + 1) as real)
      && Tokens(l, Served(l, m, Repeated(key, now, n)), key, now) == l.burst - granted as real
      && (n > 0 ==> key in Served(l, m, Repeated(key, now, n)) && Served(l, m, Repeated(key, now, n))[key].last == now)
  {
    if n > 0 {
      BurstExactly(l, m, key, now, n - 1);
      var all, before := Repeated(key, now, n), Repeated(key, now, n - 1);
      assert all[..|all| - 1] == before && all[|all| - 1] == Request(key, now);
      var served := Served(l, m, before);
      NoGain(l, now);
      RefilledAtOnce(l, Spent(l, served, key, now)[key]);
    }
  }

  // ----------------------------------------------------- the one that forgets

  /** What is forgotten says what a client never seen says: it has refilled. */
  ghost predicate Agrees(l: Limits, kept: map<Key, Bucket>, ideal: map<Key, Bucket>, now: real) {
    && (forall k :: k in kept ==> k in ideal && kept[k] == ideal[k])
    && (forall k :: k in ideal && k !in kept ==> ideal[k].tokens + Gain(l, ideal[k].last, now) >= l.burst)
  }

  lemma AgreesLater(l: Limits, kept: map<Key, Bucket>, ideal: map<Key, Bucket>, before: real, now: real)
    requires Usable(l) && Agrees(l, kept, ideal, before) && before <= now
    ensures Agrees(l, kept, ideal, now)
  {
    forall k | k in ideal && k !in kept ensures ideal[k].tokens + Gain(l, ideal[k].last, now) >= l.burst {
      GainSplits(l, ideal[k].last, before, now);
      GainGrows(l, before, now);
    }
  }

  lemma AgreeTokens(l: Limits, kept: map<Key, Bucket>, ideal: map<Key, Bucket>, key: Key, now: real)
    requires Agrees(l, kept, ideal, now)
    ensures Tokens(l, kept, key, now) == Tokens(l, ideal, key, now)
    ensures Agrees(l, Spent(l, kept, key, now), Spent(l, ideal, key, now), now)
  {}

  /** Forgetting the refilled changes nothing. */
  lemma ForgetAgrees(l: Limits, kept: map<Key, Bucket>, less: map<Key, Bucket>, ideal: map<Key, Bucket>, now: real)
    requires Usable(l) && Agrees(l, kept, ideal, now) && Sane(l, kept, now)
    requires forall k :: k in less ==> k in kept && less[k] == kept[k]
    requires forall k :: k in kept && k !in less ==> now - kept[k].last >= l.burst / l.rate
    ensures Agrees(l, less, ideal, now)
  {
    forall k | k in ideal && k !in less ensures ideal[k].tokens + Gain(l, ideal[k].last, now) >= l.burst {
      if k in kept {
        IdleIsFull(l, kept[k], now);
      }
    }
  }

  lemma IdleIsFull(l: Limits, b: Bucket, now: real)
    requires Usable(l) && b.tokens >= 0.0 && now - b.last >= l.burst / l.rate
    ensures b.tokens + Gain(l, b.last, now) >= l.burst
  {
    var idle := l.burst / l.rate;
    assert idle * l.rate == l.burst;
    AtLeast(l.rate, idle, now - b.last);
  }

  lemma AtLeast(rate: real, a: real, b: real)
    requires rate > 0.0 && a <= b
    ensures a * rate <= b * rate
  {}

  /** A request asked of both limiters. */
  lemma Asked(l: Limits, kept: map<Key, Bucket>, ideal: map<Key, Bucket>, key: Key, before: real, now: real, overflowed: bool)
    requires Usable(l) && Sane(l, kept, before) && Sane(l, ideal, before) && before <= now
    requires !overflowed ==> Agrees(l, kept, ideal, before)
    ensures Sane(l, Spent(l, kept, key, now), now) && Sane(l, Spent(l, ideal, key, now), now)
    ensures !overflowed ==> Agrees(l, Spent(l, kept, key, now), Spent(l, ideal, key, now), now)
    ensures !overflowed ==> Allows(l, kept, key, now) == Allows(l, ideal, key, now)
  {
    SaneLater(l, ideal, before, now);
    SaneLater(l, kept, before, now);
    SpentSane(l, ideal, key, now);
    SpentSane(l, kept, key, now);
    if !overflowed {
      AgreesLater(l, kept, ideal, before, now);
      AgreeTokens(l, kept, ideal, key, now);
    }
  }

  lemma SpentSize(l: Limits, m: map<Key, Bucket>, key: Key, now: real)
    ensures |Spent(l, m, key, now)| == |m| + (if key in m then 0 else 1)
  {
    assert Spent(l, m, key, now).Keys == m.Keys + {key};
  }

  /** Some are gone, none of them seen later than any that is left. */
  ghost predicate Kept(was: map<Key, Bucket>, left: map<Key, Bucket>) {
    && (forall k :: k in left ==> k in was && left[k] == was[k])
    && (forall k, j :: k in left && j in was && j !in left ==> was[j].last <= left[k].last)
  }

  lemma KeptLess(was: map<Key, Bucket>, left: map<Key, Bucket>, oldest: Key)
    requires Kept(was, left) && oldest in left && forall k :: k in left ==> left[oldest].last <= left[k].last
    ensures Kept(was, left - {oldest}) && |left - {oldest}| < |left|
  {
    assert (left - {oldest}).Keys == left.Keys - {oldest};
  }

  class RateLimiter {
    const limits: Limits
    var buckets: map<Key, Bucket>
    var calls: nat
    /** What a limiter that never forgot would hold, when it last was asked, and whether
        this one ever had to forget a client that had not refilled. */
    ghost var ideal: map<Key, Bucket>
    ghost var clock: real
    ghost var overflowed: bool

    constructor (limits: Limits, ghost start: real)
      requires Usable(limits)
      ensures Valid() && this.limits == limits && ideal == map[] && clock == start && !overflowed
    {
      this.limits, buckets, calls, ideal, clock, overflowed := limits, map[], 0, map[], start, false;
    }

    ghost predicate Sound()
      reads this
    {
      && Usable(limits) && Sane(limits, buckets, clock) && Sane(limits, ideal, clock)
      && (!overflowed ==> Agrees(limits, buckets, ideal, clock))
    }

    ghost predicate Valid()
      reads this
    {
      Sound() && |buckets| <= limits.maxKeys
    }

    /** Judge a request: the answer of the limiter that never forgets, until more clients come
        than there are buckets. */
    method Allow(key: Key, now: real) returns (allowed: bool)
      requires Valid() && clock <= now
      modifies this
      ensures Valid() && clock == now
      ensures ideal == Spent(limits, old(ideal), key, now)
      ensures !old(overflowed) ==> allowed == Allows(limits, old(ideal), key, now)
      ensures allowed == Allows(limits, old(buckets), key, now)
      ensures overflowed && !old(overflowed) ==> |old(buckets)| == limits.maxKeys && key !in old(buckets)
    {
      calls := calls + 1;
      SpentSize(limits, buckets, key, now);
      allowed := Spend(key, now);
      if calls % 1000 == 0 || |buckets| > limits.maxKeys {
        Sweep(now);
      }
    }

    /** A client's bucket after asking. */
    method Ask(key: Key, now: real) returns (allowed: bool, bucket: Bucket)
      ensures allowed == Allows(limits, buckets, key, now)
      ensures buckets[key := bucket] == Spent(limits, buckets, key, now)
    {
      bucket := if key in buckets then buckets[key] else Bucket(limits.burst, now);
      var full := bucket.tokens + Gain(limits, bucket.last, now);
      NoGain(limits, now);
      var tokens := if full < limits.burst then full else limits.burst;
      allowed := tokens >= 1.0;
      bucket := Bucket(if allowed then tokens - 1.0 else tokens, now);
    }

    method Spend(key: Key, now: real) returns (allowed: bool)
      requires Valid() && clock <= now
      modifies this`buckets, this`ideal, this`clock
      ensures Sound() && clock == now
      ensures ideal == Spent(limits, old(ideal), key, now) && buckets == Spent(limits, old(buckets), key, now)
      ensures !overflowed ==> allowed == Allows(limits, old(ideal), key, now)
      ensures allowed == Allows(limits, old(buckets), key, now)
    {
      Asked(limits, buckets, ideal, key, clock, now, overflowed);
      var bucket: Bucket;
      allowed, bucket := Ask(key, now);
      buckets := buckets[key := bucket];
      ideal := Spent(limits, ideal, key, now);
      clock := now;
    }

    /** Forget full buckets, then as many others as are over the cap. */
    method Sweep(now: real)
      requires Sound() && clock == now
      modifies this`buckets, this`overflowed
      ensures Valid()
      ensures overflowed && !old(overflowed) ==> |old(buckets)| > limits.maxKeys
    {
      var idle := limits.burst / limits.rate;
      var kept := map k | k in buckets && now - buckets[k].last < idle :: buckets[k];
      if !overflowed {
        ForgetAgrees(limits, buckets, kept, ideal, now);
      }
      Fewer(kept.Keys, buckets.Keys);
      buckets := kept;
      Evict();
    }

    /** Bring the map down to the cap: whoever goes was seen no later than whoever stays. */
    method Evict()
      requires Sound()
      modifies this`buckets, this`overflowed
      ensures Valid() && (|old(buckets)| <= limits.maxKeys ==> buckets == old(buckets) && overflowed == old(overflowed))
      ensures Kept(old(buckets), buckets)
    {
      ghost var was := buckets;
      while |buckets| > limits.maxKeys
        invariant Sound() && Kept(was, buckets)
        invariant |was| <= limits.maxKeys ==> buckets == was && overflowed == old(overflowed)
        decreases |buckets|
      {
        var k := Oldest();
        overflowed := true;
        KeptLess(was, buckets, k);
        buckets := buckets - {k};
      }
    }

    method Oldest() returns (oldest: Key)
      requires buckets != map[]
      ensures oldest in buckets && forall k :: k in buckets ==> buckets[oldest].last <= buckets[k].last
    {
      var todo := buckets.Keys;
      oldest :| oldest in todo;
      while todo != {}
        invariant oldest in buckets && todo <= buckets.Keys
        invariant forall k :: k in buckets && k !in todo ==> buckets[oldest].last <= buckets[k].last
      {
        var k :| k in todo;
        if buckets[k].last < buckets[oldest].last {
          oldest := k;
        }
        todo := todo - {k};
      }
    }
  }
}
