/** The token-bucket limiter, over exact reals and a clock that does not go back. */
module RateLimit {
  type Key = nat

  datatype Bucket = Bucket(tokens: real, last: real)

  type Buckets = map<Key, Bucket>

  datatype Limits = Limits(rps: real, burst: real, idle: real, maxKeys: nat)
  {
    ghost predicate Valid() { rps >= 0.0 && burst >= 0.0 && idle > 0.0 }
  }

  datatype Request = Request(key: Key, now: real)

  datatype Answer = Answer(allowed: bool, wait: real)

  function Least(a: real, b: real): real { if a <= b then a else b }

  // ---------------------------------------------------------------- one request

  function Refill(l: Limits, b: Bucket, now: real): Bucket
  {
    if now > b.last then Bucket(Least(l.burst, b.tokens + (now - b.last) * l.rps), now) else b
  }

  predicate Stale(l: Limits, b: Bucket, now: real) { now - b.last > l.idle }

  function Evict(l: Limits, bs: Buckets, now: real): Buckets
  {
    map k | k in bs && !Stale(l, bs[k], now) :: bs[k]
  }

  /** The bucket a request draws from: refilled, or new and full. */
  function Drawn(l: Limits, bs: Buckets, r: Request): Bucket
  {
    if r.key in bs then Refill(l, bs[r.key], r.now) else Bucket(l.burst, r.now)
  }

  function Kept(l: Limits, bs: Buckets, r: Request, evicting: bool): Buckets
  {
    if evicting && r.key !in bs && |bs| >= l.maxKeys then Evict(l, bs, r.now) else bs
  }

  function AnswerFor(l: Limits, b: Bucket): Answer
  {
    if b.tokens >= 1.0 then Answer(true, 0.0)
    else if l.rps <= 0.0 then Answer(false, 3600.0)
    else Answer(false, (1.0 - b.tokens) / l.rps + 1.0)
  }

  function Spent(b: Bucket): Bucket { if b.tokens >= 1.0 then b.(tokens := b.tokens - 1.0) else b }

  function Serve(l: Limits, bs: Buckets, r: Request, evicting: bool): Buckets
  {
    Kept(l, bs, r, evicting)[r.key := Spent(Drawn(l, bs, r))]
  }

  function Answered(l: Limits, bs: Buckets, r: Request): Answer { AnswerFor(l, Drawn(l, bs, r)) }

  class Limiter {
    const limits: Limits
    var buckets: Buckets

    constructor (limits: Limits)
      ensures buckets == map[] && this.limits == limits
    {
      this.limits := limits;
      buckets := map[];
    }

    /** Consumes one token for the key, or says how long to wait for one. */
    method Allow(key: Key, now: real) returns (answer: Answer)
      modifies this
      ensures answer == Answered(limits, old(buckets), Request(key, now))
      ensures buckets == Serve(limits, old(buckets), Request(key, now), true)
    {
      var b := Bucket(limits.burst, now);
      if key !in buckets {
        if |buckets| >= limits.maxKeys {
          EvictIdle(now);
        }
      } else {
        b := buckets[key];
        if now - b.last > 0.0 {
          b := Bucket(Least(limits.burst, b.tokens + (now - b.last) * limits.rps), now);
        }
      }
      if b.tokens >= 1.0 {
        b := b.(tokens := b.tokens - 1.0);
        answer := Answer(true, 0.0);
      } else if limits.rps <= 0.0 {
        answer := Answer(false, 3600.0);
      } else {
        answer := Answer(false, (1.0 - b.tokens) / limits.rps + 1.0);
      }
      buckets := buckets[key := b];
    }

    method EvictIdle(now: real)
      modifies this
      ensures buckets == Evict(limits, old(buckets), now)
    {
      var todo := buckets.Keys;
      while todo != {}
        invariant todo <= old(buckets.Keys)
        invariant forall k :: k in buckets <==> k in old(buckets) && (k in todo || !Stale(limits, old(buckets)[k], now))
        invariant forall k :: k in buckets ==> buckets[k] == old(buckets)[k]
        decreases todo
      {
        var k :| k in todo;
        if now - buckets[k].last > limits.idle {
          buckets := buckets - {k};
        }
        todo := todo - {k};
      }
    }
  }

  // ---------------------------------------------------------------- runs

  ghost predicate InOrder(reqs: seq<Request>) { forall i, j :: 0 <= i < j < |reqs| ==> reqs[i].now <= reqs[j].now }

  function After(l: Limits, reqs: seq<Request>, n: nat, evicting: bool): Buckets
    requires n <= |reqs|
  {
    if n == 0 then map[] else Serve(l, After(l, reqs, n - 1, evicting), reqs[n - 1], evicting)
  }

  function Granted(l: Limits, reqs: seq<Request>, i: nat, evicting: bool): bool
    requires i < |reqs|
  {
    Answered(l, After(l, reqs, i, evicting), reqs[i]).allowed
  }

  /** Buckets hold between nothing and a full burst, and were last touched in the past. */
  ghost predicate BucketsOk(l: Limits, bs: Buckets, now: real)
  {
    forall k :: k in bs ==> 0.0 <= bs[k].tokens <= l.burst && bs[k].last <= now
  }

  lemma Product(a: real, b: real)
    requires a >= 0.0 && b >= 0.0
    ensures a * b >= 0.0
  {
  }

  lemma RefillOk(l: Limits, b: Bucket, now: real)
    requires l.Valid() && 0.0 <= b.tokens <= l.burst && b.last <= now
    ensures 0.0 <= Refill(l, b, now).tokens <= l.burst && Refill(l, b, now).last == now
  {
    Product(now - b.last, l.rps);
  }

  lemma ServeOk(l: Limits, bs: Buckets, r: Request, evicting: bool, now: real)
    requires l.Valid() && BucketsOk(l, bs, now) && now <= r.now
    ensures BucketsOk(l, Serve(l, bs, r, evicting), r.now)
  {
    if r.key in bs { RefillOk(l, bs[r.key], r.now); }
    hide Refill;
  }

  lemma {:induction false} AfterOk(l: Limits, reqs: seq<Request>, n: nat, evicting: bool)
    requires l.Valid() && InOrder(reqs) && 0 < n <= |reqs|
    ensures BucketsOk(l, After(l, reqs, n, evicting), reqs[n - 1].now)
  {
    hide Serve;
    if n > 1 {
      AfterOk(l, reqs, n - 1, evicting);
      ServeOk(l, After(l, reqs, n - 1, evicting), reqs[n - 1], evicting, reqs[n - 2].now);
    } else {
      ServeOk(l, map[], reqs[0], evicting, reqs[0].now);
    }
  }

  // ---------------------------------------------------------------- eviction is invisible

  /** The evicting limiter's buckets are the other's, less some that would be full again. */
  ghost predicate Mirrors(l: Limits, e: Buckets, n: Buckets, now: real)
  {
    && (forall k :: k in e ==> k in n && e[k] == n[k])
    && (forall k :: k in n && k !in e ==> Full(l, n[k], now))
  }

  /** Untouched long enough to hold a whole burst by now. */
  ghost predicate Full(l: Limits, b: Bucket, now: real)
  {
    b.last < now && b.tokens + (now - b.last) * l.rps >= l.burst
  }

  lemma FullAges(l: Limits, b: Bucket, now: real, to: real)
    requires l.Valid() && Full(l, b, now) && now <= to
    ensures Full(l, b, to)
  {
    Scales(now - b.last, to - b.last, l.rps);
  }

  lemma Scales(a: real, b: real, c: real)
    requires a <= b && c >= 0.0
    ensures a * c <= b * c
  {
    Product(b - a, c);
    assert (b - a) * c == b * c - a * c;
  }

  lemma MirrorsAges(l: Limits, e: Buckets, n: Buckets, now: real, to: real)
    requires l.Valid() && Mirrors(l, e, n, now) && now <= to
    ensures Mirrors(l, e, n, to)
  {
    hide Full;
    forall k | k in n && k !in e ensures Full(l, n[k], to) {
      FullAges(l, n[k], now, to);
    }
  }

  /** A bucket idle long enough to be evicted is full again. */
  lemma IdleIsFull(l: Limits, b: Bucket, now: real)
    requires l.Valid() && l.burst <= l.rps * l.idle && 0.0 <= b.tokens && Stale(l, b, now)
    ensures Full(l, b, now)
  {
    Enough(b.tokens, l.burst, l.rps, l.idle, now - b.last);
  }

  lemma Enough(tokens: real, burst: real, rps: real, idle: real, elapsed: real)
    requires burst <= rps * idle && tokens >= 0.0 && elapsed >= idle && rps >= 0.0
    ensures tokens + elapsed * rps >= burst
  {
    var accrued, need := elapsed * rps, idle * rps;
    assert need <= accrued by { Scales(idle, elapsed, rps); }
    assert need == rps * idle by { Commutes(idle, rps); }
  }

  lemma Commutes(a: real, b: real)
    ensures a * b == b * a
  {
  }

  lemma Accrues(a: real, b: real, c: real, rps: real)
    ensures (b - a) * rps + (c - b) * rps == (c - a) * rps && (a - a) * rps == 0.0
  {
  }

  lemma MirrorsEvict(l: Limits, e: Buckets, n: Buckets, now: real)
    requires l.Valid() && l.burst <= l.rps * l.idle && Mirrors(l, e, n, now) && BucketsOk(l, n, now)
    ensures Mirrors(l, Evict(l, e, now), n, now)
  {
    hide Full;
    forall k | k in n && k !in Evict(l, e, now) ensures Full(l, n[k], now) {
      if k in e { IdleIsFull(l, n[k], now); }
    }
  }

  /** The two limiters draw from the same bucket. */
  lemma MirrorsDraw(l: Limits, e: Buckets, n: Buckets, r: Request)
    requires Mirrors(l, e, n, r.now)
    ensures Drawn(l, e, r) == Drawn(l, n, r)
  {
  }

  lemma MirrorsPut(l: Limits, e: Buckets, n: Buckets, now: real, key: Key, b: Bucket)
    requires Mirrors(l, e, n, now)
    ensures Mirrors(l, e[key := b], n[key := b], now)
  {
    hide Full;
  }

  lemma MirrorsServe(l: Limits, e: Buckets, n: Buckets, r: Request)
    requires l.Valid() && l.burst <= l.rps * l.idle && Mirrors(l, e, n, r.now) && BucketsOk(l, n, r.now)
    ensures Mirrors(l, Serve(l, e, r, true), Serve(l, n, r, false), r.now)
  {
    hide Drawn, Evict, Mirrors, BucketsOk, Spent;
    MirrorsDraw(l, e, n, r);
    MirrorsEvict(l, e, n, r.now);
    MirrorsPut(l, Kept(l, e, r, true), n, r.now, r.key, Spent(Drawn(l, n, r)));
  }

  lemma {:induction false} MirrorsAfter(l: Limits, reqs: seq<Request>, n: nat)
    requires l.Valid() && l.burst <= l.rps * l.idle && InOrder(reqs) && 0 < n <= |reqs|
    ensures Mirrors(l, After(l, reqs, n, true), After(l, reqs, n, false), reqs[n - 1].now)
  {
    hide Serve, Mirrors;
    if n > 1 {
      MirrorsAfter(l, reqs, n - 1);
      AfterOk(l, reqs, n - 1, false);
      var e, m := After(l, reqs, n - 1, true), After(l, reqs, n - 1, false);
      MirrorsAges(l, e, m, reqs[n - 2].now, reqs[n - 1].now);
      MirrorsServe(l, e, m, reqs[n - 1]);
    } else {
      EmptyMirrors(l, reqs[0].now);
      MirrorsServe(l, map[], map[], reqs[0]);
    }
  }

  lemma EmptyMirrors(l: Limits, now: real)
    ensures Mirrors(l, map[], map[], now)
  {
  }

  /** When a burst refills within the idle time, the limiter with eviction answers every
      request exactly as one that never evicts. */
  lemma EvictionIsInvisible(l: Limits, reqs: seq<Request>, i: nat)
    requires l.Valid() && l.burst <= l.rps * l.idle && InOrder(reqs) && i < |reqs|
    ensures Answered(l, After(l, reqs, i, true), reqs[i]) == Answered(l, After(l, reqs, i, false), reqs[i])
  {
    hide Drawn, Mirrors;
    if i > 0 {
      MirrorsAfter(l, reqs, i);
      MirrorsAges(l, After(l, reqs, i, true), After(l, reqs, i, false), reqs[i - 1].now, reqs[i].now);
      MirrorsDraw(l, After(l, reqs, i, true), After(l, reqs, i, false), reqs[i]);
    }
  }

  /** That condition is exact for the bucket evicted: forgetting an idle bucket forgets
      nothing precisely when a burst refills within the idle time. */
  lemma ForgettingIsExact(l: Limits)
    requires l.Valid()
    ensures l.burst <= l.rps * l.idle <==>
              forall b: Bucket, now: real ::
                0.0 <= b.tokens <= l.burst && Stale(l, b, now) ==> Refill(l, b, now).tokens == l.burst
  {
    if l.burst <= l.rps * l.idle {
      forall b: Bucket, now: real | 0.0 <= b.tokens <= l.burst && Stale(l, b, now)
        ensures Refill(l, b, now).tokens == l.burst
      {
        IdleIsFull(l, b, now);
      }
    } else {
      var gap := l.burst - l.rps * l.idle;
      var more := if l.rps == 0.0 then 1.0 else gap / (2.0 * l.rps);
      var b, now := Bucket(0.0, 0.0), l.idle + more;
      Halves(l.rps, gap, more);
      Accrues(0.0, l.idle, l.idle + more, l.rps);
      Commutes(l.idle, l.rps);
      assert Stale(l, b, now) && Refill(l, b, now).tokens < l.burst;
    }
  }

  lemma Halves(rps: real, gap: real, more: real)
    requires rps >= 0.0 && gap > 0.0 && more == if rps == 0.0 then 1.0 else gap / (2.0 * rps)
    ensures more > 0.0 && more * rps < gap
  {
    if rps > 0.0 {
      assert more * (2.0 * rps) == gap;
      assert more * (2.0 * rps) == 2.0 * (more * rps);
      Quotient(gap, 2.0 * rps);
    }
  }

  // ---------------------------------------------------------------- the bound

  /** Tokens a key could draw at a time. */
  function Level(l: Limits, bs: Buckets, key: Key, now: real): real
  {
    if key in bs then Refill(l, bs[key], now).tokens else l.burst
  }

  lemma LevelRises(l: Limits, bs: Buckets, key: Key, now: real, to: real)
    requires l.Valid() && BucketsOk(l, bs, now) && now <= to
    ensures 0.0 <= Level(l, bs, key, now) <= l.burst
    ensures Level(l, bs, key, to) <= Level(l, bs, key, now) + (to - now) * l.rps
  {
    Product(to - now, l.rps);
    if key in bs {
      var b := bs[key];
      RefillOk(l, b, now);
      RefillOk(l, b, to);
      Accrues(b.last, now, to, l.rps);
    }
  }

  lemma LevelServes(l: Limits, bs: Buckets, r: Request, key: Key)
    requires l.Valid() && BucketsOk(l, bs, r.now)
    ensures Level(l, Serve(l, bs, r, false), key, r.now)
            == Level(l, bs, key, r.now) - if r.key == key && Answered(l, bs, r).allowed then 1.0 else 0.0
  {
    if r.key in bs { RefillOk(l, bs[r.key], r.now); }
    hide Refill;
    LevelOfSpent(l, Spent(Drawn(l, bs, r)), r.now);
  }

  lemma LevelOfSpent(l: Limits, b: Bucket, now: real)
    requires b.last == now
    ensures Refill(l, b, now) == b
  {
  }

  /** Requests of a key granted among those from i up to j. */
  function GrantedOf(l: Limits, reqs: seq<Request>, key: Key, i: nat, j: nat, evicting: bool): nat
    requires i <= j <= |reqs|
    decreases j
  {
    if i == j then 0
    else GrantedOf(l, reqs, key, i, j - 1, evicting) + if reqs[j - 1].key == key && Granted(l, reqs, j - 1, evicting) then 1 else 0
  }

  /** Tokens left plus tokens spent never exceed tokens at hand plus tokens accrued. */
  lemma {:induction false} Conserved(l: Limits, reqs: seq<Request>, key: Key, i: nat, j: nat)
    requires l.Valid() && InOrder(reqs) && i < j <= |reqs|
    ensures Level(l, After(l, reqs, j, false), key, reqs[j - 1].now) + GrantedOf(l, reqs, key, i, j, false) as real
            <= Level(l, After(l, reqs, i, false), key, reqs[i].now) + (reqs[j - 1].now - reqs[i].now) * l.rps
    decreases j
  {
    hide Level, Serve, Answered, BucketsOk;
    var bs, r := After(l, reqs, j - 1, false), reqs[j - 1];
    if j - 1 == i {
      EarlierOk(l, reqs, i);
      LevelServes(l, bs, r, key);
      Accrues(r.now, r.now, r.now, l.rps);
      assert GrantedOf(l, reqs, key, i, i, false) == 0;
    } else {
      Conserved(l, reqs, key, i, j - 1);
      AfterOk(l, reqs, j - 1, false);
      LevelRises(l, bs, key, reqs[j - 2].now, r.now);
      EarlierOk(l, reqs, j - 1);
      LevelServes(l, bs, r, key);
      Accrues(reqs[i].now, reqs[j - 2].now, r.now, l.rps);
    }
  }

  lemma EarlierOk(l: Limits, reqs: seq<Request>, i: nat)
    requires l.Valid() && InOrder(reqs) && i < |reqs|
    ensures BucketsOk(l, After(l, reqs, i, false), reqs[i].now)
  {
    if i > 0 { AfterOk(l, reqs, i, false); }
    hide Serve;
  }

  /** Requests allowed for one key in any interval number at most a burst plus what the
      interval accrues. */
  lemma AllowedAtMost(l: Limits, reqs: seq<Request>, key: Key, i: nat, j: nat)
    requires l.Valid() && InOrder(reqs) && i < j <= |reqs|
    ensures GrantedOf(l, reqs, key, i, j, false) as real <= l.burst + l.rps * (reqs[j - 1].now - reqs[i].now)
    ensures l.burst <= l.rps * l.idle ==>
              GrantedOf(l, reqs, key, i, j, true) as real <= l.burst + l.rps * (reqs[j - 1].now - reqs[i].now)
  {
    Conserved(l, reqs, key, i, j);
    EarlierOk(l, reqs, i);
    LevelRises(l, After(l, reqs, i, false), key, reqs[i].now, reqs[i].now);
    AfterOk(l, reqs, j, false);
    LevelRises(l, After(l, reqs, j, false), key, reqs[j - 1].now, reqs[j - 1].now);
    if l.burst <= l.rps * l.idle { SameGrants(l, reqs, key, i, j); }
    hide Level, GrantedOf;
  }

  lemma {:induction false} SameGrants(l: Limits, reqs: seq<Request>, key: Key, i: nat, j: nat)
    requires l.Valid() && l.burst <= l.rps * l.idle && InOrder(reqs) && i <= j <= |reqs|
    ensures GrantedOf(l, reqs, key, i, j, true) == GrantedOf(l, reqs, key, i, j, false)
    decreases j
  {
    hide Answered, After;
    if i < j {
      SameGrants(l, reqs, key, i, j - 1);
      EvictionIsInvisible(l, reqs, j - 1);
    }
  }

  // ---------------------------------------------------------------- honest waiting

  /** Other keys' requests touch a key's bucket at most by evicting it. */
  lemma {:induction false} Untouched(l: Limits, reqs: seq<Request>, key: Key, i: nat, j: nat)
    requires i < j <= |reqs| && forall k :: i < k < j ==> reqs[k].key != key
    ensures var v, w := After(l, reqs, i + 1, true), After(l, reqs, j, true);
            key in w ==> key in v && w[key] == v[key]
    decreases j
  {
    hide Drawn, Spent, Evict;
    if i + 1 < j {
      Untouched(l, reqs, key, i, j - 1);
      EvictKeeps(l, After(l, reqs, j - 1, true), reqs[j - 1].now);
    }
  }

  lemma EvictKeeps(l: Limits, bs: Buckets, now: real)
    ensures forall k :: k in Evict(l, bs, now) ==> k in bs && Evict(l, bs, now)[k] == bs[k]
  {
  }

  /** After waiting as long as a refusal said, with no request of the same key meanwhile and
      any requests of others, the next request is allowed. */
  lemma WaitingIsEnough(l: Limits, reqs: seq<Request>, i: nat, j: nat)
    requires l.Valid() && l.rps > 0.0 && l.burst >= 1.0 && InOrder(reqs) && i < j < |reqs|
    requires reqs[i].key == reqs[j].key && forall k :: i < k < j ==> reqs[k].key != reqs[i].key
    requires !Granted(l, reqs, i, true)
    requires reqs[j].now - reqs[i].now >= Answered(l, After(l, reqs, i, true), reqs[i]).wait
    ensures Granted(l, reqs, j, true)
  {
    var bs := After(l, reqs, i, true);
    var b := Drawn(l, bs, reqs[i]);
    if i > 0 { AfterOk(l, reqs, i, true); }
    if reqs[i].key in bs { RefillOk(l, bs[reqs[i].key], reqs[i].now); }
    Untouched(l, reqs, reqs[i].key, i, j);
    assert After(l, reqs, i + 1, true)[reqs[i].key] == b;
    hide After;
    WaitRefills(l, b, reqs[j].now);
  }

  lemma WaitRefills(l: Limits, b: Bucket, to: real)
    requires l.rps > 0.0 && l.burst >= 1.0 && b.tokens < 1.0 && to - b.last >= (1.0 - b.tokens) / l.rps + 1.0
    ensures Refill(l, b, to).tokens >= 1.0
  {
    var w := (1.0 - b.tokens) / l.rps;
    assert w * l.rps == 1.0 - b.tokens;
    Quotient(1.0 - b.tokens, l.rps);
    Scales(w, to - b.last, l.rps);
  }

  lemma Quotient(a: real, b: real)
    requires a > 0.0 && b > 0.0
    ensures a / b > 0.0
  {
  }

  // ---------------------------------------------------------------- no bound on keys

  function Below(n: nat): (ks: set<Key>)
    ensures |ks| == n && forall k :: k in ks ==> k < n
  {
    if n == 0 then {} else Below(n - 1) + {n - 1}
  }

  function Fresh(n: nat, now: real): (reqs: seq<Request>)
    ensures |reqs| == n && forall i :: 0 <= i < n ==> reqs[i].now == now
  {
    if n == 0 then [] else Fresh(n - 1, now) + [Request(n - 1, now)]
  }

  lemma FreshJoins(n: nat, now: real)
    requires n > 0
    ensures Fresh(n, now)[n - 1] == Request(n - 1, now) && Below(n) == Below(n - 1) + {n - 1} && n - 1 !in Below(n - 1)
    ensures forall i :: 0 <= i < n - 1 ==> Fresh(n, now)[i] == Fresh(n - 1, now)[i]
  {
  }

  lemma FreshInOrder(n: nat, now: real)
    ensures InOrder(Fresh(n, now))
  {
    hide Fresh;
  }

  /** The bound on keys bounds nothing: any number of fresh keys at one time are all kept. */
  lemma {:induction false} KeysAreUnbounded(l: Limits, now: real, n: nat)
    requires l.Valid()
    ensures InOrder(Fresh(n, now))
    ensures After(l, Fresh(n, now), n, true).Keys == Below(n) && |Below(n)| == n
    ensures forall k :: k in After(l, Fresh(n, now), n, true) ==> After(l, Fresh(n, now), n, true)[k].last == now
  {
    FreshInOrder(n, now);
    hide Serve, After, Fresh, InOrder;
    var reqs := Fresh(n, now);
    if n == 0 {
      StartsEmpty(l, reqs);
    } else {
      hide Below;
      var before := Fresh(n - 1, now);
      KeysAreUnbounded(l, now, n - 1);
      FreshJoins(n, now);
      SamePrefix(l, reqs, before, n - 1);
      ServedNext(l, reqs, n - 1);
      ServeFresh(l, After(l, before, n - 1, true), n - 1, now);
    }
  }

  /** One request keeps the map within its bound exactly when its key is known, or there is
      room, or some bucket can be evicted. */
  lemma BoundKeptExactly(l: Limits, bs: Buckets, r: Request)
    requires |bs| <= l.maxKeys
    ensures |Serve(l, bs, r, true)| <= l.maxKeys <==> Fits(l, bs, r)
    ensures !Fits(l, bs, r) ==> |Serve(l, bs, r, true)| == l.maxKeys + 1
  {
    hide Drawn, Spent, Stale;
    var kept, served := Kept(l, bs, r, true), Serve(l, bs, r, true);
    assert served.Keys == kept.Keys + {r.key} && |served.Keys| == |served| && |kept.Keys| == |kept|;
    if r.key !in bs && |bs| >= l.maxKeys {
      assert kept.Keys <= bs.Keys;
      if exists k :: k in bs && Stale(l, bs[k], r.now) {
        var k :| k in bs && Stale(l, bs[k], r.now);
        FewerKeys(kept.Keys, bs.Keys, k);
      } else {
        assert kept == bs;
      }
    }
  }

  predicate Fits(l: Limits, bs: Buckets, r: Request)
  {
    r.key in bs || |bs| < l.maxKeys || exists k :: k in bs && Stale(l, bs[k], r.now)
  }

  lemma FewerKeys(a: set<Key>, b: set<Key>, k: Key)
    requires a <= b && k in b && k !in a
    ensures |a| < |b|
  {
    CardinalityOf(a, b - {k});
  }

  lemma {:induction false} CardinalityOf(a: set<Key>, b: set<Key>)
    requires a <= b
    ensures |a| <= |b|
  {
    if a != {} {
      var x :| x in a;
      CardinalityOf(a - {x}, b - {x});
    }
  }

  ghost predicate Bounded(l: Limits, reqs: seq<Request>, n: nat)
    requires n <= |reqs|
  {
    forall i :: 0 <= i <= n ==> |After(l, reqs, i, true)| <= l.maxKeys
  }

  ghost predicate AllFit(l: Limits, reqs: seq<Request>, n: nat)
    requires n <= |reqs|
  {
    forall i :: 0 <= i < n ==> Fits(l, After(l, reqs, i, true), reqs[i])
  }

  /** Over a whole run: the map has stayed within its bound exactly when every request found
      its key known, room, or something to evict. */
  lemma {:induction false} BoundHoldsExactly(l: Limits, reqs: seq<Request>, n: nat)
    requires n <= |reqs|
    ensures Bounded(l, reqs, n) <==> AllFit(l, reqs, n)
  {
    hide Serve, Fits;
    if n > 0 {
      BoundHoldsExactly(l, reqs, n - 1);
      var bs := After(l, reqs, n - 1, true);
      assert After(l, reqs, n, true) == Serve(l, bs, reqs[n - 1], true);
      assert Bounded(l, reqs, n) <==> Bounded(l, reqs, n - 1) && |After(l, reqs, n, true)| <= l.maxKeys;
      assert AllFit(l, reqs, n) <==> AllFit(l, reqs, n - 1) && Fits(l, bs, reqs[n - 1]);
      if |bs| <= l.maxKeys {
        BoundKeptExactly(l, bs, reqs[n - 1]);
      }
    }
  }

  lemma ServeFresh(l: Limits, bs: Buckets, key: Key, now: real)
    requires l.Valid() && key !in bs && forall k :: k in bs ==> bs[k].last == now
    ensures var w := Serve(l, bs, Request(key, now), true);
            w.Keys == bs.Keys + {key} && forall k :: k in w ==> w[k].last == now
  {
    assert Evict(l, bs, now) == bs;
  }

  lemma {:induction false} SamePrefix(l: Limits, a: seq<Request>, b: seq<Request>, n: nat)
    requires n <= |a| && n <= |b| && forall i :: 0 <= i < n ==> a[i] == b[i]
    ensures After(l, a, n, true) == After(l, b, n, true)
  {
    hide Serve;
    if n > 0 { SamePrefix(l, a, b, n - 1); }
  }

  // ---------------------------------------------------------------- when eviction breaks the bound

  lemma {:induction false} GrantedSplits(l: Limits, reqs: seq<Request>, key: Key, i: nat, k: nat, j: nat)
    requires i <= k <= j <= |reqs|
    ensures GrantedOf(l, reqs, key, i, j, true) == GrantedOf(l, reqs, key, i, k, true) + GrantedOf(l, reqs, key, k, j, true)
    decreases j
  {
    hide Granted;
    if k < j { GrantedSplits(l, reqs, key, i, k, j - 1); }
  }

  /** A key without a bucket draws a whole burst at one time. */
  lemma {:induction false} BurstIsGranted(l: Limits, reqs: seq<Request>, key: Key, now: real, s: nat, d: nat, n: nat)
    requires l.burst == n as real && d <= n && s + d <= |reqs| && key !in After(l, reqs, s, true)
    requires forall i :: s <= i < s + d ==> reqs[i] == Request(key, now)
    ensures GrantedOf(l, reqs, key, s, s + d, true) == d
    ensures d > 0 ==> key in After(l, reqs, s + d, true) && After(l, reqs, s + d, true)[key] == Bucket((n - d) as real, now)
  {
    hide Kept;
    if d > 0 {
      BurstIsGranted(l, reqs, key, now, s, d - 1, n);
      var bs := After(l, reqs, s + d - 1, true);
      assert Drawn(l, bs, reqs[s + d - 1]) == Bucket((n - d + 1) as real, now);
    }
  }

  /** Requests all at one time leave a bucket for every key, touched then. */
  lemma {:induction false} AllAtOnce(l: Limits, reqs: seq<Request>, now: real, n: nat)
    requires l.Valid() && n <= |reqs| && forall i :: 0 <= i < n ==> reqs[i].now == now
    ensures var bs := After(l, reqs, n, true);
            && (forall k :: k in bs ==> bs[k].last == now)
            && (forall k :: k in bs ==> exists i :: 0 <= i < n && reqs[i].key == k)
            && (forall i :: 0 <= i < n ==> reqs[i].key in bs)
  {
    if n > 0 {
      AllAtOnce(l, reqs, now, n - 1);
      var bs, r := After(l, reqs, n - 1, true), reqs[n - 1];
      assert Evict(l, bs, now) == bs;
      assert Drawn(l, bs, r).last == now;
    }
  }

  /** A key spends its burst; others fill the map; once everything is stale a new key has it
      all evicted; the first key spends a second burst. */
  function TwoBursts(l: Limits, n: nat, later: real): seq<Request>
  {
    seq(n + l.maxKeys + 1 + n, i =>
      if i < n then Request(0, 0.0)
      else if i < n + l.maxKeys then Request((i - n + 1) as nat, 0.0)
      else if i == n + l.maxKeys then Request(l.maxKeys + 1, later)
      else Request(0, later))
  }

  lemma TwoBurstsOpen(l: Limits, n: nat, later: real)
    requires n > 0
    ensures var reqs, q := TwoBursts(l, n, later), n + l.maxKeys;
            && q < |reqs| && reqs[q] == Request(l.maxKeys + 1, later)
            && (forall i :: 0 <= i < q ==> reqs[i].now == 0.0 && reqs[i].key <= l.maxKeys)
            && (forall k :: 0 <= k <= l.maxKeys ==> reqs[KeyAt(n, k)].key == k)
  {
  }

  /** Where a key of the opening requests is first asked for. */
  function KeyAt(n: nat, k: nat): nat
    requires n > 0
  {
    if k == 0 then 0 else n + k - 1
  }

  /** By then the map is full of buckets of one time, none of them the new key's. */
  lemma FullMap(l: Limits, n: nat, later: real)
    requires l.Valid() && n > 0
    ensures var bs := After(l, TwoBursts(l, n, later), n + l.maxKeys, true);
            |bs| >= l.maxKeys && l.maxKeys + 1 !in bs && forall k :: k in bs ==> bs[k].last == 0.0
  {
    hide After, TwoBursts;
    var reqs, q := TwoBursts(l, n, later), n + l.maxKeys;
    TwoBurstsOpen(l, n, later);
    AllAtOnce(l, reqs, 0.0, q);
    var bs := After(l, reqs, q, true);
    forall k | k in Below(l.maxKeys) ensures k in bs.Keys {
      assert 0 <= KeyAt(n, k) < q && reqs[KeyAt(n, k)].key == k;
    }
    CardinalityOf(Below(l.maxKeys), bs.Keys);
    assert |bs| == |bs.Keys|;
  }

  lemma EvictsAll(l: Limits, n: nat, later: real)
    requires l.Valid() && n > 0 && later > l.idle
    ensures 0 !in After(l, TwoBursts(l, n, later), n + l.maxKeys + 1, true)
  {
    hide After, TwoBursts, Drawn, Spent;
    var reqs, q := TwoBursts(l, n, later), n + l.maxKeys;
    TwoBurstsOpen(l, n, later);
    FullMap(l, n, later);
    ServedNext(l, reqs, q);
    assert Evict(l, After(l, reqs, q, true), later) == map[];
  }

  lemma ServedNext(l: Limits, reqs: seq<Request>, q: nat)
    requires q < |reqs|
    ensures After(l, reqs, q + 1, true) == Serve(l, After(l, reqs, q, true), reqs[q], true)
  {
  }

  lemma TwoBurstsAreGranted(l: Limits, n: nat, later: real)
    requires l.Valid() && l.burst == n as real && n > 0 && later > l.idle
    ensures var reqs := TwoBursts(l, n, later); InOrder(reqs) && GrantedOf(l, reqs, 0, 0, |reqs|, true) >= 2 * n
  {
    hide After, TwoBursts, GrantedOf;
    var reqs, q := TwoBursts(l, n, later), n + l.maxKeys + 1;
    StartsEmpty(l, reqs);
    TwoBurstsDraws(l, n, later);
    BurstIsGranted(l, reqs, 0, 0.0, 0, n, n);
    EvictsAll(l, n, later);
    BurstIsGranted(l, reqs, 0, later, q, n, n);
    GrantedSplits(l, reqs, 0, 0, n, |reqs|);
    GrantedSplits(l, reqs, 0, n, q, |reqs|);
  }

  lemma TwoBurstsDraws(l: Limits, n: nat, later: real)
    requires n > 0 && later >= 0.0
    ensures var reqs, q := TwoBursts(l, n, later), n + l.maxKeys + 1;
            && |reqs| == q + n && InOrder(reqs)
            && (forall i :: 0 <= i < n ==> reqs[i] == Request(0, 0.0))
            && (forall i :: q <= i < q + n ==> reqs[i] == Request(0, later))
  {
  }

  lemma StartsEmpty(l: Limits, reqs: seq<Request>)
    ensures After(l, reqs, 0, true) == map[]
  {
  }

  /** The bound, over every run, key and interval. */
  ghost predicate Bounds(l: Limits)
  {
    forall reqs: seq<Request>, key: Key, i: nat, j: nat :: InOrder(reqs) && i < j <= |reqs| ==>
      GrantedOf(l, reqs, key, i, j, true) as real <= l.burst + l.rps * (reqs[j - 1].now - reqs[i].now)
  }

  /** For a whole burst, the limiter with eviction keeps the bound on every run exactly when
      a burst refills within the idle time. */
  lemma BoundIffRefills(l: Limits, n: nat)
    requires l.Valid() && l.burst == n as real
    ensures Bounds(l) <==> l.burst <= l.rps * l.idle
  {
    hide GrantedOf, TwoBursts;
    if l.burst <= l.rps * l.idle {
      forall reqs: seq<Request>, key: Key, i: nat, j: nat | InOrder(reqs) && i < j <= |reqs|
        ensures GrantedOf(l, reqs, key, i, j, true) as real <= l.burst + l.rps * (reqs[j - 1].now - reqs[i].now)
      {
        AllowedAtMost(l, reqs, key, i, j);
      }
    } else {
      Overruns(l, n);
    }
  }

  lemma Overruns(l: Limits, n: nat)
    requires l.Valid() && l.burst == n as real && l.burst > l.rps * l.idle
    ensures !Bounds(l)
  {
    hide Bounds;
    var gap := l.burst - l.rps * l.idle;
    var more := if l.rps == 0.0 then 1.0 else gap / (2.0 * l.rps);
    Halves(l.rps, gap, more);
    Product(l.rps, l.idle);
    Spread(l.rps, l.idle, more);
    SecondBurst(l, n, l.idle + more);
  }

  lemma Spread(rps: real, idle: real, more: real)
    ensures rps * (idle + more) == rps * idle + more * rps
  {
  }

  lemma SecondBurst(l: Limits, n: nat, later: real)
    requires l.Valid() && l.burst == n as real && n > 0 && later > l.idle && l.burst > l.rps * later
    ensures !Bounds(l)
  {
    hide GrantedOf, TwoBursts, InOrder;
    var reqs := TwoBursts(l, n, later);
    TwoBurstsAreGranted(l, n, later);
    TwoBurstsSpan(l, n, later);
    assert later - 0.0 == later;
    assert GrantedOf(l, reqs, 0, 0, |reqs|, true) as real > l.burst + l.rps * (reqs[|reqs| - 1].now - reqs[0].now);
  }

  lemma TwoBurstsSpan(l: Limits, n: nat, later: real)
    requires n > 0
    ensures var reqs := TwoBursts(l, n, later); reqs != [] && reqs[0].now == 0.0 && reqs[|reqs| - 1].now == later
  {
  }

  /** What one request does to everyone else: nothing, unless its key is new and the map is
      full, and then it drops exactly the buckets not touched for longer than the idle time. */
  lemma OthersAreKept(l: Limits, bs: Buckets, r: Request, k: Key)
    requires k != r.key
    ensures var w := Serve(l, bs, r, true);
            && (k in w <==> k in bs && !(r.key !in bs && |bs| >= l.maxKeys && r.now - bs[k].last > l.idle))
            && (k in w ==> w[k] == bs[k])
    ensures r.key in Serve(l, bs, r, true)
  {
    hide Drawn, Spent;
  }

  // ---------------------------------------------------------------- exactly what is granted

  /** What a bucket gains between two moments. */
  function Accrued(l: Limits, from: real, to: real): real { (to - from) * l.rps }

  lemma AccruedAdds(l: Limits, a: real, b: real, c: real)
    requires l.Valid() && b <= c
    ensures Accrued(l, a, b) + Accrued(l, b, c) == Accrued(l, a, c) && Accrued(l, b, c) >= 0.0 && Accrued(l, a, a) == 0.0
  {
    Accrues(a, b, c, l.rps);
    Product(c - b, l.rps);
  }

  lemma LeastOf(a: real, b: real, c: real)
    requires c >= 0.0
    ensures Least(a, Least(a, b) + c) == Least(a, b + c)
  {
  }

  lemma RefillAccrues(l: Limits, b: Bucket, now: real)
    requires l.Valid() && b.tokens <= l.burst && b.last <= now
    ensures Refill(l, b, now).tokens == Least(l.burst, b.tokens + Accrued(l, b.last, now))
  {
    Accrues(b.last, b.last, b.last, l.rps);
  }

  /** A level is the earlier one and what has accrued since, up to a burst. */
  lemma LevelRefills(l: Limits, bs: Buckets, key: Key, now: real, to: real)
    requires l.Valid() && BucketsOk(l, bs, now) && now <= to
    ensures Level(l, bs, key, to) == Least(l.burst, Level(l, bs, key, now) + Accrued(l, now, to))
  {
    hide Accrued, Refill;
    if key in bs {
      RefillAccrues(l, bs[key], now);
      RefillAccrues(l, bs[key], to);
      AccruedAdds(l, bs[key].last, now, to);
      LeastOf(l.burst, bs[key].tokens + Accrued(l, bs[key].last, now), Accrued(l, now, to));
    } else {
      AccruedAdds(l, now, now, to);
    }
  }

  /** What a key could draw when the j-th request comes. */
  function Before(l: Limits, reqs: seq<Request>, key: Key, j: nat): real
    requires j < |reqs|
  {
    Level(l, After(l, reqs, j, false), key, reqs[j].now)
  }

  lemma BeforeFirst(l: Limits, reqs: seq<Request>, key: Key)
    requires reqs != []
    ensures Before(l, reqs, key, 0) == l.burst
  {
  }

  /** What the j-th request takes of a key's level. */
  function Taken(l: Limits, reqs: seq<Request>, key: Key, j: nat): real
    requires j < |reqs|
  {
    if reqs[j].key == key && Granted(l, reqs, j, false) then 1.0 else 0.0
  }

  lemma BeforeNext(l: Limits, reqs: seq<Request>, key: Key, j: nat)
    requires l.Valid() && InOrder(reqs) && 0 < j < |reqs|
    ensures Before(l, reqs, key, j)
            == Least(l.burst, Before(l, reqs, key, j - 1) - Taken(l, reqs, key, j - 1) + Accrued(l, reqs[j - 1].now, reqs[j].now))
  {
    hide Level, Serve, BucketsOk, Accrued;
    AfterOk(l, reqs, j, false);
    EarlierOk(l, reqs, j - 1);
    LevelServes(l, After(l, reqs, j - 1, false), reqs[j - 1], key);
    LevelRefills(l, After(l, reqs, j, false), key, reqs[j - 1].now, reqs[j].now);
    hide Answered;
  }

  lemma GrantedNext(l: Limits, reqs: seq<Request>, key: Key, i: nat, j: nat)
    requires i <= j < |reqs|
    ensures GrantedOf(l, reqs, key, i, j + 1, false) as real == GrantedOf(l, reqs, key, i, j, false) as real + Taken(l, reqs, key, j)
    ensures GrantedOf(l, reqs, key, j, j, false) == 0
  {
    hide Granted;
  }

  /** Whatever moment is taken, what is left and what was drawn since never exceed a burst
      and what has accrued since; and at some moment they are exactly that. */
  lemma {:induction false} Account(l: Limits, reqs: seq<Request>, key: Key, j: nat) returns (full: nat)
    requires l.Valid() && InOrder(reqs) && j < |reqs|
    ensures full <= j
    ensures Before(l, reqs, key, j) + GrantedOf(l, reqs, key, full, j, false) as real == l.burst + Accrued(l, reqs[full].now, reqs[j].now)
    ensures forall i: nat :: i <= j ==>
              Before(l, reqs, key, j) + GrantedOf(l, reqs, key, i, j, false) as real <= l.burst + Accrued(l, reqs[i].now, reqs[j].now)
    decreases j
  {
    hide Before, Taken, GrantedOf, Accrued;
    AccruedAdds(l, reqs[j].now, reqs[j].now, reqs[j].now);
    GrantedNext(l, reqs, key, j, j);
    if j == 0 {
      BeforeFirst(l, reqs, key);
      full := 0;
    } else {
      var k := j - 1;
      full := Account(l, reqs, key, k);
      BeforeNext(l, reqs, key, j);
      forall i: nat | i <= j
        ensures Before(l, reqs, key, j) + GrantedOf(l, reqs, key, i, j, false) as real <= l.burst + Accrued(l, reqs[i].now, reqs[j].now)
      {
        if i < j {
          AccruedAdds(l, reqs[i].now, reqs[k].now, reqs[j].now);
          GrantedNext(l, reqs, key, i, k);
        }
      }
      AccruedAdds(l, reqs[full].now, reqs[k].now, reqs[j].now);
      GrantedNext(l, reqs, key, full, k);
      if Before(l, reqs, key, j) == l.burst { full := j; }
    }
  }

  lemma GrantedIsLevel(l: Limits, reqs: seq<Request>, j: nat)
    requires j < |reqs|
    ensures Granted(l, reqs, j, false) <==> Before(l, reqs, reqs[j].key, j) >= 1.0
  {
  }

  /** A request is allowed exactly when, since whichever earlier request is taken, the key
      has been allowed at least one fewer than a burst and what has accrued since. */
  lemma GrantedExactly(l: Limits, reqs: seq<Request>, j: nat)
    requires l.Valid() && InOrder(reqs) && j < |reqs|
    ensures Granted(l, reqs, j, false) <==>
              forall i: nat :: i <= j ==>
                GrantedOf(l, reqs, reqs[j].key, i, j, false) as real + 1.0 <= l.burst + Accrued(l, reqs[i].now, reqs[j].now)
  {
    hide Before, Granted, GrantedOf, Accrued;
    var full := Account(l, reqs, reqs[j].key, j);
    GrantedIsLevel(l, reqs, j);
  }

  /** Nothing else of the key's in between, its level only accrues. */
  lemma {:induction false} LeftAlone(l: Limits, reqs: seq<Request>, key: Key, i: nat, j: nat)
    requires l.Valid() && InOrder(reqs) && i < j < |reqs| && forall k :: i < k < j ==> reqs[k].key != key
    ensures Before(l, reqs, key, j) == Least(l.burst, Before(l, reqs, key, i) - Taken(l, reqs, key, i) + Accrued(l, reqs[i].now, reqs[j].now))
    decreases j
  {
    hide Before, Granted, Accrued;
    BeforeNext(l, reqs, key, j);
    if i + 1 < j {
      LeftAlone(l, reqs, key, i, j - 1);
      AccruedAdds(l, reqs[i].now, reqs[j - 1].now, reqs[j].now);
    }
  }

  /** The wait a refusal names is honest both ways, a second apart: the key's next request
      is allowed exactly from the moment a second short of it. With no refill it never is,
      and the wait named is an hour. */
  lemma WaitIsTight(l: Limits, reqs: seq<Request>, i: nat, j: nat)
    requires l.Valid() && l.burst >= 1.0 && InOrder(reqs) && i < j < |reqs|
    requires reqs[i].key == reqs[j].key && forall k :: i < k < j ==> reqs[k].key != reqs[i].key
    requires !Granted(l, reqs, i, false)
    ensures var wait := Answered(l, After(l, reqs, i, false), reqs[i]).wait;
            if l.rps > 0.0 then Granted(l, reqs, j, false) <==> reqs[j].now - reqs[i].now >= wait - 1.0
            else wait == 3600.0 && !Granted(l, reqs, j, false)
  {
    hide Before, Granted, After, Accrued, Answered;
    var level := Before(l, reqs, reqs[i].key, i);
    LeftAlone(l, reqs, reqs[i].key, i, j);
    GrantedIsLevel(l, reqs, i);
    GrantedIsLevel(l, reqs, j);
    WaitOf(l, reqs, i);
    Shortfall(l, 1.0 - level, reqs[i].now, reqs[j].now);
  }

  lemma WaitOf(l: Limits, reqs: seq<Request>, i: nat)
    requires i < |reqs| && !Granted(l, reqs, i, false)
    ensures Answered(l, After(l, reqs, i, false), reqs[i]).wait
            == if l.rps > 0.0 then (1.0 - Before(l, reqs, reqs[i].key, i)) / l.rps + 1.0 else 3600.0
  {
  }

  lemma Shortfall(l: Limits, short: real, from: real, to: real)
    requires l.Valid() && short > 0.0 && from <= to
    ensures l.rps > 0.0 ==> (Accrued(l, from, to) >= short <==> to - from >= short / l.rps)
    ensures l.rps == 0.0 ==> Accrued(l, from, to) == 0.0
  {
    if l.rps > 0.0 {
      var w := short / l.rps;
      assert w * l.rps == short;
      if to - from >= w { Scales(w, to - from, l.rps); } else { Strictly(to - from, w, l.rps); }
    }
  }

  lemma Strictly(a: real, b: real, c: real)
    requires a < b && c > 0.0
    ensures a * c < b * c
  {
    var gap := (b - a) * c;
    assert gap > 0.0;
    assert gap == b * c - a * c;
  }
}
