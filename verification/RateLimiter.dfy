/** Two token buckets debited together, with least-recently-used eviction of client buckets. */
module RateLimiter {
  import opened Graph

  datatype Policy = Auth | AdminWrite | WorkflowWrite | Read

  /** One bucket per policy and hashed client source. */
  datatype Key = Key(policy: Policy, source: int)

  datatype Counter = Counter(tokens: real, updatedAt: real, lastSeen: real)

  datatype Decision =
    | Allowed
    | GlobalLimit(retryAfter: nat)
    | ClientLimit(policy: Policy, retryAfter: nat)

  datatype Outcome = ClockError | Decided(decision: Decision)

  datatype Config = Config(window: int, read: int, auth: int, admin: int, workflow: int, global: int, maxKeys: int) {
    predicate Valid() {
      && window > 0 && read > 0 && auth > 0 && admin > 0 && workflow > 0 && global > 0 && maxKeys > 0
      && global >= read && global >= auth && global >= admin && global >= workflow
    }

    function Limit(p: Policy): int {
      match p
      case Auth => auth
      case AdminWrite => admin
      case WorkflowWrite => workflow
      case Read => read
    }
  }

  /** The mutable part: the global bucket, the client buckets, and their order of last use. */
  datatype Buckets = Buckets(global: Option<Counter>, clients: map<Key, Counter>, order: seq<Key>)

  // ---------- one bucket ----------

  /** Tokens that accrue to a bucket of the given capacity over a span of time. */
  function Accrued(capacity: int, window: int, span: real): real
    requires window > 0
  {
    span * (capacity as real) / (window as real)
  }

  function Refill(c: Counter, capacity: int, window: int, now: real): (r: Counter)
    requires window > 0
    ensures r.tokens <= capacity as real
    ensures r.tokens <= c.tokens + Accrued(capacity, window, if now > c.updatedAt then now - c.updatedAt else 0.0)
    ensures r.updatedAt == now
  {
    var elapsed := if now - c.updatedAt > 0.0 then now - c.updatedAt else 0.0;
    var filled := c.tokens + Accrued(capacity, window, elapsed);
    Counter(if capacity as real < filled then capacity as real else filled, now, now)
  }

  function Ceil(x: real): int {
    -((-x).Floor)
  }

  /** The time in which the missing fraction of a token accrues. */
  function TimeFor(missing: real, capacity: int, window: int): real
    requires capacity > 0
  {
    missing * (window as real) / (capacity as real)
  }

  function RetryAfter(c: Counter, capacity: int, window: int): (r: nat)
    requires capacity > 0
  {
    var missing := if 1.0 - c.tokens > 0.0 then 1.0 - c.tokens else 0.0;
    var wait := Ceil(TimeFor(missing, capacity, window));
    if wait > 1 then wait else 1
  }

  lemma AccruedAdds(capacity: int, window: int, a: real, b: real)
    requires window > 0
    ensures Accrued(capacity, window, a + b) == Accrued(capacity, window, a) + Accrued(capacity, window, b)
  {
    var c, w := capacity as real, window as real;
    assert (a + b) * c == a * c + b * c;
  }

  lemma AccruedNonNegative(capacity: int, window: int, a: real)
    requires window > 0 && capacity >= 0 && a >= 0.0
    ensures Accrued(capacity, window, a) >= 0.0
  {
    assert a * (capacity as real) >= 0.0;
  }

  lemma AccruedMonotone(capacity: int, window: int, a: real, b: real)
    requires window > 0 && capacity >= 0 && a <= b
    ensures Accrued(capacity, window, a) <= Accrued(capacity, window, b)
  {
    AccruedAdds(capacity, window, a, b - a);
    AccruedNonNegative(capacity, window, b - a);
  }

  lemma RefillKeepsBounds(c: Counter, capacity: int, window: int, now: real)
    requires window > 0 && capacity > 0 && 0.0 <= c.tokens
    ensures 0.0 <= Refill(c, capacity, window, now).tokens <= capacity as real
  {
    AccruedNonNegative(capacity, window, if now - c.updatedAt > 0.0 then now - c.updatedAt else 0.0);
  }

  /** What a missing fraction of a token costs in time. */
  lemma AccruedInverse(capacity: int, window: int, missing: real)
    requires window > 0 && capacity > 0
    ensures Accrued(capacity, window, TimeFor(missing, capacity, window)) == missing
  {
    var c, w := capacity as real, window as real;
    var span := missing * w / c;
    assert span * c == missing * w;
    assert missing * w / w == missing;
  }

  /** Waiting the advertised seconds refills the bucket to a whole token. */
  lemma RetryIsEnough(c: Counter, capacity: int, window: int)
    requires window > 0 && capacity > 0 && 0.0 <= c.tokens < 1.0
    ensures Refill(c, capacity, window, c.updatedAt + RetryAfter(c, capacity, window) as real).tokens >= 1.0
  {
    hide TimeFor, Accrued;
    var missing := 1.0 - c.tokens;
    var exact, wait := TimeFor(missing, capacity, window), RetryAfter(c, capacity, window);
    CeilIsTight(exact);
    AccruedInverse(capacity, window, missing);
    AccruedMonotone(capacity, window, exact, wait as real);
    assert c.updatedAt + wait as real - c.updatedAt == wait as real;
  }

  lemma RetryLess(c: Counter, capacity: int, window: int)
    requires window > 0 && capacity > 0 && 0.0 <= c.tokens < 1.0
    ensures Accrued(capacity, window, (RetryAfter(c, capacity, window) - 1) as real) < 1.0 - c.tokens
            || RetryAfter(c, capacity, window) == 1
  {
    hide Accrued, TimeFor;
    var missing := 1.0 - c.tokens;
    var exact := TimeFor(missing, capacity, window);
    CeilIsTight(exact);
    if Ceil(exact) > 1 {
      AccruesTooLittle(capacity, window, missing, (Ceil(exact) - 1) as real);
    }
  }

  /** And never more than that: one second less, when more than one second is advertised, is not enough. */
  lemma RetryIsTight(c: Counter, capacity: int, window: int)
    requires window > 0 && capacity > 0 && 0.0 <= c.tokens < 1.0
    requires RetryAfter(c, capacity, window) > 1
    ensures Refill(c, capacity, window, c.updatedAt + (RetryAfter(c, capacity, window) - 1) as real).tokens < 1.0
  {
    hide Accrued, RetryAfter;
    RetryLess(c, capacity, window);
    var less := (RetryAfter(c, capacity, window) - 1) as real;
    assert c.updatedAt + less - c.updatedAt == less;
  }

  lemma AccruesTooLittle(capacity: int, window: int, missing: real, less: real)
    requires window > 0 && capacity > 0 && less < TimeFor(missing, capacity, window)
    ensures Accrued(capacity, window, less) < missing
  {
    hide TimeFor;
    var exact := TimeFor(missing, capacity, window);
    AccruedInverse(capacity, window, missing);
    AccruedPositive(capacity, window, exact - less);
    AccruedAdds(capacity, window, less, exact - less);
    hide Accrued;
    assert less + (exact - less) == exact;
  }

  lemma CeilIsTight(x: real)
    ensures (Ceil(x) - 1) as real < x <= Ceil(x) as real
  {
  }

  lemma AccruedPositive(capacity: int, window: int, a: real)
    requires window > 0 && capacity > 0 && a > 0.0
    ensures Accrued(capacity, window, a) > 0.0
  {
    var c, w := capacity as real, window as real;
    var q := a * c / w;
    assert a * c > 0.0;
    assert q * w == a * c;
    assert q <= 0.0 ==> q * w <= 0.0;
  }

  // ---------- one request ----------

  function Others(order: seq<Key>, key: Key): seq<Key> {
    if order == [] then []
    else if order[|order| - 1] == key then Others(order[..|order| - 1], key)
    else Others(order[..|order| - 1], key) + [order[|order| - 1]]
  }

  /** Oldest entries go until one more fits. */
  function Evicted(b: Buckets, maxKeys: int): (r: Buckets)
    requires maxKeys > 0
  {
    var k := if |b.order| >= maxKeys then |b.order| - maxKeys + 1 else 0;
    b.(order := b.order[k..], clients := map x | x in b.clients && x in b.order[k..] :: b.clients[x])
  }

  function GlobalNow(b: Buckets, cfg: Config, now: real): Counter
    requires cfg.Valid()
  {
    Refill(if b.global.Some? then b.global.value else Counter(cfg.global as real, now, now), cfg.global,
        cfg.window, now)
  }

  function ClientNow(b: Buckets, cfg: Config, key: Key, now: real): Counter
    requires cfg.Valid()
  {
    if key in b.clients then Refill(b.clients[key], cfg.Limit(key.policy), cfg.window, now)
    else Counter(cfg.Limit(key.policy) as real, now, now)
  }

  function Decide(g: Counter, c: Counter, cfg: Config, p: Policy): Decision
    requires cfg.Valid()
  {
    if g.tokens < 1.0 then GlobalLimit(RetryAfter(g, cfg.global, cfg.window))
    else if c.tokens < 1.0 then ClientLimit(p, RetryAfter(c, cfg.Limit(p), cfg.window))
    else Allowed
  }

  function Spend(c: Counter, d: Decision): Counter {
    if d.Allowed? then c.(tokens := c.tokens - 1.0) else c
  }

  /** The whole effect of one request at a given time. */
  function Serve(b: Buckets, cfg: Config, key: Key, now: real): (r: (Buckets, Decision))
    requires cfg.Valid()
  {
    var g, c := GlobalNow(b, cfg, now), ClientNow(b, cfg, key, now);
    var kept := if key in b.clients then b.(order := Others(b.order, key)) else Evicted(b, cfg.maxKeys);
    var d := Decide(g, c, cfg, key.policy);
    (Buckets(Some(Spend(g, d)), kept.clients[key := Spend(c, d)], kept.order + [key]), d)
  }

  /** Buckets hold between zero and their capacity; the order lists each tracked key once. */
  ghost predicate Sound(b: Buckets, cfg: Config) {
    && (b.global.Some? ==> 0.0 <= b.global.value.tokens <= cfg.global as real)
    && (forall k :: k in b.clients ==> 0.0 <= b.clients[k].tokens <= cfg.Limit(k.policy) as real)
    && (forall k :: k in b.clients <==> k in b.order)
    && Distinct(b.order)
    && |b.order| <= cfg.maxKeys
  }

  ghost predicate Distinct(order: seq<Key>) {
    forall i, j :: 0 <= i < j < |order| ==> order[i] != order[j]
  }

  lemma {:induction false} OthersChar(order: seq<Key>, key: Key)
    requires Distinct(order)
    ensures Distinct(Others(order, key))
    ensures forall k :: k in Others(order, key) <==> k in order && k != key
    ensures |Others(order, key)| == |order| - if key in order then 1 else 0
  {
    if order != [] {
      var m := |order| - 1;
      assert order == order[..m] + [order[m]];
      OthersChar(order[..m], key);
      assert order[m] !in order[..m];
    }
  }

  lemma SuffixDistinct(order: seq<Key>, d: nat)
    requires Distinct(order) && d <= |order|
    ensures Distinct(order[d..])
  {
    forall i, j | 0 <= i < j < |order| - d
      ensures order[d..][i] != order[d..][j]
    {
      assert order[d..][i] == order[i + d] && order[d..][j] == order[j + d];
    }
  }

  lemma EvictedKeys(b: Buckets, maxKeys: int)
    requires maxKeys > 0 && forall k :: k in b.clients <==> k in b.order
    ensures var e := Evicted(b, maxKeys);
            && (forall k :: k in e.clients <==> k in e.order)
            && (forall k :: k in e.clients ==> k in b.clients && e.clients[k] == b.clients[k])
  {
    var e := Evicted(b, maxKeys);
    forall k
      ensures k in e.clients <==> k in e.order
    {
      assert k in e.order ==> k in b.order;
    }
  }

  lemma EvictedSound(b: Buckets, cfg: Config)
    requires cfg.Valid() && Sound(b, cfg)
    ensures Sound(Evicted(b, cfg.maxKeys), cfg) && |Evicted(b, cfg.maxKeys).order| < cfg.maxKeys
  {
    EvictedKeys(b, cfg.maxKeys);
    EvictedOrder(b, cfg.maxKeys);
    hide Evicted, Distinct;
  }

  lemma EvictedOrder(b: Buckets, maxKeys: int)
    requires maxKeys > 0 && Distinct(b.order)
    ensures Distinct(Evicted(b, maxKeys).order) && |Evicted(b, maxKeys).order| < maxKeys
    ensures Evicted(b, maxKeys).global == b.global
  {
    hide Distinct;
    SuffixDistinct(b.order, if |b.order| >= maxKeys then |b.order| - maxKeys + 1 else 0);
  }

  lemma CountersSound(b: Buckets, cfg: Config, key: Key, now: real)
    requires cfg.Valid() && Sound(b, cfg)
    ensures 0.0 <= GlobalNow(b, cfg, now).tokens <= cfg.global as real
    ensures 0.0 <= ClientNow(b, cfg, key, now).tokens <= cfg.Limit(key.policy) as real
  {
    hide Refill;
    if b.global.Some? {
      RefillKeepsBounds(b.global.value, cfg.global, cfg.window, now);
    } else {
      RefillKeepsBounds(Counter(cfg.global as real, now, now), cfg.global, cfg.window, now);
    }
    if key in b.clients {
      RefillKeepsBounds(b.clients[key], cfg.Limit(key.policy), cfg.window, now);
    }
  }

  /** Appending a key that is not tracked, with a sound counter, keeps the table sound. */
  lemma TrackKeepsSound(kept: Buckets, cfg: Config, key: Key, g: Counter, c: Counter)
    requires Sound(kept, cfg) && key !in kept.order && |kept.order| < cfg.maxKeys
    requires 0.0 <= g.tokens <= cfg.global as real && 0.0 <= c.tokens <= cfg.Limit(key.policy) as real
    ensures Sound(Buckets(Some(g), kept.clients[key := c], kept.order + [key]), cfg)
  {
    var order := kept.order + [key];
    forall i, j | 0 <= i < j < |order|
      ensures order[i] != order[j]
    {
      assert order[i] == kept.order[i];
    }
  }

  lemma UntrackKeepsSound(b: Buckets, cfg: Config, key: Key)
    requires Sound(b, cfg) && key in b.clients
    ensures Sound(b.(order := Others(b.order, key), clients := b.clients - {key}), cfg)
    ensures key !in Others(b.order, key) && |Others(b.order, key)| < cfg.maxKeys
  {
    OthersChar(b.order, key);
    hide Others, Distinct;
  }

  lemma CheckKeepsSound(b: Buckets, cfg: Config, key: Key, now: real)
    requires cfg.Valid() && Sound(b, cfg)
    ensures Sound(Serve(b, cfg, key, now).0, cfg)
  {
    CountersSound(b, cfg, key, now);
    var g, c := GlobalNow(b, cfg, now), ClientNow(b, cfg, key, now);
    var d := Decide(g, c, cfg, key.policy);
    assert d.Allowed? ==> g.tokens >= 1.0 && c.tokens >= 1.0;
    if key in b.clients {
      UntrackKeepsSound(b, cfg, key);
      var kept := b.(order := Others(b.order, key), clients := b.clients - {key});
      hide GlobalNow, ClientNow, Others, RetryAfter, Sound;
      TrackKeepsSound(kept, cfg, key, Spend(g, d), Spend(c, d));
      assert kept.clients[key := Spend(c, d)] == b.clients[key := Spend(c, d)];
    } else {
      EvictedSound(b, cfg);
      NotEvictedIn(b, cfg, key);
      hide GlobalNow, ClientNow, Evicted, RetryAfter, Sound;
      TrackKeepsSound(Evicted(b, cfg.maxKeys), cfg, key, Spend(g, d), Spend(c, d));
    }
  }

  lemma NotEvictedIn(b: Buckets, cfg: Config, key: Key)
    requires cfg.Valid() && Sound(b, cfg) && key !in b.clients
    ensures key !in Evicted(b, cfg.maxKeys).order
  {
    assert key !in b.order;
  }

  /** A denial spends no token from either bucket. */
  lemma DenialIsFree(b: Buckets, cfg: Config, key: Key, now: real)
    requires cfg.Valid() && !Serve(b, cfg, key, now).1.Allowed?
    ensures Serve(b, cfg, key, now).0.global == Some(GlobalNow(b, cfg, now))
    ensures Serve(b, cfg, key, now).0.clients[key] == ClientNow(b, cfg, key, now)
  {
    hide GlobalNow, ClientNow, Evicted, Others, RetryAfter;
  }

  /** After the advertised wait and no other traffic, the bucket that denied does not deny again. */
  lemma WaitingHelps(b: Buckets, cfg: Config, key: Key, now: real)
    requires cfg.Valid() && Sound(b, cfg)
    ensures var (b', d) := Serve(b, cfg, key, now);
            d.GlobalLimit? ==> !Serve(b', cfg, key, now + d.retryAfter as real).1.GlobalLimit?
    ensures var (b', d) := Serve(b, cfg, key, now);
            d.ClientLimit? ==> !Serve(b', cfg, key, now + d.retryAfter as real).1.ClientLimit?
  {
    CountersSound(b, cfg, key, now);
    var g, c := GlobalNow(b, cfg, now), ClientNow(b, cfg, key, now);
    assert g.updatedAt == now && c.updatedAt == now;
    var (b', d) := Serve(b, cfg, key, now);
    if !d.Allowed? {
      DenialIsFree(b, cfg, key, now);
    }
    hide Evicted, Others, RetryAfter, Refill;
    if d.GlobalLimit? {
      RetryIsEnough(g, cfg.global, cfg.window);
      assert GlobalNow(b', cfg, now + d.retryAfter as real) ==
          Refill(g, cfg.global, cfg.window, now + d.retryAfter as real);
    }
    if d.ClientLimit? {
      RetryIsEnough(c, cfg.Limit(key.policy), cfg.window);
      assert ClientNow(b', cfg, key, now + d.retryAfter as real) ==
          Refill(c, cfg.Limit(key.policy), cfg.window, now + d.retryAfter as real);
    }
  }

  // ---------- runs ----------

  datatype Request = Request(key: Key, at: real)

  ghost predicate Served(cfg: Config, bs: seq<Buckets>, rs: seq<Request>, i: nat)
    requires cfg.Valid() && i < |rs| < |bs|
  {
    bs[i + 1] == Serve(bs[i], cfg, rs[i].key, rs[i].at).0
  }

  /** The states of a run, one before each request and one at the end. */
  ghost predicate IsRun(cfg: Config, bs: seq<Buckets>, rs: seq<Request>)
    requires cfg.Valid()
  {
    && |bs| == |rs| + 1
    && (forall i :: 0 <= i < |rs| ==> Served(cfg, bs, rs, i))
    && forall i, j :: 0 <= i <= j < |rs| ==> rs[i].at <= rs[j].at
  }

  /** The requests among the first n that were let through. */
  function Admitted(cfg: Config, bs: seq<Buckets>, rs: seq<Request>, n: nat): nat
    requires cfg.Valid() && n <= |rs| <= |bs|
  {
    if n == 0 then 0
    else Admitted(cfg, bs, rs, n - 1) + if Serve(bs[n - 1], cfg, rs[n - 1].key, rs[n - 1].at).1.Allowed? then 1 else 0
  }

  function AdmittedFor(cfg: Config, bs: seq<Buckets>, rs: seq<Request>, key: Key, n: nat): nat
    requires cfg.Valid() && n <= |rs| <= |bs|
  {
    if n == 0 then 0
    else AdmittedFor(cfg, bs, rs, key, n - 1)
         + if rs[n - 1].key == key && Serve(bs[n - 1], cfg, key, rs[n - 1].at).1.Allowed? then 1 else 0
  }

  lemma {:induction false} RunKeepsSound(cfg: Config, bs: seq<Buckets>, rs: seq<Request>, n: nat)
    requires cfg.Valid() && IsRun(cfg, bs, rs) && Sound(bs[0], cfg) && n <= |rs|
    ensures Sound(bs[n], cfg)
  {
    hide Sound, Serve;
    if n > 0 {
      RunKeepsSound(cfg, bs, rs, n - 1);
      CheckKeepsSound(bs[n - 1], cfg, rs[n - 1].key, rs[n - 1].at);
      assert Served(cfg, bs, rs, n - 1);
    }
  }

  lemma CheckGlobal(b: Buckets, cfg: Config, key: Key, now: real)
    requires cfg.Valid()
    ensures var (b', d) := Serve(b, cfg, key, now);
            && b'.global.Some? && b'.global.value.updatedAt == now
            && b'.global.value.tokens == GlobalNow(b, cfg, now).tokens - (if d.Allowed? then 1.0 else 0.0)
  {
    hide ClientNow, Evicted, Others, RetryAfter;
  }

  lemma RefillGain(c: Counter, capacity: int, window: int, now: real)
    requires window > 0 && capacity > 0 && c.updatedAt <= now
    ensures Refill(c, capacity, window, now).tokens <= c.tokens + Accrued(capacity, window, now - c.updatedAt)
  {
    hide Accrued, Refill;
    if c.updatedAt == now {
      assert now - c.updatedAt == 0.0;
    }
  }

  /** One step of the potential argument: what accrues between two requests covers what the later one may spend. */
  lemma PotentialStep(capacity: int, window: int, spent: real, left: real, left': real, t0: real, was: real, at: real)
    requires window > 0
    requires spent + left <= capacity as real + Accrued(capacity, window, was - t0)
    requires left' <= left + Accrued(capacity, window, at - was)
    ensures spent + left' <= capacity as real + Accrued(capacity, window, at - t0)
  {
    AccruedAdds(capacity, window, was - t0, at - was);
    assert (was - t0) + (at - was) == at - t0;
    hide Accrued;
  }

  lemma NothingAccrues(capacity: int, window: int)
    requires window > 0
    ensures Accrued(capacity, window, 0.0) == 0.0
  {
  }

  lemma AdmittedStep(cfg: Config, bs: seq<Buckets>, rs: seq<Request>, n: nat)
    requires cfg.Valid() && 0 < n <= |rs| <= |bs|
    ensures Admitted(cfg, bs, rs, n) as real == Admitted(cfg, bs, rs, n - 1) as real
              + if Serve(bs[n - 1], cfg, rs[n - 1].key, rs[n - 1].at).1.Allowed? then 1.0 else 0.0
    ensures n == 1 ==> Admitted(cfg, bs, rs, n - 1) as real == 0.0
  {
    hide Serve;
  }

  lemma AdmittedForStep(cfg: Config, bs: seq<Buckets>, rs: seq<Request>, key: Key, n: nat)
    requires cfg.Valid() && 0 < n <= |rs| <= |bs|
    ensures AdmittedFor(cfg, bs, rs, key, n) as real == AdmittedFor(cfg, bs, rs, key, n - 1) as real
              + if rs[n - 1].key == key && Serve(bs[n - 1], cfg, rs[n - 1].key,
                  rs[n - 1].at).1.Allowed? then 1.0 else 0.0
    ensures n == 1 ==> AdmittedFor(cfg, bs, rs, key, n - 1) as real == 0.0
  {
    hide Serve;
  }

  lemma GlobalGain(b: Buckets, cfg: Config, now: real)
    requires cfg.Valid() && b.global.Some? && b.global.value.updatedAt <= now
    ensures GlobalNow(b, cfg, now).tokens
            <= b.global.value.tokens + Accrued(cfg.global, cfg.window, now - b.global.value.updatedAt)
  {
    hide Refill, Accrued;
    RefillGain(b.global.value, cfg.global, cfg.window, now);
  }

  lemma RunShape(cfg: Config, bs: seq<Buckets>, rs: seq<Request>, i: nat)
    requires cfg.Valid() && IsRun(cfg, bs, rs) && i < |rs|
    ensures |bs| == |rs| + 1 && Served(cfg, bs, rs, i)
  {
  }

  lemma Ordered(cfg: Config, bs: seq<Buckets>, rs: seq<Request>, i: nat)
    requires cfg.Valid() && IsRun(cfg, bs, rs) && 0 < i < |rs|
    ensures rs[i - 1].at <= rs[i].at && Served(cfg, bs, rs, i)
  {
  }

  lemma GlobalFirst(b: Buckets, cfg: Config, r: Request)
    requires cfg.Valid() && Sound(b, cfg)
    ensures var (b', d) := Serve(b, cfg, r.key, r.at);
            && b'.global.Some? && b'.global.value.updatedAt == r.at
            && (if d.Allowed? then 1.0 else 0.0) + b'.global.value.tokens
               <= cfg.global as real + Accrued(cfg.global, cfg.window, r.at - r.at)
  {
    hide Serve, Sound, GlobalNow, Accrued;
    CountersSound(b, cfg, r.key, r.at);
    CheckGlobal(b, cfg, r.key, r.at);
    NothingAccrues(cfg.global, cfg.window);
    assert r.at - r.at == 0.0;
  }

  lemma GlobalStep(b: Buckets, cfg: Config, r: Request, spent: real, t0: real)
    requires cfg.Valid() && b.global.Some? && b.global.value.updatedAt <= r.at
    requires spent + b.global.value.tokens
             <= cfg.global as real + Accrued(cfg.global, cfg.window, b.global.value.updatedAt - t0)
    ensures var (b', d) := Serve(b, cfg, r.key, r.at);
            && b'.global.Some? && b'.global.value.updatedAt == r.at
            && spent + (if d.Allowed? then 1.0 else 0.0) + b'.global.value.tokens
               <= cfg.global as real + Accrued(cfg.global, cfg.window, r.at - t0)
  {
    hide Serve, GlobalNow, Accrued;
    CheckGlobal(b, cfg, r.key, r.at);
    GlobalGain(b, cfg, r.at);
    PotentialStep(cfg.global, cfg.window, spent, b.global.value.tokens, GlobalNow(b, cfg, r.at).tokens,
                  t0, b.global.value.updatedAt, r.at);
  }

  /** What was let through plus what is left never outgrows what accrued. */
  lemma {:induction false} GlobalPotential(cfg: Config, bs: seq<Buckets>, rs: seq<Request>, n: nat)
    requires cfg.Valid() && IsRun(cfg, bs, rs) && Sound(bs[0], cfg) && 0 < n <= |rs|
    ensures bs[n].global.Some? && bs[n].global.value.updatedAt == rs[n - 1].at
    ensures Admitted(cfg, bs, rs, n) as real + bs[n].global.value.tokens
            <= cfg.global as real + Accrued(cfg.global, cfg.window, rs[n - 1].at - rs[0].at)
  {
    hide Serve, Sound, Accrued, IsRun, Config.Valid, Admitted;
    RunShape(cfg, bs, rs, n - 1);
    AdmittedStep(cfg, bs, rs, n);
    if n > 1 {
      GlobalPotential(cfg, bs, rs, n - 1);
      Ordered(cfg, bs, rs, n - 1);
      GlobalStep(bs[n - 1], cfg, rs[n - 1], Admitted(cfg, bs, rs, n - 1) as real, rs[0].at);
    } else {
      GlobalFirst(bs[0], cfg, rs[0]);
    }
  }

  /** In any interval, over any mix of keys and evictions, at most G + G * elapsed / window requests get through. */
  lemma {:induction false} GlobalRateBound(cfg: Config, bs: seq<Buckets>, rs: seq<Request>)
    requires cfg.Valid() && IsRun(cfg, bs, rs) && Sound(bs[0], cfg) && rs != []
    ensures Admitted(cfg, bs, rs, |rs|) as real
            <= cfg.global as real + Accrued(cfg.global, cfg.window, rs[|rs| - 1].at - rs[0].at)
  {
    hide Serve, Accrued, Admitted, Sound;
    GlobalPotential(cfg, bs, rs, |rs|);
    RunKeepsSound(cfg, bs, rs, |rs|);
    GlobalTokens(bs[|rs|], cfg);
  }

  lemma GlobalTokens(b: Buckets, cfg: Config)
    requires Sound(b, cfg) && b.global.Some?
    ensures 0.0 <= b.global.value.tokens
  {
  }

  lemma CheckClient(b: Buckets, cfg: Config, key: Key, now: real)
    requires cfg.Valid()
    ensures var (b', d) := Serve(b, cfg, key, now);
            && key in b'.clients && b'.clients[key].updatedAt == now
            && b'.clients[key].tokens == ClientNow(b, cfg, key, now).tokens - (if d.Allowed? then 1.0 else 0.0)
  {
    hide GlobalNow, Evicted, Others, RetryAfter;
  }

  lemma CheckOther(b: Buckets, cfg: Config, key: Key, now: real, other: Key)
    requires cfg.Valid() && other != key && other in Serve(b, cfg, key, now).0.clients
    ensures other in b.clients && Serve(b, cfg, key, now).0.clients[other] == b.clients[other]
  {
    hide GlobalNow, ClientNow, Others, RetryAfter;
  }

  /** The same for one client bucket, from its first request on, as long as it is not evicted. */
  lemma {:induction false} ClientPotential(cfg: Config, bs: seq<Buckets>, rs: seq<Request>, key: Key, n: nat)
    requires cfg.Valid() && IsRun(cfg, bs, rs) && Sound(bs[0], cfg) && 0 < n <= |rs|
    requires rs[0].key == key && forall i :: 0 < i < |bs| ==> key in bs[i].clients
    ensures rs[0].at <= bs[n].clients[key].updatedAt <= rs[n - 1].at
    ensures AdmittedFor(cfg, bs, rs, key, n) as real + bs[n].clients[key].tokens
            <= cfg.Limit(key.policy) as real +
                Accrued(cfg.Limit(key.policy), cfg.window, bs[n].clients[key].updatedAt - rs[0].at)
  {
    hide Serve, Sound, Accrued, IsRun, Config.Limit, Config.Valid, AdmittedFor;
    RunShape(cfg, bs, rs, n - 1);
    AdmittedForStep(cfg, bs, rs, key, n);
    RunKeepsSound(cfg, bs, rs, n - 1);
    if n == 1 {
      ClientFirst(bs[0], cfg, key, rs[0].at);
    } else {
      Ordered(cfg, bs, rs, n - 1);
      ClientPotential(cfg, bs, rs, key, n - 1);
      ClientStep(bs[n - 1], cfg, rs[n - 1], key, AdmittedFor(cfg, bs, rs, key, n - 1) as real, rs[0].at);
    }
  }

  lemma ClientFirst(b: Buckets, cfg: Config, key: Key, at: real)
    requires cfg.Valid() && Sound(b, cfg)
    ensures var (b', d) := Serve(b, cfg, key, at);
            && key in b'.clients && b'.clients[key].updatedAt == at
            && (if d.Allowed? then 1.0 else 0.0) + b'.clients[key].tokens
               <= cfg.Limit(key.policy) as real + Accrued(cfg.Limit(key.policy), cfg.window, at - at)
  {
    hide Serve, Accrued, ClientNow, Sound;
    CountersSound(b, cfg, key, at);
    CheckClient(b, cfg, key, at);
    NothingAccrues(cfg.Limit(key.policy), cfg.window);
    assert at - at == 0.0;
  }

  lemma ClientStep(b: Buckets, cfg: Config, r: Request, key: Key, spent: real, t0: real)
    requires cfg.Valid() && Sound(b, cfg)
    requires key in b.clients && t0 <= b.clients[key].updatedAt <= r.at && key in Serve(b, cfg, r.key, r.at).0.clients
    requires spent + b.clients[key].tokens
             <= cfg.Limit(key.policy) as real +
                 Accrued(cfg.Limit(key.policy), cfg.window, b.clients[key].updatedAt - t0)
    ensures var (b', d) := Serve(b, cfg, r.key, r.at);
            && t0 <= b'.clients[key].updatedAt <= r.at
            && spent + (if r.key == key && d.Allowed? then 1.0 else 0.0) + b'.clients[key].tokens
               <= cfg.Limit(key.policy) as real +
                   Accrued(cfg.Limit(key.policy), cfg.window, b'.clients[key].updatedAt - t0)
  {
    hide Serve, Accrued, Sound, Refill, Config.Limit;
    var c, limit := b.clients[key], cfg.Limit(key.policy);
    if r.key == key {
      CheckClient(b, cfg, key, r.at);
      LimitPositive(cfg, key.policy);
      RefillGain(c, limit, cfg.window, r.at);
      PotentialStep(limit, cfg.window, spent, c.tokens, ClientNow(b, cfg, key, r.at).tokens, t0, c.updatedAt, r.at);
    } else {
      CheckOther(b, cfg, r.key, r.at, key);
    }
  }

  lemma LimitPositive(cfg: Config, p: Policy)
    requires cfg.Valid()
    ensures cfg.Limit(p) > 0
  {
  }

  /** Per client and policy, from the first request of an interval in which its bucket is not evicted. */
  lemma {:induction false} ClientRateBound(cfg: Config, bs: seq<Buckets>, rs: seq<Request>, key: Key)
    requires cfg.Valid() && IsRun(cfg, bs, rs) && Sound(bs[0], cfg) && rs != []
    requires rs[0].key == key && forall i :: 0 < i < |bs| ==> key in bs[i].clients
    ensures AdmittedFor(cfg, bs, rs, key, |rs|) as real
            <= cfg.Limit(key.policy) as real + Accrued(cfg.Limit(key.policy), cfg.window, rs[|rs| - 1].at - rs[0].at)
  {
    hide Serve, Accrued, AdmittedFor, Served, Sound;
    var n := |rs|;
    ClientPotential(cfg, bs, rs, key, n);
    RunKeepsSound(cfg, bs, rs, n);
    TrackedTokens(bs[n], cfg, key);
    AccruedMonotone(cfg.Limit(key.policy), cfg.window, bs[n].clients[key].updatedAt - rs[0].at,
        rs[n - 1].at - rs[0].at);
  }

  lemma TrackedTokens(b: Buckets, cfg: Config, key: Key)
    requires Sound(b, cfg) && key in b.clients
    ensures 0.0 <= b.clients[key].tokens
  {
  }

  /** The client buckets left once the k oldest are gone. */
  function Tail(b: Buckets, k: nat): map<Key, Counter>
    requires k <= |b.order|
  {
    map x | x in b.clients && x in b.order[k..] :: b.clients[x]
  }

  lemma SuffixMembers(order: seq<Key>, k: nat, x: Key)
    requires Distinct(order) && k < |order|
    ensures x in order[k + 1..] <==> x in order[k..] && x != order[k]
  {
    var rest := order[k + 1..];
    assert order[k..] == [order[k]] + rest;
    forall i | 0 <= i < |rest|
      ensures rest[i] != order[k]
    {
      assert rest[i] == order[k + 1 + i];
    }
  }

  lemma PopOldest(b: Buckets, k: nat)
    requires Distinct(b.order) && k < |b.order|
    ensures Tail(b, k + 1) == Tail(b, k) - {b.order[k]}
  {
    hide Distinct;
    forall x
      ensures x in Tail(b, k + 1) <==> x in Tail(b, k) - {b.order[k]}
    {
      SuffixMembers(b.order, k, x);
    }
  }

  lemma SoundDistinct(b: Buckets, cfg: Config)
    requires Sound(b, cfg)
    ensures Distinct(b.order)
  {
  }

  lemma NothingPopped(b: Buckets, cfg: Config)
    requires Sound(b, cfg)
    ensures Tail(b, 0) == b.clients
  {
    assert b.order[0..] == b.order;
  }

  lemma EvictedIsTail(b: Buckets, maxKeys: int, k: nat)
    requires maxKeys > 0 && k <= |b.order| && |b.order| - k < maxKeys
    requires k > 0 ==> |b.order| - k + 1 >= maxKeys
    ensures Evicted(b, maxKeys) == b.(order := b.order[k..], clients := Tail(b, k))
  {
  }

  // ---------- the limiter object ----------

  class Limiter {
    const cfg: Config
    var global: Option<Counter>
    var clients: map<Key, Counter>
    var order: seq<Key>

    ghost predicate Valid()
      reads this
    {
      cfg.Valid() && Sound(Contents(), cfg)
    }

    function Contents(): Buckets
      reads this
    {
      Buckets(global, clients, order)
    }

    constructor (cfg: Config)
      requires cfg.Valid()
      ensures Valid() && this.cfg == cfg && Contents() == Buckets(None, map[], [])
    {
      this.cfg := cfg;
      global, clients, order := None, map[], [];
    }

    method MakeSpace()
      requires cfg.Valid() && Sound(Contents(), cfg)
      modifies this`clients, this`order
      ensures Contents() == Evicted(old(Contents()), cfg.maxKeys)
    {
      hide Sound, Distinct, Tail, Evicted;
      ghost var was := Contents();
      ghost var k: nat := 0;
      NothingPopped(was, cfg);
      SoundDistinct(was, cfg);
      while |order| >= cfg.maxKeys
        invariant k <= |was.order| && order == was.order[k..]
        invariant k > 0 ==> |was.order| - k + 1 >= cfg.maxKeys
        invariant clients == Tail(was, k)
        decreases |order|
      {
        PopOldest(was, k);
        clients := clients - {order[0]};
        order := order[1..];
        k := k + 1;
      }
      EvictedIsTail(was, cfg.maxKeys, k);
    }

    /** The client's bucket, found and refilled or made room for; either way it becomes the most recent. */
    method Touch(key: Key, now: real) returns (counter: Counter)
      requires cfg.Valid() && Sound(Contents(), cfg)
      modifies this`clients, this`order
      ensures counter == ClientNow(old(Contents()), cfg, key, now)
      ensures var was := old(Contents());
              var kept := if key in was.clients then was.(order := Others(was.order, key))
                  else Evicted(was, cfg.maxKeys);
              Contents() == kept.(clients := kept.clients[key := counter], order := kept.order + [key])
    {
      hide Sound, Evicted, Others, Refill;
      if key !in clients {
        MakeSpace();
        counter := Counter(cfg.Limit(key.policy) as real, now, now);
        order := order + [key];
      } else {
        counter := Refill(clients[key], cfg.Limit(key.policy), cfg.window, now);
        order := Others(order, key) + [key];
      }
      clients := clients[key := counter];
    }

    method Admit(key: Key, now: real) returns (d: Decision)
      requires cfg.Valid() && Sound(Contents(), cfg)
      modifies this`global, this`clients, this`order
      ensures (Contents(), d) == Serve(old(Contents()), cfg, key, now)
    {
      hide Sound, Evicted, Others, Refill, RetryAfter, ClientNow, Serve, Decide;
      SoundWith(Contents(), cfg, key, now);
      ServeInSteps(Contents(), cfg, key, now);
      if global.None? {
        global := Some(Counter(cfg.global as real, now, now));
      }
      var g := Refill(global.value, cfg.global, cfg.window, now);
      global := Some(g);
      var counter := Touch(key, now);
      d := Decide(g, counter, cfg, key.policy);
      if d.Allowed? {
        global := Some(g.(tokens := g.tokens - 1.0));
        clients := clients[key := counter.(tokens := counter.tokens - 1.0)];
      }
    }

    /** One request; a negative clock raises and changes nothing. */
    method Check(key: Key, now: real) returns (r: Outcome)
      requires Valid()
      modifies this`global, this`clients, this`order
      ensures Valid()
      ensures now < 0.0 ==> r == ClockError && Contents() == old(Contents())
      ensures now >= 0.0 ==> r.Decided? && (Contents(), r.decision) == Serve(old(Contents()), cfg, key, now)
    {
      hide Sound, Serve;
      if now < 0.0 {
        return ClockError;
      }
      CheckKeepsSound(Contents(), cfg, key, now);
      var d := Admit(key, now);
      r := Decided(d);
    }
  }

  /** Serving a request is refilling the global bucket, touching the client's, and then spending. */
  lemma ServeInSteps(b: Buckets, cfg: Config, key: Key, now: real)
    requires cfg.Valid()
    ensures var g, c := GlobalNow(b, cfg, now), ClientNow(b, cfg, key, now);
            var was := b.(global := Some(g));
            var kept := if key in was.clients then was.(order := Others(was.order, key)) else Evicted(was, cfg.maxKeys);
            var touched := kept.(clients := kept.clients[key := c], order := kept.order + [key]);
            var d := Decide(g, c, cfg, key.policy);
            && ClientNow(was, cfg, key, now) == c
            && Serve(b, cfg, key, now) == (if d.Allowed?
                 then touched.(global := Some(Spend(g, d)), clients := touched.clients[key := Spend(c, d)])
                 else touched, d)
  {
    hide GlobalNow, Others, RetryAfter, Refill;
    var g, c := GlobalNow(b, cfg, now), ClientNow(b, cfg, key, now);
    var m := if key in b.clients then b.clients else Evicted(b, cfg.maxKeys).clients;
    var spent := Spend(c, Decide(g, c, cfg, key.policy));
    assert m[key := c][key := spent] == m[key := spent];
  }

  lemma SoundWith(b: Buckets, cfg: Config, key: Key, now: real)
    requires cfg.Valid() && Sound(b, cfg)
    ensures Sound(b.(global := Some(GlobalNow(b, cfg, now))), cfg)
  {
    CountersSound(b, cfg, key, now);
  }

  // ---------- why the clock must not run backwards ----------

  /** If the clock steps back and forth, the same seconds are credited again: a bucket of one token per second,
      empty at time 10, holds five tokens at time 10 once the clock has shown 5 in between. */
  lemma BackwardClockOvercredits()
    ensures var full := Counter(0.0, 10.0, 10.0);
            var back := Refill(full, 10, 10, 5.0);
            back.tokens == 0.0 && Refill(back, 10, 10, 10.0).tokens == 5.0
  {
  }

  // ---------- a decision, in terms of what is in the buckets ----------

  /** What a bucket holds now: all of it if it was never used, and otherwise what was left and what has flowed in since,
      at most its capacity. */
  ghost predicate Holds(c: Option<Counter>, capacity: int, window: int, now: real, tokens: real)
    requires window > 0
  {
    match c
    case None => tokens == capacity as real
    case Some(c) =>
      var since := if now <= c.updatedAt then 0.0 else now - c.updatedAt;
      var flowed := c.tokens + since * (capacity as real) / (window as real);
      tokens == if flowed <= capacity as real then flowed else capacity as real
  }

  /** Served exactly if both buckets hold a token, at the price of one from each; otherwise nothing is taken, and the
      instance's bucket is named first. No other client's bucket changes. */
  lemma DecisionRule(b: Buckets, cfg: Config, key: Key, now: real, capacity: int, g: real, c: real)
    requires cfg.Valid()
    requires key.policy == Auth ==> capacity == cfg.auth
    requires key.policy == AdminWrite ==> capacity == cfg.admin
    requires key.policy == WorkflowWrite ==> capacity == cfg.workflow
    requires key.policy == Read ==> capacity == cfg.read
    requires Holds(b.global, cfg.global, cfg.window, now, g)
    requires Holds(if key in b.clients then Some(b.clients[key]) else None, capacity, cfg.window, now, c)
    ensures var (b', d) := Serve(b, cfg, key, now);
            && (d.Allowed? <==> g >= 1.0 && c >= 1.0)
            && (d.GlobalLimit? <==> g < 1.0)
            && (d.ClientLimit? <==> g >= 1.0 && c < 1.0) && (d.ClientLimit? ==> d.policy == key.policy)
            && b'.global.Some? && b'.global.value.updatedAt == now
            && b'.global.value.tokens == (if g >= 1.0 && c >= 1.0 then g - 1.0 else g)
            && key in b'.clients && b'.clients[key].updatedAt == now
            && b'.clients[key].tokens == (if g >= 1.0 && c >= 1.0 then c - 1.0 else c)
            && (forall k :: k in b'.clients && k != key ==> k in b.clients && b'.clients[k] == b.clients[k])
            && (key in b.clients ==> b'.clients.Keys == b.clients.Keys)
  {
    hide RetryAfter, Others;
    assert capacity == cfg.Limit(key.policy);
    FreshIsFull(cfg.global, cfg.window, now);
    Inflow(b.global, cfg.global, cfg.window, now, g);
    Inflow(if key in b.clients then Some(b.clients[key]) else None, capacity, cfg.window, now, c);
    hide Holds, Refill;
  }

  lemma Inflow(c: Option<Counter>, capacity: int, window: int, now: real, tokens: real)
    requires window > 0 && Holds(c, capacity, window, now, tokens)
    ensures c.Some? ==> Refill(c.value, capacity, window, now) == Counter(tokens, now, now)
    ensures c.None? ==> tokens == capacity as real
  {
  }

  lemma FreshIsFull(capacity: int, window: int, now: real)
    requires window > 0
    ensures Refill(Counter(capacity as real, now, now), capacity, window, now) == Counter(capacity as real, now, now)
  {
    assert 0.0 * (capacity as real) == 0.0;
  }
}
