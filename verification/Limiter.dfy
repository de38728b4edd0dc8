/** The per-client token bucket, the sweep that keeps its map small, and the bounds it guarantees. */
module Limiter {
  import opened Options
  import opened Numbers

  /** Nanoseconds. */
  const SECOND: int := 1000000000
  const MINUTE: int := 60 * SECOND

  datatype Bucket = Bucket(tokens: real, at: int)

  /** A limiter exists only when both settings are positive. */
  datatype Config = Config(burst: nat, every: nat)

  predicate ConfigOk(cfg: Config) { cfg.burst >= 1 && cfg.every >= 1 }

  datatype State = State(buckets: map<string, Bucket>, swept: int)

  datatype Decision = Decision(ok: bool, wait: int)

  /** Tokens regained over a span of nanoseconds. */
  function Regained(span: int, cfg: Config): real
    requires cfg.every >= 1
  {
    span as real / cfg.every as real
  }

  predicate Full(b: Bucket, now: int, cfg: Config)
    requires cfg.every >= 1
  {
    b.tokens + Regained(now - b.at, cfg) >= cfg.burst as real
  }

  function Refilled(b: Bucket, now: int, cfg: Config): real
    requires cfg.every >= 1
  {
    Min(cfg.burst as real, b.tokens + Regained(now - b.at, cfg))
  }

  function WaitFor(tokens: real, cfg: Config): int { Floor((1.0 - tokens) * cfg.every as real) }

  /** One request against one bucket. */
  function Take(b: Bucket, now: int, cfg: Config): (Bucket, Decision)
    requires cfg.every >= 1
  {
    var tokens := Refilled(b, now, cfg);
    if tokens < 1.0 then (Bucket(tokens, now), Decision(false, WaitFor(tokens, cfg)))
    else (Bucket(tokens - 1.0, now), Decision(true, 0))
  }

  /** What a key never seen before starts with. */
  function NewBucket(now: int, cfg: Config): Bucket { Bucket(cfg.burst as real, now) }

  function Kept(buckets: map<string, Bucket>, now: int, cfg: Config): map<string, Bucket>
    requires cfg.every >= 1
  {
    map k | k in buckets && !Full(buckets[k], now, cfg) :: buckets[k]
  }

  function Sweep(s: State, now: int, cfg: Config): State
    requires cfg.every >= 1
  {
    if now - s.swept > MINUTE then State(Kept(s.buckets, now, cfg), now) else s
  }

  function Allow(s: State, key: string, now: int, cfg: Config): (State, Decision)
    requires cfg.every >= 1
  {
    var t := Sweep(s, now, cfg);
    var b := if key in t.buckets then t.buckets[key] else NewBucket(now, cfg);
    var (after, d) := Take(b, now, cfg);
    (t.(buckets := t.buckets[key := after]), d)
  }

  class Limiter {
    const cfg: Config
    var buckets: map<string, Bucket>
    var swept: int

    ghost predicate Valid() { ConfigOk(cfg) }

    ghost function Model(): State
      reads this
    {
      State(buckets, swept)
    }

    /** newLimiter: the last sweep is the zero time. */
    constructor (burst: nat, every: nat, zeroTime: int)
      requires burst >= 1 && every >= 1
      ensures Valid() && Model() == State(map[], zeroTime) && cfg == Config(burst, every)
    {
      cfg, buckets, swept := Config(burst, every), map[], zeroTime;
    }

    method SweepBuckets(now: int)
      requires Valid()
      modifies this
      ensures Model() == Sweep(old(Model()), now, cfg)
    {
      hide Full;
      if now - swept > MINUTE {
        var keys := buckets.Keys;
        ghost var all := buckets;
        while keys != {}
          invariant keys <= all.Keys && swept == old(swept)
          invariant forall k :: k in buckets <==> k in all && (k in keys || !Full(all[k], now, cfg))
          invariant forall k :: k in buckets ==> buckets[k] == all[k]
          decreases keys
        {
          var k :| k in keys;
          keys := keys - {k};
          if buckets[k].tokens + Regained(now - buckets[k].at, cfg) >= cfg.burst as real {
            assert Full(all[k], now, cfg) by { FullIs(all[k], now, cfg); }
            buckets := buckets - {k};
          } else {
            assert !Full(all[k], now, cfg) by { FullIs(all[k], now, cfg); }
          }
        }
        assert buckets == Kept(all, now, cfg);
        swept := now;
      }
    }

    /** One request of a key: granted, or told how many nanoseconds to wait. */
    method AllowKey(key: string, now: int) returns (ok: bool, wait: int)
      requires Valid()
      modifies this
      ensures (Model(), Decision(ok, wait)) == Allow(old(Model()), key, now, cfg)
    {
      hide Sweep, Regained;
      SweepBuckets(now);
      var b := NewBucket(now, cfg);
      if key in buckets {
        b := buckets[key];
      }
      b := Bucket(Min(cfg.burst as real, b.tokens + Regained(now - b.at, cfg)), now);
      if b.tokens < 1.0 {
        buckets := buckets[key := b];
        return false, WaitFor(b.tokens, cfg);
      }
      b := b.(tokens := b.tokens - 1.0);
      buckets := buckets[key := b];
      return true, 0;
    }
  }

  lemma FullIs(b: Bucket, now: int, cfg: Config)
    requires cfg.every >= 1
    ensures Full(b, now, cfg) <==> b.tokens + Regained(now - b.at, cfg) >= cfg.burst as real
  {
  }

  // ---- arithmetic of refilling -------------------------------------------------------------

  lemma RegainedMonotone(a: int, b: int, cfg: Config)
    requires a <= b && cfg.every >= 1
    ensures Regained(a, cfg) <= Regained(b, cfg)
  {
    QuotientMonotone(a as real, b as real, cfg.every as real);
  }

  lemma QuotientMonotone(a: real, b: real, e: real)
    requires a <= b && e > 0.0
    ensures a / e <= b / e
  {
    var p, q := a / e, b / e;
    assert p * e == a && q * e == b;
    if p > q {
      MulLt(q, p, e);
    }
  }

  lemma RegainedAdds(a: int, b: int, cfg: Config)
    requires cfg.every >= 1
    ensures Regained(a, cfg) + Regained(b, cfg) == Regained(a + b, cfg)
  {
    QuotientAdds(a as real, b as real, cfg.every as real);
  }

  lemma QuotientAdds(a: real, b: real, e: real)
    requires e > 0.0
    ensures a / e + b / e == (a + b) / e
  {
  }

  lemma RegainedZero(cfg: Config)
    requires cfg.every >= 1
    ensures Regained(0, cfg) == 0.0
  {
  }

  /** A full bucket answers as a new one does. */
  lemma FullIsNew(b: Bucket, now: int, cfg: Config)
    requires cfg.every >= 1 && Full(b, now, cfg)
    ensures Take(b, now, cfg) == Take(NewBucket(now, cfg), now, cfg)
  {
    hide Regained;
    RegainedZero(cfg);
  }

  predicate BucketOk(b: Bucket, cfg: Config) { 0.0 <= b.tokens <= cfg.burst as real }

  /** Tokens stay within [0, burst]. */
  lemma TakeOk(b: Bucket, now: int, cfg: Config)
    requires ConfigOk(cfg) && BucketOk(b, cfg) && b.at <= now
    ensures BucketOk(Take(b, now, cfg).0, cfg) && Take(b, now, cfg).0.at == now
    ensures Refilled(b, now, cfg) <= b.tokens + Regained(now - b.at, cfg)
  {
    hide Regained;
    RegainedZero(cfg);
    RegainedMonotone(0, now - b.at, cfg);
  }

  // ---- the reference: one bucket a key, never deleted --------------------------------------

  datatype Call = Call(key: string, now: int)

  predicate InOrder(calls: seq<Call>) { forall i, j :: 0 <= i < j < |calls| ==> calls[i].now <= calls[j].now }

  /** The bucket a key would have if nothing were ever swept: only its own calls matter. */
  function KeyBucket(calls: seq<Call>, key: string, cfg: Config): Option<Bucket>
    requires cfg.every >= 1
  {
    if calls == [] then None
    else
      var n := |calls| - 1;
      if calls[n].key == key then Some(Take(BucketFor(KeyBucket(calls[..n], key, cfg), calls[n].now, cfg), calls[n].now, cfg).0)
      else KeyBucket(calls[..n], key, cfg)
  }

  function BucketFor(b: Option<Bucket>, now: int, cfg: Config): Bucket
  {
    if b.Some? then b.value else NewBucket(now, cfg)
  }

  /** The answer to one more call after a history. */
  function Answer(calls: seq<Call>, c: Call, cfg: Config): Decision
    requires cfg.every >= 1
  {
    Take(BucketFor(KeyBucket(calls, c.key, cfg), c.now, cfg), c.now, cfg).1
  }

  /** The limiter after a history, from an empty map. */
  function RunState(calls: seq<Call>, zeroTime: int, cfg: Config): State
    requires cfg.every >= 1
  {
    if calls == [] then State(map[], zeroTime)
    else
      var n := |calls| - 1;
      Allow(RunState(calls[..n], zeroTime, cfg), calls[n].key, calls[n].now, cfg).0
  }

  /** The limiter's map against the reference: what is missing was never seen or is full by now. */
  ghost predicate Agrees(s: State, calls: seq<Call>, now: int, cfg: Config)
    requires cfg.every >= 1
  {
    forall k: string :: KeyAgrees(s, KeyBucket(calls, k, cfg), k, now, cfg)
  }

  predicate KeyAgrees(s: State, b: Option<Bucket>, k: string, now: int, cfg: Config)
    requires cfg.every >= 1
  {
    if k in s.buckets then b == Some(s.buckets[k]) else b.None? || Full(b.value, now, cfg)
  }

  lemma SweepAgrees(s: State, b: Option<Bucket>, k: string, then': int, now: int, cfg: Config)
    requires cfg.every >= 1 && KeyAgrees(s, b, k, then', cfg) && then' <= now
    ensures KeyAgrees(Sweep(s, now, cfg), b, k, now, cfg)
  {
  }

  /** A call is answered from the reference bucket, swept or not. */
  lemma AnswerAgrees(s: State, calls: seq<Call>, c: Call, then': int, cfg: Config)
    requires cfg.every >= 1 && Agrees(s, calls, then', cfg) && then' <= c.now
    ensures Allow(s, c.key, c.now, cfg).1 == Answer(calls, c, cfg)
    ensures Agrees(Allow(s, c.key, c.now, cfg).0, calls + [c], c.now, cfg)
  {
    hide Full, Take, Sweep;
    var t := Sweep(s, c.now, cfg);
    assert (calls + [c])[..|calls|] == calls;
    forall k: string
      ensures KeyAgrees(t, KeyBucket(calls, k, cfg), k, c.now, cfg)
      ensures KeyBucket(calls + [c], k, cfg) ==
        if k == c.key then Some(Take(BucketFor(KeyBucket(calls, k, cfg), c.now, cfg), c.now, cfg).0) else KeyBucket(calls, k, cfg)
    {
      assert KeyAgrees(s, KeyBucket(calls, k, cfg), k, then', cfg);
      SweepAgrees(s, KeyBucket(calls, k, cfg), k, then', c.now, cfg);
    }
    var b := KeyBucket(calls, c.key, cfg);
    assert KeyAgrees(t, b, c.key, c.now, cfg);
    if c.key !in t.buckets && b.Some? {
      FullIsNew(b.value, c.now, cfg);
    }
    var after := Allow(s, c.key, c.now, cfg).0;
    forall k: string
      ensures KeyAgrees(after, KeyBucket(calls + [c], k, cfg), k, c.now, cfg)
    {
      assert KeyAgrees(t, KeyBucket(calls, k, cfg), k, c.now, cfg);
    }
  }

  lemma {:induction false} RunAgrees(calls: seq<Call>, zeroTime: int, cfg: Config)
    requires cfg.every >= 1 && InOrder(calls) && calls != []
    ensures Agrees(RunState(calls, zeroTime, cfg), calls, calls[|calls| - 1].now, cfg)
  {
    hide Allow, KeyBucket;
    var n := |calls| - 1;
    var s := RunState(calls[..n], zeroTime, cfg);
    assert calls[..n] + [calls[n]] == calls;
    if n == 0 {
      EmptyAgrees(s, calls[0].now, cfg);
      AnswerAgrees(s, [], calls[0], calls[0].now, cfg);
    } else {
      RunAgrees(calls[..n], zeroTime, cfg);
      AnswerAgrees(s, calls[..n], calls[n], calls[n - 1].now, cfg);
    }
  }

  lemma EmptyAgrees(s: State, now: int, cfg: Config)
    requires cfg.every >= 1 && s.buckets == map[]
    ensures Agrees(s, [], now, cfg)
  {
  }

  /**
   * Sweeping is invisible: over every history with times in order, the limiter that deletes idle keys
   * answers the next call exactly as one bucket per key, never deleted, would.
   */
  lemma SweepInvisible(calls: seq<Call>, c: Call, zeroTime: int, cfg: Config)
    requires cfg.every >= 1 && InOrder(calls + [c])
    ensures Allow(RunState(calls, zeroTime, cfg), c.key, c.now, cfg).1 == Answer(calls, c, cfg)
  {
    hide Allow, KeyBucket, RunState;
    if calls == [] {
      RunEmpty(zeroTime, cfg);
      EmptyAgrees(RunState([], zeroTime, cfg), c.now, cfg);
      AnswerAgrees(RunState([], zeroTime, cfg), [], c, c.now, cfg);
    } else {
      var n := |calls|;
      assert forall i :: 0 <= i < n ==> (calls + [c])[i] == calls[i];
      assert (calls + [c])[n] == c;
      assert InOrder(calls) && calls[n - 1].now <= c.now;
      RunAgrees(calls, zeroTime, cfg);
      AnswerAgrees(RunState(calls, zeroTime, cfg), calls, c, calls[n - 1].now, cfg);
    }
  }

  lemma RunEmpty(zeroTime: int, cfg: Config)
    requires cfg.every >= 1
    ensures RunState([], zeroTime, cfg) == State(map[], zeroTime)
  {
  }

  /** One key's calls out of a history. */
  function Only(calls: seq<Call>, key: string): seq<Call>
  {
    if calls == [] then []
    else
      var n := |calls| - 1;
      if calls[n].key == key then Only(calls[..n], key) + [calls[n]] else Only(calls[..n], key)
  }

  /** Calls for other keys never change a key's decisions. */
  lemma {:induction false} OthersDoNotMatter(calls: seq<Call>, c: Call, cfg: Config)
    requires cfg.every >= 1
    ensures KeyBucket(calls, c.key, cfg) == KeyBucket(Only(calls, c.key), c.key, cfg)
    ensures Answer(calls, c, cfg) == Answer(Only(calls, c.key), c, cfg)
  {
    hide Take;
    if calls != [] {
      var n := |calls| - 1;
      OthersDoNotMatter(calls[..n], c, cfg);
      if calls[n].key == c.key {
        var only := Only(calls[..n], c.key);
        assert (only + [calls[n]])[..|only|] == only;
      }
    }
  }

  /** After a sweep every bucket that survives was touched within burst * every, on every reachable limiter. */
  lemma SurvivorsAreRecent(calls: seq<Call>, now: int, zeroTime: int, cfg: Config, k: string)
    requires ConfigOk(cfg) && InOrder(calls)
    requires var s := RunState(calls, zeroTime, cfg); now - s.swept > MINUTE && k in Sweep(s, now, cfg).buckets
    ensures now - Sweep(RunState(calls, zeroTime, cfg), now, cfg).buckets[k].at < cfg.burst * cfg.every
  {
    hide RunState, KeyBucket, Regained;
    var s := RunState(calls, zeroTime, cfg);
    var span := now - s.buckets[k].at;
    ReachableBucket(calls, zeroTime, cfg, k);
    FullIs(s.buckets[k], now, cfg);
    assert Regained(span, cfg) < cfg.burst as real;
    RegainedBelow(span, cfg);
  }

  lemma RegainedBelow(span: int, cfg: Config)
    requires ConfigOk(cfg) && Regained(span, cfg) < cfg.burst as real
    ensures span < cfg.burst * cfg.every
  {
    QuotientBelow(span as real, cfg.every as real, cfg.burst as real);
    RealProduct(cfg.burst, cfg.every);
  }

  /** Every bucket the limiter ever holds has between 0 and burst tokens. */
  lemma ReachableBucket(calls: seq<Call>, zeroTime: int, cfg: Config, k: string)
    requires ConfigOk(cfg) && InOrder(calls) && k in RunState(calls, zeroTime, cfg).buckets
    ensures BucketOk(RunState(calls, zeroTime, cfg).buckets[k], cfg)
  {
    hide Allow, KeyBucket;
    var s := RunState(calls, zeroTime, cfg);
    RunEmpty(zeroTime, cfg);
    RunAgrees(calls, zeroTime, cfg);
    assert KeyAgrees(s, KeyBucket(calls, k, cfg), k, calls[|calls| - 1].now, cfg);
    KeyBucketOk(calls, k, cfg);
  }

  lemma QuotientBelow(a: real, e: real, q: real)
    requires e > 0.0 && a / e < q
    ensures a < q * e
  {
    var p := a / e;
    assert p * e == a;
    MulLt(p, q, e);
  }

  // ---- how much one key can be granted -----------------------------------------------------

  /** Grants to one key among the calls from index i on. */
  function Grants(calls: seq<Call>, i: nat, key: string, cfg: Config): nat
    requires cfg.every >= 1
  {
    if |calls| <= i then 0
    else
      var n := |calls| - 1;
      Grants(calls[..n], i, key, cfg) + if calls[n].key == key && Answer(calls[..n], calls[n], cfg).ok then 1 else 0
  }

  lemma {:induction false} KeyBucketOk(calls: seq<Call>, key: string, cfg: Config)
    requires ConfigOk(cfg) && InOrder(calls)
    ensures var b := KeyBucket(calls, key, cfg);
      b.Some? ==> BucketOk(b.value, cfg) && calls != [] && b.value.at <= calls[|calls| - 1].now
  {
    hide Take, Regained;
    if calls != [] {
      var n := |calls| - 1;
      KeyBucketOk(calls[..n], key, cfg);
      if calls[n].key == key {
        TakeOk(BucketFor(KeyBucket(calls[..n], key, cfg), calls[n].now, cfg), calls[n].now, cfg);
      }
    }
  }

  /** Within a window, grants and remaining tokens are paid for by the burst and the time that has passed. */
  ghost predicate Paid(calls: seq<Call>, i: nat, key: string, cfg: Config)
    requires cfg.every >= 1 && i < |calls|
  {
    var g, b := Grants(calls, i, key, cfg), KeyBucket(calls, key, cfg);
    g == 0 || (b.Some? && b.value.at >= calls[i].now
               && g as real + b.value.tokens <= cfg.burst as real + Regained(b.value.at - calls[i].now, cfg))
  }

  /** One more call of the key keeps the account balanced. */
  lemma TakePaid(b: Bucket, now: int, cfg: Config, g: nat, from: int)
    requires ConfigOk(cfg) && BucketOk(b, cfg) && b.at <= now && from <= now
    requires g == 0 || (b.at >= from && g as real + b.tokens <= cfg.burst as real + Regained(b.at - from, cfg))
    ensures var (c, d) := Take(b, now, cfg);
      var h := if d.ok then g + 1 else g;
      h == 0 || h as real + c.tokens <= cfg.burst as real + Regained(now - from, cfg)
  {
    hide Regained;
    TakeOk(b, now, cfg);
    RegainedZero(cfg);
    RegainedMonotone(0, now - from, cfg);
    if g > 0 {
      RegainedAdds(b.at - from, now - b.at, cfg);
    }
  }

  lemma {:induction false} WindowPaid(calls: seq<Call>, i: nat, key: string, cfg: Config)
    requires ConfigOk(cfg) && InOrder(calls) && i < |calls|
    ensures Paid(calls, i, key, cfg)
  {
    hide Take, Regained;
    var n := |calls| - 1;
    KeyBucketOk(calls[..n], key, cfg);
    if i < n {
      WindowPaid(calls[..n], i, key, cfg);
    }
    if calls[n].key == key {
      var b := BucketFor(KeyBucket(calls[..n], key, cfg), calls[n].now, cfg);
      TakeOk(b, calls[n].now, cfg);
      TakePaid(b, calls[n].now, cfg, Grants(calls[..n], i, key, cfg), calls[i].now);
    }
  }

  lemma GrantsBounded(calls: seq<Call>, i: nat, key: string, cfg: Config)
    requires ConfigOk(cfg) && InOrder(calls) && i < |calls|
    ensures Grants(calls, i, key, cfg) as real
      <= cfg.burst as real + Regained(calls[|calls| - 1].now - calls[i].now, cfg)
  {
    hide Regained, Grants, KeyBucket;
    WindowPaid(calls, i, key, cfg);
    KeyBucketOk(calls, key, cfg);
    RegainedZero(cfg);
    RegainedMonotone(0, calls[|calls| - 1].now - calls[i].now, cfg);
    var b := KeyBucket(calls, key, cfg);
    if Grants(calls, i, key, cfg) > 0 {
      RegainedMonotone(b.value.at - calls[i].now, calls[|calls| - 1].now - calls[i].now, cfg);
    }
  }

  /** What the sweeping limiter grants one key among the calls from index i on. */
  function Granted(calls: seq<Call>, i: nat, key: string, zeroTime: int, cfg: Config): nat
    requires cfg.every >= 1
  {
    if |calls| <= i then 0
    else
      var n := |calls| - 1;
      Granted(calls[..n], i, key, zeroTime, cfg)
      + if calls[n].key == key && Allow(RunState(calls[..n], zeroTime, cfg), key, calls[n].now, cfg).1.ok then 1 else 0
  }

  lemma {:induction false} GrantedIsGrants(calls: seq<Call>, i: nat, key: string, zeroTime: int, cfg: Config)
    requires cfg.every >= 1 && InOrder(calls)
    ensures Granted(calls, i, key, zeroTime, cfg) == Grants(calls, i, key, cfg)
  {
    hide Allow, RunState, Answer;
    if |calls| > i {
      var n := |calls| - 1;
      GrantedIsGrants(calls[..n], i, key, zeroTime, cfg);
      assert calls[..n] + [calls[n]] == calls;
      SweepInvisible(calls[..n], calls[n], zeroTime, cfg);
    }
  }

  /**
   * The token-bucket bound: over any history with times in order, the sweeping limiter's grants to one
   * key in any window of calls are at most burst plus one for each `every` that the window lasts.
   */
  lemma TokenBucketBound(calls: seq<Call>, i: nat, key: string, zeroTime: int, cfg: Config)
    requires ConfigOk(cfg) && InOrder(calls) && i < |calls|
    ensures Granted(calls, i, key, zeroTime, cfg) as real
      <= cfg.burst as real + Regained(calls[|calls| - 1].now - calls[i].now, cfg)
  {
    hide Regained, Grants, Granted;
    GrantedIsGrants(calls, i, key, zeroTime, cfg);
    GrantsBounded(calls, i, key, cfg);
  }

  // ---- Retry-After -------------------------------------------------------------------------

  /** The whole seconds the handler advertises for a wait in nanoseconds. */
  function RetryAfter(wait: int): int { wait / SECOND + 1 }

  lemma WaitRegains(tokens: real, wait: int, span: int, cfg: Config)
    requires ConfigOk(cfg) && wait == WaitFor(tokens, cfg) && span >= RetryAfter(wait) * SECOND
    ensures tokens + Regained(span, cfg) >= 1.0
  {
    assert span > wait;
    assert span as real >= (1.0 - tokens) * cfg.every as real;
    QuotientAtLeast(span as real, cfg.every as real, 1.0 - tokens);
  }

  lemma QuotientAtLeast(a: real, e: real, q: real)
    requires e > 0.0 && a >= q * e
    ensures a / e >= q
  {
    var p := a / e;
    assert p * e == a;
    if p < q {
      MulLt(p, q, e);
    }
  }

  lemma {:induction false} QuietBucket(calls: seq<Call>, more: seq<Call>, key: string, cfg: Config)
    requires cfg.every >= 1 && forall i :: 0 <= i < |more| ==> more[i].key != key
    ensures KeyBucket(calls + more, key, cfg) == KeyBucket(calls, key, cfg)
  {
    hide Take;
    if more == [] {
      assert calls + more == calls;
    } else {
      var n := |more| - 1;
      assert (calls + more)[..|calls| + n] == calls + more[..n];
      QuietBucket(calls, more[..n], key, cfg);
    }
  }

  /**
   * Retry-After keeps its word: a client refused at some instant, that waits the advertised whole seconds
   * while nobody else spends from its key, is allowed.
   */
  lemma RetryAfterHonoured(calls: seq<Call>, refused: Call, others: seq<Call>, now: int, cfg: Config)
    requires ConfigOk(cfg) && InOrder(calls + [refused]) && !Answer(calls, refused, cfg).ok
    requires forall i :: 0 <= i < |others| ==> others[i].key != refused.key
    requires now >= refused.now + RetryAfter(Answer(calls, refused, cfg).wait) * SECOND
    ensures Answer(calls + [refused] + others, Call(refused.key, now), cfg).ok
  {
    hide Regained, RetryAfter, WaitFor;
    var history := calls + [refused];
    assert history[..|calls|] == calls && history[|calls|] == refused;
    QuietBucket(history, others, refused.key, cfg);
    var b := KeyBucket(history, refused.key, cfg).value;
    WaitRegains(b.tokens, Answer(calls, refused, cfg).wait, now - refused.now, cfg);
  }

  /** Asked again before the wait is over, with no other call on its key, a refused client is refused again. */
  lemma WaitIsNeeded(calls: seq<Call>, refused: Call, others: seq<Call>, now: int, cfg: Config)
    requires ConfigOk(cfg) && !Answer(calls, refused, cfg).ok
    requires forall i :: 0 <= i < |others| ==> others[i].key != refused.key
    requires now < refused.now + Answer(calls, refused, cfg).wait
    ensures !Answer(calls + [refused] + others, Call(refused.key, now), cfg).ok
  {
    hide Regained, WaitFor;
    var history := calls + [refused];
    assert history[..|calls|] == calls && history[|calls|] == refused;
    QuietBucket(history, others, refused.key, cfg);
    var b := KeyBucket(history, refused.key, cfg).value;
    TooEarly(b.tokens, now - refused.now, cfg);
  }

  lemma TooEarly(tokens: real, span: int, cfg: Config)
    requires ConfigOk(cfg) && span < WaitFor(tokens, cfg)
    ensures tokens + Regained(span, cfg) < 1.0
  {
    assert span as real < (1.0 - tokens) * cfg.every as real;
    QuotientBelowIs(span as real, cfg.every as real, 1.0 - tokens);
  }

  lemma QuotientBelowIs(a: real, e: real, q: real)
    requires e > 0.0 && a < q * e
    ensures a / e < q
  {
    var p := a / e;
    assert p * e == a;
    if p >= q {
      MulLe(q, p, e);
    }
  }

  /** A wait is at most `every`, so Retry-After is at most the whole seconds of `every` and one more. */
  lemma WaitBounded(calls: seq<Call>, c: Call, cfg: Config)
    requires ConfigOk(cfg) && InOrder(calls + [c])
    ensures 0 <= Answer(calls, c, cfg).wait <= cfg.every
    ensures 1 <= RetryAfter(Answer(calls, c, cfg).wait) <= cfg.every / SECOND + 1
  {
    hide KeyBucket, Regained, WaitFor;
    InOrderSnoc(calls, c);
    KeyBucketOk(calls, c.key, cfg);
    var b := BucketFor(KeyBucket(calls, c.key, cfg), c.now, cfg);
    RegainedZero(cfg);
    RegainedMonotone(0, c.now - b.at, cfg);
    var tokens := Refilled(b, c.now, cfg);
    if tokens < 1.0 {
      WaitInRange(tokens, cfg);
    }
  }

  lemma InOrderSnoc(calls: seq<Call>, c: Call)
    requires InOrder(calls + [c])
    ensures InOrder(calls) && forall i :: 0 <= i < |calls| ==> calls[i].now <= c.now
  {
    assert forall i :: 0 <= i < |calls| ==> (calls + [c])[i] == calls[i];
    assert (calls + [c])[|calls|] == c;
  }

  lemma WaitInRange(tokens: real, cfg: Config)
    requires 0.0 <= tokens < 1.0
    ensures 0 <= WaitFor(tokens, cfg) <= cfg.every
  {
    var e, t := cfg.every as real, 1.0 - tokens;
    ShrinkPos(e, t);
    FloorMonotone(0.0, t * e);
    FloorMonotone(t * e, e);
  }

  /** A refused call costs nothing: every later call of its key is answered as if it had not been made. */
  lemma RefusalIsFree(calls: seq<Call>, refused: Call, later: Call, cfg: Config)
    requires ConfigOk(cfg) && InOrder(calls + [refused]) && !Answer(calls, refused, cfg).ok
    requires later.key == refused.key && refused.now <= later.now
    ensures Answer(calls + [refused], later, cfg) == Answer(calls, later, cfg)
  {
    hide Regained, KeyBucket, WaitFor;
    OneMoreCall(calls, refused, cfg);
    InOrderSnoc(calls, refused);
    KeyBucketOk(calls, refused.key, cfg);
    var b := BucketFor(KeyBucket(calls, refused.key, cfg), refused.now, cfg);
    if KeyBucket(calls, refused.key, cfg).None? {
      RegainedZero(cfg);
    } else {
      RegainedAdds(refused.now - b.at, later.now - refused.now, cfg);
      assert b.tokens + Regained(refused.now - b.at, cfg) < 1.0;
    }
  }

  lemma OneMoreCall(calls: seq<Call>, c: Call, cfg: Config)
    requires cfg.every >= 1
    ensures KeyBucket(calls + [c], c.key, cfg) == Some(Take(BucketFor(KeyBucket(calls, c.key, cfg), c.now, cfg), c.now, cfg).0)
  {
    hide Take;
    assert (calls + [c])[..|calls|] == calls;
  }

  /** n calls of one key at one instant. */
  function Volley(n: nat, key: string, now: int): seq<Call> { seq(n, _ => Call(key, now)) }

  /** A new key is granted exactly its burst at once; the next call is told to wait one `every`. */
  lemma BurstExactly(n: nat, key: string, now: int, cfg: Config)
    requires ConfigOk(cfg) && n <= cfg.burst
    ensures Answer(Volley(n, key, now), Call(key, now), cfg) ==
      if n < cfg.burst then Decision(true, 0) else Decision(false, cfg.every)
  {
    hide Regained, KeyBucket, WaitFor;
    RegainedZero(cfg);
    VolleyEmpty(key, now, cfg);
    if n > 0 {
      VolleyBucket(n, key, now, cfg);
    }
    WholeWait(cfg);
  }

  lemma VolleyEmpty(key: string, now: int, cfg: Config)
    requires cfg.every >= 1
    ensures KeyBucket(Volley(0, key, now), key, cfg) == None
  {
  }

  lemma WholeWait(cfg: Config)
    ensures WaitFor(0.0, cfg) == cfg.every
  {
    assert (1.0 - 0.0) * cfg.every as real == cfg.every as real;
  }

  lemma {:induction false} VolleyBucket(n: nat, key: string, now: int, cfg: Config)
    requires ConfigOk(cfg) && 1 <= n <= cfg.burst
    ensures KeyBucket(Volley(n, key, now), key, cfg) == Some(Bucket((cfg.burst - n) as real, now))
  {
    hide Regained, KeyBucket, WaitFor;
    RegainedZero(cfg);
    VolleyEmpty(key, now, cfg);
    if n > 1 {
      VolleyBucket(n - 1, key, now, cfg);
    }
    assert Volley(n, key, now) == Volley(n - 1, key, now) + [Call(key, now)];
    OneMoreCall(Volley(n - 1, key, now), Call(key, now), cfg);
  }

  /** Nothing is swept within a minute of the last sweep; after it, exactly the buckets that are full by now are. */
  lemma SweepInNumbers(s: State, now: int, cfg: Config, k: string)
    requires ConfigOk(cfg) && k in s.buckets
    ensures var t, b := Sweep(s, now, cfg), s.buckets[k];
      && (now - s.swept <= 60000000000 ==> t == s)
      && (now - s.swept > 60000000000 ==>
            && t.swept == now
            && (k !in t.buckets <==> b.tokens + (now - b.at) as real / cfg.every as real >= cfg.burst as real))
      && (k in t.buckets ==> t.buckets[k] == b)
  {
  }
}
