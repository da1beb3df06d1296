/**
  The request limiter: one token bucket for everybody and one for each address, found by a read-locked look
  and, if that misses, made under the write lock after a second look. A bucket follows its documented contract:
  it starts full, holds at most `burst` tokens, gains `limit` tokens a second and gives one to each request.
 */
module RateLimiter {
  import opened Base

  datatype Rate = Rate(limit: real, burst: nat)

  datatype Bucket = Bucket(level: real, last: real)

  function Full(r: Rate, now: real): Bucket { Bucket(r.burst as real, now) }

  /** The tokens gained in a stretch of time. */
  function Earned(rate: Rate, passed: real): real { passed * rate.limit }

  /** The tokens in the bucket at a later moment. */
  function Level(r: Rate, b: Bucket, now: real): real {
    var refilled := b.level + Earned(r, now - b.last);
    if refilled > r.burst as real then r.burst as real else refilled
  }

  predicate Grants(r: Rate, b: Bucket, now: real) { Level(r, b, now) >= 1.0 }

  function Taken(r: Rate, b: Bucket, now: real): Bucket {
    Bucket(Level(r, b, now) - (if Grants(r, b, now) then 1.0 else 0.0), now)
  }

  /** The burst of a per-address limiter. */
  function BurstOf(limit: real): nat
    requires limit > 0.0
  {
    var twice := (limit * 2.0).Floor;
    if twice < 1 then 1 else twice
  }

  /** The global limiter's burst, unlike an address's, is not raised to 1. */
  function GlobalRate(limit: real): Rate
    requires limit > 0.0
  {
    Rate(limit, (limit * 2.0).Floor)
  }

  // ---- the limiter as the code writes it ----

  class Limiter {
    const rate: Rate
    var bucket: Bucket

    constructor (rate: Rate, now: real)
      ensures this.rate == rate && bucket == Full(rate, now) && bucket == Bucket(rate.burst as real, now)
    {
      this.rate := rate;
      bucket := Full(rate, now);
    }

    method Allow(now: real) returns (ok: bool)
      modifies this
      ensures ok <==> Grants(rate, old(bucket), now)
      ensures bucket == Taken(rate, old(bucket), now) && bucket.last == now
      ensures
        var refilled := old(bucket.level) + (now - old(bucket.last)) * rate.limit;
        && (ok <==> refilled >= 1.0 && rate.burst as real >= 1.0)
        && (refilled <= rate.burst as real ==> bucket.level == refilled - (if ok then 1.0 else 0.0))
        && (refilled > rate.burst as real ==> bucket.level == rate.burst as real - (if ok then 1.0 else 0.0))
    {
      ghost var refilled := bucket.level + Earned(rate, now - bucket.last);
      assert Earned(rate, now - bucket.last) == (now - bucket.last) * rate.limit;
      ok := Level(rate, bucket, now) >= 1.0;
      assert ok <==> refilled >= 1.0 && rate.burst as real >= 1.0;
      bucket := Bucket(Level(rate, bucket, now), now);
      if ok { bucket := bucket.(level := bucket.level - 1.0); }
    }
  }

  class RateLimiter {
    const perIPRate: Rate
    const global: Limiter?
    var perIP: map<string, Limiter>

    /** No two addresses share a limiter, and none has the global one. */
    ghost predicate Valid()
      reads this
    {
      && (forall a, b :: a in perIP && b in perIP && perIP[a] == perIP[b] ==> a == b)
      && (forall a :: a in perIP ==> perIP[a].rate == perIPRate && perIP[a] != global)
    }

    constructor (globalRate: real, perIPRate: real, now: real)
      ensures Valid() && perIP == map[]
      ensures global == null <==> globalRate <= 0.0
      ensures global != null ==>
        fresh(global) && global.rate == GlobalRate(globalRate) && global.bucket == Full(GlobalRate(globalRate), now)
      ensures global != null ==>
        var burst := global.rate.burst as real;
        && global.rate.limit == globalRate && burst <= 2.0 * globalRate < burst + 1.0
        && global.bucket == Bucket(burst, now)
      ensures this.perIPRate == if perIPRate > 0.0 then Rate(perIPRate, BurstOf(perIPRate)) else Rate(0.0, 0)
      ensures perIPRate > 0.0 ==>
        var burst := this.perIPRate.burst as real;
        && this.perIPRate.limit == perIPRate && burst >= 1.0
        && 2.0 * perIPRate < burst + 1.0 && (burst > 1.0 ==> burst <= 2.0 * perIPRate)
    {
      this.perIPRate := if perIPRate > 0.0 then Rate(perIPRate, BurstOf(perIPRate)) else Rate(0.0, 0);
      perIP := map[];
      if globalRate > 0.0 {
        global := new Limiter(GlobalRate(globalRate), now);
      } else {
        global := null;
      }
    }

    method GetLimiter(ip: string, now: real) returns (l: Limiter)
      requires Valid()
      modifies this`perIP
      ensures Valid() && ip in perIP && l == perIP[ip]
      ensures ip in old(perIP) ==> perIP == old(perIP)
      ensures ip !in old(perIP) ==> perIP == old(perIP)[ip := l] && fresh(l) && l.bucket == Full(perIPRate, now)
    {
      if ip in perIP { return perIP[ip]; }
      l := new Limiter(perIPRate, now);
      perIP := perIP[ip := l];
    }

    /** The global token is spent even when the address is then refused. */
    method Allow(ip: string, now: real) returns (ok: bool)
      requires Valid()
      modifies this`perIP, global, perIP.Values
      ensures Valid()
      ensures global != null ==> global.bucket == Taken(global.rate, old(global.bucket), now)
      ensures
        var passed := global == null || Grants(global.rate, old(global.bucket), now);
        var was := if ip in old(perIP) then old(perIP[ip].bucket) else Full(perIPRate, now);
        && (ok <==> passed && (perIPRate.limit > 0.0 ==> Grants(perIPRate, was, now)))
        && (passed && perIPRate.limit > 0.0 ==> ip in perIP && perIP[ip].bucket == Taken(perIPRate, was, now))
      ensures forall a :: a in old(perIP) ==> a in perIP && perIP[a] == old(perIP[a])
      ensures forall a :: a in old(perIP) && a != ip ==> perIP[a].bucket == old(perIP[a].bucket)
    {
      ok := true;
      if global != null { ok := global.Allow(now); }
      if ok && perIPRate.limit > 0.0 {
        var l := GetLimiter(ip, now);
        ok := l.Allow(now);
      }
    }
  }

  // ---- many requests at once ----

  datatype Config = Config(global: Option<Rate>, perIP: Option<Rate>)

  datatype Stage = Looking(ip: string) | Missed(ip: string) | Holding(ip: string, limiter: nat)

  /** Limiters are named by the order in which they were made. */
  datatype State = State(
    now: real, global: Bucket, table: map<string, nat>, limiters: seq<Bucket>, requests: map<nat, Stage>,
    passed: nat, admitted: seq<string>)

  datatype Label = Arrive(t: nat, ip: string) | Look(t: nat) | LookAgain(t: nat) | Take(t: nat) | Wait(passing: real)

  function Init(cfg: Config, now: real): State {
    State(now, if cfg.global.Some? then Full(cfg.global.value, now) else Bucket(0.0, now), map[], [], map[], 0, [])
  }

  function ArriveStep(cfg: Config, s: State, t: nat, ip: string): State {
    var ok := cfg.global.None? || Grants(cfg.global.value, s.global, s.now);
    var s' := if cfg.global.Some? then s.(global := Taken(cfg.global.value, s.global, s.now)) else s;
    if !ok then s'
    else if cfg.perIP.Some? then s'.(requests := s.requests[t := Looking(ip)], passed := s.passed + 1)
    else s'.(passed := s.passed + 1, admitted := s.admitted + [ip])
  }

  function LookAgainStep(rate: Rate, s: State, t: nat, ip: string): State {
    if ip in s.table then s.(requests := s.requests[t := Holding(ip, s.table[ip])])
    else
      s.(table := s.table[ip := |s.limiters|], limiters := s.limiters + [Full(rate, s.now)],
         requests := s.requests[t := Holding(ip, |s.limiters|)])
  }

  function TakeStep(rate: Rate, s: State, t: nat, ip: string, i: nat): State
    requires i < |s.limiters|
  {
    s.(limiters := s.limiters[i := Taken(rate, s.limiters[i], s.now)], requests := s.requests - {t},
       admitted := if Grants(rate, s.limiters[i], s.now) then s.admitted + [ip] else s.admitted)
  }

  function Next(cfg: Config, s: State, l: Label): Option<State> {
    match l
    case Arrive(t, ip) => if t in s.requests then None else Some(ArriveStep(cfg, s, t, ip))
    case Look(t) =>
      if t !in s.requests || !s.requests[t].Looking? then None
      else
        var ip := s.requests[t].ip;
        Some(s.(requests := s.requests[t := if ip in s.table then Holding(ip, s.table[ip]) else Missed(ip)]))
    case LookAgain(t) =>
      if t !in s.requests || !s.requests[t].Missed? || cfg.perIP.None? then None
      else Some(LookAgainStep(cfg.perIP.value, s, t, s.requests[t].ip))
    case Take(t) =>
      if cfg.perIP.None? || t !in s.requests || !s.requests[t].Holding? then None
      else if s.requests[t].limiter >= |s.limiters| then None
      else Some(TakeStep(cfg.perIP.value, s, t, s.requests[t].ip, s.requests[t].limiter))
    case Wait(d) => if d < 0.0 then None else Some(s.(now := s.now + d))
  }

  function Exec(cfg: Config, s: State, run: seq<Label>): Option<State>
    decreases |run|
  {
    if run == [] then Some(s)
    else
      var mid := Exec(cfg, s, run[..|run| - 1]);
      if mid.None? then None else Next(cfg, mid.value, run[|run| - 1])
  }

  // ---- one limiter for an address, for ever ----

  ghost predicate Tables(table: map<string, nat>, limiters: seq<Bucket>) {
    && (forall a :: a in table ==> table[a] < |limiters|)
    && (forall a, b :: a in table && b in table && table[a] == table[b] ==> a == b)
  }

  ghost predicate Held(table: map<string, nat>, requests: map<nat, Stage>) {
    forall t :: t in requests && requests[t].Holding? ==>
      requests[t].ip in table && requests[t].limiter == table[requests[t].ip]
  }

  ghost predicate Inv(s: State) { Tables(s.table, s.limiters) && Held(s.table, s.requests) }

  /** What was in the table stays as it was. */
  ghost predicate Kept(s: State, s': State) {
    forall a :: a in s.table ==> a in s'.table && s'.table[a] == s.table[a]
  }

  lemma StepKeeps(cfg: Config, s: State, l: Label)
    requires Inv(s) && Next(cfg, s, l).Some?
    ensures Inv(Next(cfg, s, l).value) && Kept(s, Next(cfg, s, l).value)
  {
    if l.LookAgain? { LookAgainKeeps(cfg.perIP.value, s, l.t, s.requests[l.t].ip); }
  }

  lemma LookAgainKeeps(rate: Rate, s: State, t: nat, ip: string)
    requires Inv(s)
    ensures Inv(LookAgainStep(rate, s, t, ip)) && Kept(s, LookAgainStep(rate, s, t, ip))
  {
  }

  lemma {:induction false} RunKeeps(cfg: Config, s: State, run: seq<Label>)
    requires Inv(s) && Exec(cfg, s, run).Some?
    ensures Inv(Exec(cfg, s, run).value) && Kept(s, Exec(cfg, s, run).value)
    decreases |run|
  {
    if run != [] {
      RunKeeps(cfg, s, run[..|run| - 1]);
      StepKeeps(cfg, Exec(cfg, s, run[..|run| - 1]).value, run[|run| - 1]);
    }
  }

  /**
    Two requests from one address hold the same limiter, whenever each of them looked and whatever ran between,
    and requests from different addresses hold different ones.
   */
  lemma OneLimiterPerAddress(
      cfg: Config, start: real, before: seq<Label>, s0: State, run: seq<Label>, s: State, t: nat, u: nat)
    requires Exec(cfg, Init(cfg, start), before) == Some(s0) && Exec(cfg, s0, run) == Some(s)
    requires t in s0.requests && s0.requests[t].Holding?
    requires u in s.requests && s.requests[u].Holding?
    ensures s0.requests[t].limiter == s.requests[u].limiter <==> s0.requests[t].ip == s.requests[u].ip
  {
    RunKeeps(cfg, Init(cfg, start), before);
    RunKeeps(cfg, s0, run);
  }

  // ---- admitted requests per address and in all ----

  function Count(log: seq<string>, ip: string): nat {
    if log == [] then 0 else Count(log[..|log| - 1], ip) + (if log[|log| - 1] == ip then 1 else 0)
  }

  lemma CountNext(log: seq<string>, x: string, ip: string)
    ensures Count(log + [x], ip) == Count(log, ip) + (if x == ip then 1 else 0)
  {
    assert (log + [x])[..|log|] == log;
  }

  /** What an address may still draw at once: its bucket, or a full one when it has none yet. */
  function Left(rate: Rate, s: State, ip: string): real
    requires Tables(s.table, s.limiters)
  {
    if ip in s.table then Level(rate, s.limiters[s.table[ip]], s.now) else rate.burst as real
  }

  lemma LevelLater(r: Rate, b: Bucket, now: real, d: real)
    requires d >= 0.0 && r.limit >= 0.0
    ensures Level(r, b, now + d) <= Level(r, b, now) + d * r.limit
    ensures Level(r, b, now) <= r.burst as real
  {
    assert (now + d - b.last) * r.limit == (now - b.last) * r.limit + d * r.limit;
    assert d * r.limit >= 0.0;
  }

  lemma LevelNow(r: Rate, level: real, now: real)
    requires level <= r.burst as real
    ensures Level(r, Bucket(level, now), now) == level
  {
  }

  /** What an address was admitted, plus what it has left, less what has been earned by now. */
  function Purse(rate: Rate, s: State, ip: string): real
    requires Tables(s.table, s.limiters)
  {
    Count(s.admitted, ip) as real + Left(rate, s, ip) - Earned(rate, s.now)
  }

  lemma WaitSpends(rate: Rate, s: State, d: real, ip: string)
    requires Tables(s.table, s.limiters) && d >= 0.0 && rate.limit >= 0.0
    ensures Purse(rate, s.(now := s.now + d), ip) <= Purse(rate, s, ip)
  {
    if ip in s.table { LevelLater(rate, s.limiters[s.table[ip]], s.now, d); }
    assert Earned(rate, s.now + d) == Earned(rate, s.now) + d * rate.limit;
    assert d * rate.limit >= 0.0;
  }

  lemma TakeSpends(rate: Rate, s: State, t: nat, ip: string)
    requires Inv(s) && t in s.requests && s.requests[t].Holding? && rate.limit >= 0.0
    ensures
      var s' := TakeStep(rate, s, t, s.requests[t].ip, s.requests[t].limiter);
      Tables(s'.table, s'.limiters) && Purse(rate, s', ip) <= Purse(rate, s, ip)
  {
    var a, i := s.requests[t].ip, s.requests[t].limiter;
    CountNext(s.admitted, a, ip);
    LevelLater(rate, s.limiters[i], s.now, 0.0);
    LevelNow(rate, Taken(rate, s.limiters[i], s.now).level, s.now);
  }

  /** No step adds to the purse. */
  lemma StepSpends(cfg: Config, s: State, l: Label, ip: string)
    requires Inv(s) && Next(cfg, s, l).Some? && cfg.perIP.Some? && cfg.perIP.value.limit >= 0.0
    ensures
      var s' := Next(cfg, s, l).value;
      Inv(s') && Purse(cfg.perIP.value, s', ip) <= Purse(cfg.perIP.value, s, ip)
  {
    StepKeeps(cfg, s, l);
    var r := cfg.perIP.value;
    if l.Wait? {
      WaitSpends(r, s, l.passing, ip);
    } else if l.Take? {
      TakeSpends(r, s, l.t, ip);
    } else if l.LookAgain? {
      LevelNow(r, r.burst as real, s.now);
    }
  }

  lemma {:induction false} RunSpends(cfg: Config, s0: State, run: seq<Label>, ip: string)
    requires Inv(s0) && Exec(cfg, s0, run).Some? && cfg.perIP.Some? && cfg.perIP.value.limit >= 0.0
    ensures
      var s := Exec(cfg, s0, run).value;
      Inv(s) && Purse(cfg.perIP.value, s, ip) <= Purse(cfg.perIP.value, s0, ip)
    decreases |run|
  {
    if run != [] {
      RunSpends(cfg, s0, run[..|run| - 1], ip);
      StepSpends(cfg, Exec(cfg, s0, run[..|run| - 1]).value, run[|run| - 1], ip);
    }
  }

  ghost predicate Solvent(limiters: seq<Bucket>, now: real) {
    forall i :: 0 <= i < |limiters| ==> limiters[i].level >= 0.0 && limiters[i].last <= now
  }

  lemma ProductNotNegative(a: real, b: real)
    requires a >= 0.0 && b >= 0.0
    ensures a * b >= 0.0
  {
  }

  lemma LevelNotNegative(r: Rate, b: Bucket, now: real)
    requires r.limit >= 0.0 && b.level >= 0.0 && b.last <= now
    ensures Level(r, b, now) >= 0.0
  {
    var passed := now - b.last;
    ProductNotNegative(passed, r.limit);
    assert Earned(r, passed) >= 0.0;
  }

  lemma StepSolvent(cfg: Config, s: State, l: Label)
    requires Solvent(s.limiters, s.now) && Next(cfg, s, l).Some? && cfg.perIP.Some? && cfg.perIP.value.limit >= 0.0
    ensures Solvent(Next(cfg, s, l).value.limiters, Next(cfg, s, l).value.now)
  {
    if l.Take? { LevelNotNegative(cfg.perIP.value, s.limiters[s.requests[l.t].limiter], s.now); }
  }

  lemma {:induction false} RunSolvent(cfg: Config, s: State, run: seq<Label>)
    requires Solvent(s.limiters, s.now) && Exec(cfg, s, run).Some? && cfg.perIP.Some? && cfg.perIP.value.limit >= 0.0
    ensures Solvent(Exec(cfg, s, run).value.limiters, Exec(cfg, s, run).value.now)
    decreases |run|
  {
    if run != [] {
      RunSolvent(cfg, s, run[..|run| - 1]);
      StepSolvent(cfg, Exec(cfg, s, run[..|run| - 1]).value, run[|run| - 1]);
    }
  }

  lemma LeftBounds(rate: Rate, s: State, ip: string)
    requires Tables(s.table, s.limiters) && Solvent(s.limiters, s.now) && rate.limit >= 0.0
    ensures 0.0 <= Left(rate, s, ip) <= rate.burst as real
  {
    if ip in s.table { LevelNotNegative(rate, s.limiters[s.table[ip]], s.now); }
  }

  /**
    In every interleaving, in any window of length w, an address is admitted at most burst + limit * w times:
    all its requests draw on one bucket, however many of them missed the table at once.
   */
  lemma AddressRate(cfg: Config, start: real, before: seq<Label>, s0: State, run: seq<Label>, s: State, ip: string)
    requires cfg.perIP.Some? && cfg.perIP.value.limit >= 0.0
    requires Exec(cfg, Init(cfg, start), before) == Some(s0) && Exec(cfg, s0, run) == Some(s)
    ensures
      Count(s.admitted, ip) as real - Count(s0.admitted, ip) as real
        <= cfg.perIP.value.burst as real + Earned(cfg.perIP.value, s.now - s0.now)
  {
    var r := cfg.perIP.value;
    RunKeeps(cfg, Init(cfg, start), before);
    RunSpends(cfg, s0, run, ip);
    RunSolvent(cfg, Init(cfg, start), before);
    RunSolvent(cfg, s0, run);
    LeftBounds(r, s0, ip);
    LeftBounds(r, s, ip);
    EarnedBetween(r, s0.now, s.now);
  }

  lemma EarnedBetween(rate: Rate, a: real, b: real)
    ensures Earned(rate, b - a) == Earned(rate, b) - Earned(rate, a)
  {
  }

  lemma {:induction false} NonePass(cfg: Config, s: State, run: seq<Label>)
    requires cfg.global.Some? && cfg.global.value.burst == 0 && s.requests == map[] && s.passed == 0
    requires Exec(cfg, s, run).Some?
    ensures Exec(cfg, s, run).value.passed == 0 && Exec(cfg, s, run).value.requests == map[]
    decreases |run|
  {
    if run != [] { NonePass(cfg, s, run[..|run| - 1]); }
  }

  ghost predicate LetsThrough(cfg: Config, start: real, run: seq<Label>) {
    Exec(cfg, Init(cfg, start), run).Some? && Exec(cfg, Init(cfg, start), run).value.passed > 0
  }

  /** A global rate below one half a second gives a burst of zero, and then no request is ever let through. */
  lemma GlobalRateAdmitsExactly(limit: real, perIP: Option<Rate>, start: real)
    requires limit > 0.0
    ensures
      var cfg := Config(Some(GlobalRate(limit)), perIP);
      (exists run :: LetsThrough(cfg, start, run)) <==> limit >= 0.5
  {
    var cfg := Config(Some(GlobalRate(limit)), perIP);
    if limit >= 0.5 {
      var s := Next(cfg, Init(cfg, start), Arrive(0, "")).value;
      var run := [Arrive(0, "")];
      assert run[..0] == [] && Earned(cfg.global.value, 0.0) == 0.0;
      assert Exec(cfg, Init(cfg, start), run) == Some(s);
      assert LetsThrough(cfg, start, run);
    } else {
      assert cfg.global.value.burst == 0;
      forall run ensures !LetsThrough(cfg, start, run) {
        if Exec(cfg, Init(cfg, start), run).Some? { NonePass(cfg, Init(cfg, start), run); }
      }
    }
  }
}
