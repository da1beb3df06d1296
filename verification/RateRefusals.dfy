/**
  What the limiter refuses. A request is refused exactly when granting it would let some window, ending now, take
  more than the burst and what the window earns: the bounds on the rate are met, and nothing else is turned away.
 */
module RateRefusals {
  import opened Base
  import opened RateLimiter

  /** A request that runs alone does what the limiter's method says. */
  lemma AllowIsWhole(cfg: Config, s: State, t: nat, ip: string)
    requires Inv(s) && t !in s.requests
    ensures
      var passes := cfg.global.None? || Level(cfg.global.value, s.global, s.now) >= 1.0;
      var known := ip in s.table;
      var was := if known then s.limiters[s.table[ip]]
                 else if cfg.perIP.Some? then Bucket(cfg.perIP.value.burst as real, s.now) else Bucket(0.0, 0.0);
      var ok := passes && (cfg.perIP.Some? ==> Level(cfg.perIP.value, was, s.now) >= 1.0);
      var run := if !passes || cfg.perIP.None? then [Arrive(t, ip)]
                 else [Arrive(t, ip), Look(t)] + (if known then [] else [LookAgain(t)]) + [Take(t)];
      var end := Exec(cfg, s, run);
      && end.Some? && end.value.requests == s.requests && end.value.now == s.now
      && end.value.admitted == (if ok then s.admitted + [ip] else s.admitted)
      && end.value.passed == (if passes then s.passed + 1 else s.passed)
      && (cfg.global.Some? ==> end.value.global == Taken(cfg.global.value, s.global, s.now))
      && (passes && cfg.perIP.Some? ==>
            && end.value.table == (if known then s.table else s.table[ip := |s.limiters|])
            && end.value.limiters ==
               if known then s.limiters[s.table[ip] := Taken(cfg.perIP.value, was, s.now)]
               else s.limiters + [Taken(cfg.perIP.value, was, s.now)])
  {
    OneStep(cfg, s, Arrive(t, ip));
    var s1 := ArriveStep(cfg, s, t, ip);
    if t in s1.requests { HolderTakes(cfg, s, s1, t, ip); }
  }

  /** Once past the global limiter, a request finds or makes the limiter of its address and takes from it. */
  lemma HolderTakes(cfg: Config, s: State, s1: State, t: nat, ip: string)
    requires Exec(cfg, s, [Arrive(t, ip)]) == Some(s1) && s1.requests == s.requests[t := Looking(ip)]
    requires cfg.perIP.Some? && t !in s.requests && Inv(s) && s1.table == s.table && s1.limiters == s.limiters
    ensures
      var rate, known := cfg.perIP.value, ip in s1.table;
      var run := [Arrive(t, ip), Look(t)] + (if known then [] else [LookAgain(t)]) + [Take(t)];
      var held := if known then s1 else LookAgainStep(rate, s1, t, ip);
      var end := TakeStep(rate, held, t, ip, held.table[ip]);
      Exec(cfg, s, run) == Some(end) && end.requests == s.requests
  {
    var looked := [Arrive(t, ip), Look(t)];
    assert looked[..1] == [Arrive(t, ip)];
    var s2 := Next(cfg, s1, Look(t)).value;
    assert Exec(cfg, s, looked) == Some(s2);
    if ip in s.table {
      assert looked + [] == looked;
      assert s2.requests - {t} == s.requests && s1.requests - {t} == s.requests;
      TakeEnds(cfg, s, looked, s2, t);
    } else {
      var again := looked + [LookAgain(t)];
      assert again[..2] == looked;
      var held := LookAgainStep(cfg.perIP.value, s2, t, ip);
      TakeEnds(cfg, s, again, held, t);
      assert held.requests - {t} == s.requests;
      assert LookAgainStep(cfg.perIP.value, s1, t, ip).requests - {t} == s.requests;
    }
  }

  lemma OneStep(cfg: Config, s: State, l: Label)
    ensures Exec(cfg, s, [l]) == Next(cfg, s, l)
  {
    assert [l][..0] == [];
  }

  lemma TakeEnds(cfg: Config, s: State, run: seq<Label>, mid: State, t: nat)
    requires Exec(cfg, s, run) == Some(mid) && cfg.perIP.Some?
    requires t in mid.requests && mid.requests[t].Holding? && mid.requests[t].limiter < |mid.limiters|
    ensures Exec(cfg, s, run + [Take(t)])
         == Some(TakeStep(cfg.perIP.value, mid, t, mid.requests[t].ip, mid.requests[t].limiter))
  {
    assert (run + [Take(t)])[..|run|] == run;
  }

  // ---- refusals ----

  /** The state after the first i steps. */
  function After(cfg: Config, start: real, run: seq<Label>, i: nat): State
    requires i <= |run|
  {
    var s := Exec(cfg, Init(cfg, start), run[..i]);
    if s.Some? then s.value else Init(cfg, start)
  }

  /** What is left of the burst and of what a window of this length earns, `taken` having been granted in it. */
  function Slack(rate: Rate, window: real, taken: int): real {
    rate.burst as real + Earned(rate, window) - taken as real
  }

  function AddressSlack(rate: Rate, s0: State, s: State, ip: string): real {
    Slack(rate, s.now - s0.now, Count(s.admitted, ip) - Count(s0.admitted, ip))
  }

  function GlobalSlack(rate: Rate, s0: State, s: State): real { Slack(rate, s.now - s0.now, s.passed - s0.passed) }

  lemma LevelOn(r: Rate, b: Bucket, now: real, d: real)
    requires d >= 0.0 && r.limit >= 0.0
    ensures
      var level := Level(r, b, now) + d * r.limit;
      Level(r, b, now + d) == if level > r.burst as real then r.burst as real else level
  {
    assert (now + d - b.last) * r.limit == (now - b.last) * r.limit + d * r.limit;
    ProductNotNegative(d, r.limit);
  }

  /** Time that passes fills what is left, up to the burst; */
  lemma WaitLeaves(rate: Rate, s: State, d: real, ip: string)
    requires Tables(s.table, s.limiters) && d >= 0.0 && rate.limit >= 0.0
    ensures
      var left := Left(rate, s, ip) + d * rate.limit;
      Left(rate, s.(now := s.now + d), ip) == if left > rate.burst as real then rate.burst as real else left
  {
    ProductNotNegative(d, rate.limit);
    if ip in s.table { LevelOn(rate, s.limiters[s.table[ip]], s.now, d); }
  }

  /** ... and what is granted comes out of it. */
  lemma TakeLeaves(rate: Rate, s: State, t: nat, ip: string)
    requires Inv(s) && t in s.requests && s.requests[t].Holding? && rate.limit >= 0.0
    ensures
      var s' := TakeStep(rate, s, t, s.requests[t].ip, s.requests[t].limiter);
      && Tables(s'.table, s'.limiters)
      && Left(rate, s', ip) + Count(s'.admitted, ip) as real == Left(rate, s, ip) + Count(s.admitted, ip) as real
  {
    var a, i := s.requests[t].ip, s.requests[t].limiter;
    CountNext(s.admitted, a, ip);
    LevelLater(rate, s.limiters[i], s.now, 0.0);
    LevelNow(rate, Taken(rate, s.limiters[i], s.now).level, s.now);
  }

  lemma StepLeaves(cfg: Config, s: State, l: Label, ip: string)
    requires Inv(s) && Next(cfg, s, l).Some? && cfg.perIP.Some? && cfg.perIP.value.limit >= 0.0 && !l.Wait?
    ensures
      var rate, s' := cfg.perIP.value, Next(cfg, s, l).value;
      && Inv(s') && s'.now == s.now
      && Left(rate, s', ip) + Count(s'.admitted, ip) as real == Left(rate, s, ip) + Count(s.admitted, ip) as real
  {
    StepKeeps(cfg, s, l);
    var r := cfg.perIP.value;
    if l.Take? { TakeLeaves(r, s, l.t, ip); } else if l.LookAgain? { LevelNow(r, r.burst as real, s.now); }
  }

  /** What an address has left goes on being the slack of a window, or of the one that begins now. */
  lemma LeftGoesOn(cfg: Config, s0: State, mid: State, l: Label, ip: string)
    requires Inv(mid) && Next(cfg, mid, l).Some? && cfg.perIP.Some? && cfg.perIP.value.limit >= 0.0
    requires Left(cfg.perIP.value, mid, ip) == AddressSlack(cfg.perIP.value, s0, mid, ip)
    ensures
      var rate, s := cfg.perIP.value, Next(cfg, mid, l).value;
      && Inv(s)
      && Left(rate, s, ip) in {AddressSlack(rate, s0, s, ip), AddressSlack(rate, s, s, ip)}
  {
    var rate, s := cfg.perIP.value, Next(cfg, mid, l).value;
    StepKeeps(cfg, mid, l);
    EarnedLonger(rate, mid.now - s0.now, s.now - mid.now);
    if l.Wait? { WaitLeaves(rate, mid, l.passing, ip); } else { StepLeaves(cfg, mid, l, ip); }
  }

  lemma EarnedLonger(rate: Rate, a: real, b: real)
    ensures Earned(rate, a + b) == Earned(rate, a) + Earned(rate, b) && Earned(rate, 0.0) == 0.0
  {
  }

  /** What an address has left is the slack of some window that ends now. */
  lemma {:induction false} LeftIsSlack(cfg: Config, start: real, run: seq<Label>, s: State, ip: string) returns (i: nat)
    requires Exec(cfg, Init(cfg, start), run) == Some(s) && cfg.perIP.Some? && cfg.perIP.value.limit >= 0.0
    ensures Inv(s) && i <= |run|
    ensures Left(cfg.perIP.value, s, ip) == AddressSlack(cfg.perIP.value, After(cfg, start, run, i), s, ip)
    decreases |run|
  {
    RunKeeps(cfg, Init(cfg, start), run);
    assert run[..|run|] == run;
    if run == [] {
      EarnedLonger(cfg.perIP.value, 0.0, 0.0);
      return 0;
    }
    var before := run[..|run| - 1];
    var mid := Exec(cfg, Init(cfg, start), before).value;
    i := LeftIsSlack(cfg, start, before, mid, ip);
    assert before[..i] == run[..i];
    var s0 := After(cfg, start, run, i);
    LeftGoesOn(cfg, s0, mid, run[|run| - 1], ip);
    if Left(cfg.perIP.value, s, ip) != AddressSlack(cfg.perIP.value, s0, s, ip) { i := |run|; }
  }

  /** Some window that ends now has no room for one more request of the address. */
  ghost predicate Spent(cfg: Config, start: real, run: seq<Label>, s: State, ip: string)
    requires cfg.perIP.Some?
  {
    exists i :: 0 <= i <= |run| && AddressSlack(cfg.perIP.value, After(cfg, start, run, i), s, ip) < 1.0
  }

  /**
    A request that holds its address's limiter is refused exactly when some window that ends now has no room for it
    in the burst and what the window earns.
   */
  lemma RefusedExactly(cfg: Config, start: real, run: seq<Label>, s: State, t: nat)
    requires Exec(cfg, Init(cfg, start), run) == Some(s) && cfg.perIP.Some? && cfg.perIP.value.limit >= 0.0
    requires t in s.requests && s.requests[t].Holding?
    ensures
      var ip, end := s.requests[t].ip, Next(cfg, s, Take(t));
      end.Some? && end.value.admitted == if Spent(cfg, start, run, s, ip) then s.admitted else s.admitted + [ip]
  {
    var ip := s.requests[t].ip;
    var at := LeftIsSlack(cfg, start, run, s, ip);
    if Grants(cfg.perIP.value, s.limiters[s.requests[t].limiter], s.now) {
      forall i | 0 <= i <= |run|
        ensures AddressSlack(cfg.perIP.value, After(cfg, start, run, i), s, ip) >= 1.0
      {
        TakeGrants(cfg, s, t);
        GrantedHasRoom(cfg, start, run, s, t, i, Next(cfg, s, Take(t)).value);
      }
    }
  }

  lemma TakeGrants(cfg: Config, s: State, t: nat)
    requires cfg.perIP.Some? && Inv(s) && t in s.requests && s.requests[t].Holding?
    requires Grants(cfg.perIP.value, s.limiters[s.requests[t].limiter], s.now)
    ensures
      var s', ip := Next(cfg, s, Take(t)), s.requests[t].ip;
      s'.Some? && s'.value.now == s.now && Count(s'.value.admitted, ip) == Count(s.admitted, ip) + 1
  {
    CountNext(s.admitted, s.requests[t].ip, s.requests[t].ip);
  }

  lemma GrantedHasRoom(cfg: Config, start: real, run: seq<Label>, s: State, t: nat, i: nat, s': State)
    requires Exec(cfg, Init(cfg, start), run) == Some(s) && cfg.perIP.Some? && cfg.perIP.value.limit >= 0.0
    requires t in s.requests && i <= |run| && Next(cfg, s, Take(t)) == Some(s') && s'.now == s.now
    requires Count(s'.admitted, s.requests[t].ip) == Count(s.admitted, s.requests[t].ip) + 1
    ensures AddressSlack(cfg.perIP.value, After(cfg, start, run, i), s, s.requests[t].ip) >= 1.0
  {
    var s0 := After(cfg, start, run, i);
    RunSplits(cfg, start, run, s, i);
    OneMore(cfg, s0, run[i..], s, Take(t), s');
    Room(cfg, start, run[..i], s0, run[i..] + [Take(t)], s', s.requests[t].ip);
  }

  lemma OneMore(cfg: Config, s0: State, run: seq<Label>, mid: State, l: Label, end: State)
    requires Exec(cfg, s0, run) == Some(mid) && Next(cfg, mid, l) == Some(end)
    ensures Exec(cfg, s0, run + [l]) == Some(end)
  {
    assert (run + [l])[..|run|] == run;
  }

  /** What `AddressRate` says of the slack. */
  lemma Room(cfg: Config, start: real, before: seq<Label>, s0: State, run: seq<Label>, s: State, ip: string)
    requires cfg.perIP.Some? && cfg.perIP.value.limit >= 0.0
    requires Exec(cfg, Init(cfg, start), before) == Some(s0) && Exec(cfg, s0, run) == Some(s)
    ensures AddressSlack(cfg.perIP.value, s0, s, ip) >= 0.0
  {
    AddressRate(cfg, start, before, s0, run, s, ip);
  }

  lemma {:induction false} ExecSplits(cfg: Config, s: State, a: seq<Label>, b: seq<Label>)
    requires Exec(cfg, s, a + b).Some?
    ensures Exec(cfg, s, a).Some? && Exec(cfg, Exec(cfg, s, a).value, b) == Exec(cfg, s, a + b)
    decreases |b|
  {
    if b == [] {
      assert a + b == a;
    } else {
      assert (a + b)[..|a + b| - 1] == a + b[..|b| - 1];
      ExecSplits(cfg, s, a, b[..|b| - 1]);
    }
  }

  lemma RunSplits(cfg: Config, start: real, run: seq<Label>, s: State, i: nat)
    requires Exec(cfg, Init(cfg, start), run) == Some(s) && i <= |run|
    ensures Exec(cfg, Init(cfg, start), run[..i]) == Some(After(cfg, start, run, i))
    ensures Exec(cfg, After(cfg, start, run, i), run[i..]) == Some(s)
  {
    assert run[..i] + run[i..] == run;
    ExecSplits(cfg, Init(cfg, start), run[..i], run[i..]);
  }

  // ---- the global limiter ----

  function GlobalLeft(rate: Rate, s: State): real { Level(rate, s.global, s.now) }

  lemma GlobalStepLeaves(cfg: Config, s: State, l: Label)
    requires Next(cfg, s, l).Some? && cfg.global.Some? && cfg.global.value.limit >= 0.0
    ensures
      var rate, s' := cfg.global.value, Next(cfg, s, l).value;
      if l.Wait? then
        var left := GlobalLeft(rate, s) + l.passing * rate.limit;
        && s'.now == s.now + l.passing && s'.passed == s.passed
        && GlobalLeft(rate, s') == if left > rate.burst as real then rate.burst as real else left
      else
        s'.now == s.now && GlobalLeft(rate, s') + s'.passed as real == GlobalLeft(rate, s) + s.passed as real
  {
    var r := cfg.global.value;
    if l.Wait? { LevelOn(r, s.global, s.now, l.passing); }
    if l.Arrive? {
      LevelLater(r, s.global, s.now, 0.0);
      LevelNow(r, Taken(r, s.global, s.now).level, s.now);
    }
  }

  /** It goes on being the slack of a window, or of the one that begins now, */
  lemma GlobalGoesOn(cfg: Config, s0: State, mid: State, l: Label)
    requires Next(cfg, mid, l).Some? && cfg.global.Some? && cfg.global.value.limit >= 0.0
    ensures
      var rate, s := cfg.global.value, Next(cfg, mid, l).value;
      && (GlobalLeft(rate, mid) == GlobalSlack(rate, s0, mid) ==>
            GlobalLeft(rate, s) in {GlobalSlack(rate, s0, s), GlobalSlack(rate, s, s)})
      && (GlobalLeft(rate, mid) <= GlobalSlack(rate, s0, mid) ==> GlobalLeft(rate, s) <= GlobalSlack(rate, s0, s))
  {
    var rate, s := cfg.global.value, Next(cfg, mid, l).value;
    GlobalStepLeaves(cfg, mid, l);
    EarnedLonger(rate, mid.now - s0.now, s.now - mid.now);
  }

  /** ... and no window has less. */
  lemma {:induction false} GlobalLeftIsSlack(cfg: Config, start: real, run: seq<Label>, s: State) returns (i: nat)
    requires Exec(cfg, Init(cfg, start), run) == Some(s) && cfg.global.Some? && cfg.global.value.limit >= 0.0
    ensures i <= |run| && GlobalLeft(cfg.global.value, s) == GlobalSlack(cfg.global.value, After(cfg, start, run, i), s)
    decreases |run|
  {
    assert run[..|run|] == run;
    if run == [] {
      StartSlack(cfg, start);
      return 0;
    }
    var before := run[..|run| - 1];
    var mid := Exec(cfg, Init(cfg, start), before).value;
    i := GlobalLeftIsSlack(cfg, start, before, mid);
    assert before[..i] == run[..i];
    var s0 := After(cfg, start, run, i);
    GlobalGoesOn(cfg, s0, mid, run[|run| - 1]);
    if GlobalLeft(cfg.global.value, s) != GlobalSlack(cfg.global.value, s0, s) { i := |run|; }
  }

  lemma StartSlack(cfg: Config, start: real)
    requires cfg.global.Some?
    ensures
      var rate, s := cfg.global.value, Init(cfg, start);
      GlobalLeft(rate, s) == GlobalSlack(rate, s, s) == rate.burst as real
  {
    EarnedLonger(cfg.global.value, 0.0, 0.0);
    LevelNow(cfg.global.value, cfg.global.value.burst as real, start);
  }

  lemma {:induction false} GlobalLeftLeast(cfg: Config, s0: State, run: seq<Label>, s: State)
    requires Exec(cfg, s0, run) == Some(s) && cfg.global.Some? && cfg.global.value.limit >= 0.0
    ensures GlobalLeft(cfg.global.value, s) <= GlobalSlack(cfg.global.value, s0, s)
    decreases |run|
  {
    if run == [] {
      EarnedLonger(cfg.global.value, 0.0, 0.0);
      LevelLater(cfg.global.value, s.global, s.now, 0.0);
    } else {
      var mid := Exec(cfg, s0, run[..|run| - 1]).value;
      GlobalLeftLeast(cfg, s0, run[..|run| - 1], mid);
      GlobalGoesOn(cfg, s0, mid, run[|run| - 1]);
    }
  }

  lemma {:induction false} GlobalSolvent(cfg: Config, start: real, run: seq<Label>, s: State)
    requires Exec(cfg, Init(cfg, start), run) == Some(s) && cfg.global.Some? && cfg.global.value.limit >= 0.0
    ensures s.global.level >= 0.0 && s.global.last <= s.now
    decreases |run|
  {
    if run != [] {
      var mid := Exec(cfg, Init(cfg, start), run[..|run| - 1]).value;
      GlobalSolvent(cfg, start, run[..|run| - 1], mid);
      LevelNotNegative(cfg.global.value, mid.global, mid.now);
    }
  }

  /** Some window that ends now has no room for one more request. */
  ghost predicate AllSpent(cfg: Config, start: real, run: seq<Label>, s: State)
    requires cfg.global.Some?
  {
    exists i :: 0 <= i <= |run| && GlobalSlack(cfg.global.value, After(cfg, start, run, i), s) < 1.0
  }

  /** A request is turned away by the global limiter exactly when some window that ends now has no room for it. */
  lemma TurnedAwayExactly(cfg: Config, start: real, run: seq<Label>, s: State, t: nat, ip: string)
    requires Exec(cfg, Init(cfg, start), run) == Some(s) && cfg.global.Some? && cfg.global.value.limit >= 0.0
    requires t !in s.requests
    ensures
      var end := Next(cfg, s, Arrive(t, ip));
      end.Some? && end.value.passed == if AllSpent(cfg, start, run, s) then s.passed else s.passed + 1
  {
    var at := GlobalLeftIsSlack(cfg, start, run, s);
    forall i | 0 <= i <= |run|
      ensures GlobalLeft(cfg.global.value, s) <= GlobalSlack(cfg.global.value, After(cfg, start, run, i), s)
    {
      RunSplits(cfg, start, run, s, i);
      GlobalLeftLeast(cfg, After(cfg, start, run, i), run[i..], s);
    }
  }

  /** In any window, the global limiter lets through at most the burst and what the window earns. */
  lemma GlobalLimit(cfg: Config, start: real, before: seq<Label>, s0: State, run: seq<Label>, s: State)
    requires cfg.global.Some? && cfg.global.value.limit >= 0.0
    requires Exec(cfg, Init(cfg, start), before) == Some(s0) && Exec(cfg, s0, run) == Some(s)
    ensures (s.passed - s0.passed) as real
         <= cfg.global.value.burst as real + Earned(cfg.global.value, s.now - s0.now)
  {
    GlobalLeftLeast(cfg, s0, run, s);
    ExecJoins(cfg, Init(cfg, start), before, s0, run, s);
    GlobalSolvent(cfg, start, before + run, s);
    LevelNotNegative(cfg.global.value, s.global, s.now);
  }

  lemma {:induction false} ExecJoins(cfg: Config, s: State, a: seq<Label>, mid: State, b: seq<Label>, end: State)
    requires Exec(cfg, s, a) == Some(mid) && Exec(cfg, mid, b) == Some(end)
    ensures Exec(cfg, s, a + b) == Some(end)
    decreases |b|
  {
    if b == [] {
      assert a + b == a;
    } else {
      assert (a + b)[..|a + b| - 1] == a + b[..|b| - 1];
      ExecJoins(cfg, s, a, mid, b[..|b| - 1], Exec(cfg, mid, b[..|b| - 1]).value);
    }
  }

  // ---- waiting ----

  /** A rate that gives a token in time d. */
  predicate Refills(rate: Rate, d: real) { rate.burst >= 1 && rate.limit >= 0.0 && Earned(rate, d) >= 1.0 }

  lemma RefilledGrants(rate: Rate, b: Bucket, now: real, d: real)
    requires Refills(rate, d) && d >= 0.0 && b.level >= 0.0 && b.last <= now
    ensures Level(rate, b, now + d) >= 1.0
  {
    LevelNotNegative(rate, b, now);
    LevelOn(rate, b, now, d);
  }

  /** After the wait both limiters grant. */
  lemma WaitedGrants(cfg: Config, start: real, before: seq<Label>, s: State, ip: string, d: real)
    requires Exec(cfg, Init(cfg, start), before) == Some(s) && d >= 0.0
    requires cfg.global.Some? ==> Refills(cfg.global.value, d)
    requires cfg.perIP.Some? ==> Refills(cfg.perIP.value, d)
    ensures Inv(s)
    ensures cfg.global.Some? ==> Level(cfg.global.value, s.global, s.now + d) >= 1.0
    ensures cfg.perIP.Some? && ip in s.table ==>
      Level(cfg.perIP.value, s.limiters[s.table[ip]], s.now + d) >= 1.0
  {
    RunKeeps(cfg, Init(cfg, start), before);
    if cfg.global.Some? {
      GlobalSolvent(cfg, start, before, s);
      RefilledGrants(cfg.global.value, s.global, s.now, d);
    }
    if cfg.perIP.Some? && ip in s.table {
      RunSolvent(cfg, Init(cfg, start), before);
      RefilledGrants(cfg.perIP.value, s.limiters[s.table[ip]], s.now, d);
    }
  }

  /** A request alone is admitted when both limiters grant, a new one of its address being full. */
  lemma GrantedAlone(cfg: Config, s: State, t: nat, ip: string) returns (run: seq<Label>)
    requires Inv(s) && t !in s.requests
    requires cfg.global.Some? ==> Level(cfg.global.value, s.global, s.now) >= 1.0
    requires cfg.perIP.Some? ==> cfg.perIP.value.burst >= 1
    requires cfg.perIP.Some? && ip in s.table ==> Level(cfg.perIP.value, s.limiters[s.table[ip]], s.now) >= 1.0
    ensures
      var end := Exec(cfg, s, run);
      end.Some? && end.value.now == s.now && end.value.admitted == s.admitted + [ip]
  {
    if cfg.perIP.Some? { LevelNow(cfg.perIP.value, cfg.perIP.value.burst as real, s.now); }
    AllowIsWhole(cfg, s, t, ip);
    run := if cfg.perIP.None? then [Arrive(t, ip)]
           else [Arrive(t, ip), Look(t)] + (if ip in s.table then [] else [LookAgain(t)]) + [Take(t)];
  }

  /** Whatever has gone before, after a wait in which each limiter earns a token the next request is let through. */
  lemma WaitServes(cfg: Config, start: real, before: seq<Label>, s: State, t: nat, ip: string, d: real)
      returns (run: seq<Label>)
    requires Exec(cfg, Init(cfg, start), before) == Some(s) && t !in s.requests && d >= 0.0
    requires cfg.global.Some? ==> Refills(cfg.global.value, d)
    requires cfg.perIP.Some? ==> Refills(cfg.perIP.value, d)
    ensures
      var end := Exec(cfg, s, run);
      end.Some? && end.value.now == s.now + d && end.value.admitted == s.admitted + [ip]
  {
    var later := s.(now := s.now + d);
    WaitedGrants(cfg, start, before, s, ip, d);
    var asks := GrantedAlone(cfg, later, t, ip);
    OneStep(cfg, s, Wait(d));
    ExecJoins(cfg, s, [Wait(d)], later, asks, Exec(cfg, later, asks).value);
    run := [Wait(d)] + asks;
  }
}
