/**
  The circuit breaker in front of S3. Time is a whole number of nanoseconds that never runs backwards.
  A call is admitted at one moment and its outcome recorded at another, so outcomes of calls admitted
  long ago mix with later ones.
 */
module CircuitBreaker {
  import opened Arithmetic
  import opened Base

  datatype Breaker = Breaker(failures: nat, lastFail: int, open: bool)

  datatype Config = Config(threshold: int, timeout: int)

  datatype Outcome = Success | Failure(at: int)

  datatype Status = ClosedStatus | OpenStatus | HalfOpenStatus

  const FRESH := Breaker(0, 0, false)

  function Admits(cfg: Config, b: Breaker, now: int): bool { !b.open || now - b.lastFail > cfg.timeout }

  function Record(cfg: Config, b: Breaker, o: Outcome): Breaker {
    match o
    case Success => b.(failures := 0, open := false)
    case Failure(at) => Breaker(b.failures + 1, at, b.open || b.failures + 1 >= cfg.threshold)
  }

  /** What a wrapped Head, Put or Delete yields, and a wrapped Get. */
  datatype CallResult = Refused | Answered | Errored
  datatype GetResult = GetRefused | GetErrored | NotFound | Streaming

  /** The breaker as the code writes it. */
  class CircuitBreaker {
    const cfg: Config
    var failures: nat
    var lastFail: int
    var open: bool

    function Abs(): Breaker
      reads this
    {
      Breaker(failures, lastFail, open)
    }

    constructor (cfg: Config)
      ensures this.cfg == cfg && Abs() == FRESH && failures == 0 && !open
    {
      this.cfg := cfg;
      failures, lastFail, open := 0, 0, false;
    }

    method State(now: int) returns (r: Status)
      ensures Admits(cfg, Abs(), now) <==> r != OpenStatus
      ensures (r.ClosedStatus? <==> !open) && (r.OpenStatus? <==> open && now <= lastFail + cfg.timeout)
    {
      if open {
        if now - lastFail > cfg.timeout { return HalfOpenStatus; }
        return OpenStatus;
      }
      r := ClosedStatus;
    }

    method Allow(now: int) returns (ok: bool)
      ensures ok <==> Admits(cfg, Abs(), now)
      ensures !ok <==> open && now <= lastFail + cfg.timeout
    {
      if !open { return true; }
      if now - lastFail > cfg.timeout { return true; }
      ok := false;
    }

    method RecordSuccess()
      modifies this
      ensures Abs() == Record(cfg, old(Abs()), Success)
      ensures failures == 0 && !open && lastFail == old(lastFail)
    {
      failures := 0;
      open := false;
    }

    method RecordFailure(now: int)
      modifies this
      ensures Abs() == Record(cfg, old(Abs()), Failure(now))
      ensures failures == old(failures) + 1 && lastFail == now && (open <==> old(open) || failures >= cfg.threshold)
    {
      failures := failures + 1;
      lastFail := now;
      if failures >= cfg.threshold { open := true; }
    }

    /** Head, Put and Delete: an admitted call records its outcome when the backend answers. */
    method Call(start: int, end: int, backendOk: bool) returns (r: CallResult)
      modifies this
      ensures r.Refused? <==> !Admits(cfg, old(Abs()), start)
      ensures r.Refused? ==> Abs() == old(Abs())
      ensures !r.Refused? ==> (r.Answered? <==> backendOk)
      ensures r.Refused? <==> old(open) && start <= old(lastFail) + cfg.timeout
      ensures r.Answered? ==> failures == 0 && !open
      ensures r.Errored? ==>
        failures == old(failures) + 1 && lastFail == end && (open <==> old(open) || failures >= cfg.threshold)
      ensures !r.Refused? ==> Abs() == Record(cfg, old(Abs()), if backendOk then Success else Failure(end))
    {
      var ok := Allow(start);
      if !ok { return Refused; }
      if !backendOk {
        RecordFailure(end);
        return Errored;
      }
      RecordSuccess();
      r := Answered;
    }

    /** Get: only an error is recorded now; a miss is never recorded, a found stream when it is closed. */
    method Get(start: int, end: int, backendOk: bool, exists_: bool) returns (r: GetResult)
      modifies this
      ensures r.GetRefused? <==> !Admits(cfg, old(Abs()), start)
      ensures Abs() == if r.GetErrored? then Record(cfg, old(Abs()), Failure(end)) else old(Abs())
      ensures !r.GetRefused? ==> r == if !backendOk then GetErrored else if exists_ then Streaming else NotFound
      ensures r.GetRefused? <==> old(open) && start <= old(lastFail) + cfg.timeout
      ensures r.GetErrored? ==>
        failures == old(failures) + 1 && lastFail == end && (open <==> old(open) || failures >= cfg.threshold)
    {
      var ok := Allow(start);
      if !ok { return GetRefused; }
      if !backendOk {
        RecordFailure(end);
        return GetErrored;
      }
      r := if exists_ then Streaming else NotFound;
    }

    method CloseStream(now: int, closeOk: bool)
      modifies this
      ensures Abs() == Record(cfg, old(Abs()), if closeOk then Success else Failure(now))
      ensures closeOk ==> failures == 0 && !open
      ensures !closeOk ==>
        failures == old(failures) + 1 && lastFail == now && (open <==> old(open) || failures >= cfg.threshold)
    {
      if closeOk { RecordSuccess(); } else { RecordFailure(now); }
    }
  }

  // ---- the breaker is a function of its history ----

  function After(cfg: Config, h: seq<Outcome>): Breaker {
    if h == [] then FRESH else Record(cfg, After(cfg, h[..|h| - 1]), h[|h| - 1])
  }

  /** The length of the run of failures at the end of a history. */
  function Trailing(h: seq<Outcome>): nat {
    if h == [] || h[|h| - 1].Success? then 0 else 1 + Trailing(h[..|h| - 1])
  }

  /** The last n outcomes exist and are all failures. */
  ghost predicate LastFailed(h: seq<Outcome>, n: int) {
    n <= |h| && forall i :: |h| - n <= i < |h| && 0 <= i ==> h[i].Failure?
  }

  lemma {:induction false} TrailingIsLastFailed(h: seq<Outcome>, n: int)
    ensures Trailing(h) <= |h|
    ensures Trailing(h) >= n <==> LastFailed(h, n)
    decreases |h|
  {
    if h != [] {
      var rest := h[..|h| - 1];
      TrailingIsLastFailed(rest, n - 1);
      if h[|h| - 1].Failure? {
        assert LastFailed(h, n) ==> LastFailed(rest, n - 1);
        if n >= 1 {
          assert LastFailed(rest, n - 1) ==> LastFailed(h, n);
        }
      }
    }
  }

  /**
    Whatever the interleaving that produced the history: the counter is the run of failures at its end,
    the breaker is open exactly when the last `threshold` outcomes exist and all failed, and the cooldown
    runs from the latest failure, so one failed probe re-arms it in full.
   */
  lemma {:induction false} HistoryDetermines(cfg: Config, h: seq<Outcome>)
    requires cfg.threshold >= 1
    ensures After(cfg, h).failures == Trailing(h)
    ensures After(cfg, h).open <==> LastFailed(h, cfg.threshold)
    ensures h != [] && h[|h| - 1].Failure? ==> After(cfg, h).lastFail == h[|h| - 1].at
    ensures forall now ::
      h != [] && h[|h| - 1].Failure? && LastFailed(h, cfg.threshold) ==>
        (Admits(cfg, After(cfg, h), now) <==> now > h[|h| - 1].at + cfg.timeout)
    decreases |h|
  {
    TrailingIsLastFailed(h, cfg.threshold);
    if h != [] {
      HistoryDetermines(cfg, h[..|h| - 1]);
      TrailingIsLastFailed(h[..|h| - 1], cfg.threshold);
    }
  }

  // ---- an outage, one call after another ----

  /** The attempts of a sequential client: each starts no earlier than the one before has ended. */
  datatype Attempt = Attempt(start: int, end: int)

  ghost predicate Sequential(calls: seq<Attempt>) {
    && (forall i :: 0 <= i < |calls| ==> calls[i].start <= calls[i].end)
    && (forall i :: 0 < i < |calls| ==> calls[i - 1].end <= calls[i].start)
  }

  /** The breaker and the attempts it has admitted, when every admitted call fails. */
  function Outage(cfg: Config, calls: seq<Attempt>): (Breaker, seq<Attempt>) {
    if calls == [] then (FRESH, [])
    else
      var (b, admitted) := Outage(cfg, calls[..|calls| - 1]);
      var c := calls[|calls| - 1];
      if Admits(cfg, b, c.start) then (Record(cfg, b, Failure(c.end)), admitted + [c]) else (b, admitted)
  }

  lemma {:induction false} OutageAdmits(cfg: Config, calls: seq<Attempt>)
    requires cfg.threshold >= 1 && Sequential(calls)
    ensures
      var (b, a) := Outage(cfg, calls);
      && |a| <= |calls| && b.failures == |a| && (b.open <==> |a| >= cfg.threshold)
      && (a != [] ==> b.lastFail == a[|a| - 1].end && a[|a| - 1].end <= calls[|calls| - 1].end)
      && (forall i :: 0 <= i < |a| ==> a[i].start <= a[i].end)
      && (forall i :: 0 < i < |a| ==> a[i - 1].end <= a[i].start)
      && (forall i :: cfg.threshold <= i < |a| ==> a[i].start > a[i - 1].end + cfg.timeout)
    decreases |calls|
  {
    if calls != [] {
      OutageAdmits(cfg, calls[..|calls| - 1]);
    }
  }

  /**
    Which call is let through next: any of the first `threshold`, and then one that starts more than the timeout
    after the latest admitted one has failed.
   */
  lemma OutageAdmitsNext(cfg: Config, calls: seq<Attempt>, c: Attempt)
    requires cfg.threshold >= 1 && Sequential(calls + [c])
    ensures
      var a := Outage(cfg, calls).1;
      Outage(cfg, calls + [c]).1 ==
        if |a| < cfg.threshold || c.start > a[|a| - 1].end + cfg.timeout then a + [c] else a
  {
    assert (calls + [c])[..|calls|] == calls;
    forall i | 0 <= i < |calls| ensures calls[i].start <= calls[i].end { assert (calls + [c])[i] == calls[i]; }
    forall i | 0 < i < |calls| ensures calls[i - 1].end <= calls[i].start {
      assert (calls + [c])[i] == calls[i] && (calls + [c])[i - 1] == calls[i - 1];
    }
    OutageAdmits(cfg, calls);
  }

  /** The n-th admitted call (n > threshold) starts more than (n - threshold) timeouts after the opening failure. */
  lemma {:induction false} OutageSpacing(cfg: Config, calls: seq<Attempt>, n: int)
    requires cfg.threshold >= 1 && cfg.timeout >= 0 && Sequential(calls)
    requires cfg.threshold < n <= |Outage(cfg, calls).1|
    ensures Spaced(cfg, Outage(cfg, calls).1, n)
    decreases n
  {
    OutageAdmits(cfg, calls);
    if n > cfg.threshold + 1 {
      OutageSpacing(cfg, calls, n - 1);
      assert (n - cfg.threshold) * cfg.timeout == (n - 1 - cfg.threshold) * cfg.timeout + cfg.timeout;
    }
  }

  /**
    In an outage at most threshold + floor(T / timeout) calls reach S3 in the time from the first one to
    T after the failure that opened the breaker.
   */
  lemma OutageRate(cfg: Config, calls: seq<Attempt>, time: int)
    requires cfg.threshold >= 1 && cfg.timeout >= 1 && time >= 0 && Sequential(calls)
    requires Within(cfg, Outage(cfg, calls).1, time)
    ensures |Outage(cfg, calls).1| <= cfg.threshold + time / cfg.timeout
  {
    if |Outage(cfg, calls).1| > cfg.threshold {
      OutageSpacing(cfg, calls, |Outage(cfg, calls).1|);
      SpacedWithin(cfg, Outage(cfg, calls).1, time);
    } else {
      QuotientAtLeast(time, cfg.timeout, 0);
    }
  }

  /** Every call starts within `time` of the failure that opened the breaker, if one did. */
  ghost predicate Within(cfg: Config, a: seq<Attempt>, time: int)
    requires cfg.threshold >= 1
  {
    |a| >= cfg.threshold ==> forall i :: 0 <= i < |a| ==> a[i].start <= a[cfg.threshold - 1].end + time
  }

  /** The last of the calls starts more than its cooldowns after the failure that opened the breaker. */
  ghost predicate Spaced(cfg: Config, a: seq<Attempt>, n: int)
    requires 1 <= cfg.threshold < n <= |a|
  {
    a[n - 1].start > a[cfg.threshold - 1].end + (n - cfg.threshold) * cfg.timeout
  }

  lemma SpacedWithin(cfg: Config, a: seq<Attempt>, time: int)
    requires 1 <= cfg.threshold < |a| && cfg.timeout >= 1 && Within(cfg, a, time) && Spaced(cfg, a, |a|)
    ensures |a| <= cfg.threshold + time / cfg.timeout
  {
    assert a[|a| - 1].start <= a[cfg.threshold - 1].end + time;
    QuotientAtLeast(time, cfg.timeout, |a| - cfg.threshold);
  }
}
