/**
  What an open breaker lets through: unboundedly many probes at once after the cooldown, and in an outage with
  many clients no more than each client's pace allows.
 */
module BreakerOutage {
  import opened Arithmetic
  import opened Base
  import opened CircuitBreaker
  import opened BreakerCalls

  // ---- a probe is not one call ----

  function Enters(n: nat): seq<Label> {
    if n == 0 then [] else Enters(n - 1) + [Enter(n - 1, HeadOp)]
  }

  function Decides(n: nat): seq<Label> {
    if n == 0 then [] else Decides(n - 1) + [Decide(n - 1)]
  }

  lemma {:induction false} ExecJoin(cfg: Config, s: State, a: seq<Label>, b: seq<Label>)
    requires Exec(cfg, s, a).Some?
    ensures Exec(cfg, s, a + b) == Exec(cfg, Exec(cfg, s, a).value, b)
    decreases |b|
  {
    if b == [] {
      assert a + b == a;
    } else {
      ExecJoin(cfg, s, a, b[..|b| - 1]);
      assert (a + b)[..|a + b| - 1] == a + b[..|b| - 1];
    }
  }

  predicate Idle(s: State) { s.deciding == map[] && s.running == map[] && s.streams == {} }

  /** What a Head entering now reads. */
  function ReadNow(s: State): Reading { Reading(HeadOp, s.breaker, |s.history|) }

  /** Clients 0 to n - 1, each having read v. */
  function AllRead(n: nat, v: Reading): map<nat, Reading> {
    if n == 0 then map[] else AllRead(n - 1, v)[n - 1 := v]
  }

  lemma {:induction false} AllReadAt(n: nat, v: Reading, c: nat)
    ensures c in AllRead(n, v) <==> c < n
    ensures c < n ==> AllRead(n, v)[c] == v
  {
    if n > 0 { AllReadAt(n - 1, v, c); }
  }

  /** Clients 0 to n - 1 enter, all seeing the breaker as it is. */
  lemma {:induction false} AllEnter(cfg: Config, s: State, n: nat)
    requires Idle(s)
    ensures Exec(cfg, s, Enters(n)) == Some(s.(deciding := AllRead(n, ReadNow(s))))
  {
    if n > 0 {
      AllEnter(cfg, s, n - 1);
      AllReadAt(n - 1, ReadNow(s), n - 1);
      EnterNext(cfg, s, s.(deciding := AllRead(n - 1, ReadNow(s))), n - 1);
      assert Enters(n)[..|Enters(n)| - 1] == Enters(n - 1);
    }
  }

  lemma EnterNext(cfg: Config, s: State, mid: State, c: nat)
    requires mid == s.(deciding := mid.deciding) && !mid.Busy(c)
    ensures Next(cfg, mid, Enter(c, HeadOp)) == Some(s.(deciding := mid.deciding[c := ReadNow(s)]))
  {
  }

  /** The first k of n clients that have entered are let through. */
  lemma {:induction false} AllDecide(cfg: Config, s: State, n: nat, k: nat)
    requires k <= n && Admits(cfg, s.breaker, s.now)
    requires s.deciding == AllRead(n, ReadNow(s))
    ensures
      var r := Exec(cfg, s, Decides(k));
      && r.Some? && r.value.breaker == s.breaker && r.value.history == s.history && r.value.now == s.now
      && (forall c: nat :: c < k ==> c in r.value.running)
      && (forall c: nat :: k <= c < n ==> c in r.value.deciding && r.value.deciding[c] == ReadNow(s))
    decreases k
  {
    if k == 0 {
      forall c: nat | c < n ensures c in s.deciding && s.deciding[c] == ReadNow(s) {
        AllReadAt(n, ReadNow(s), c);
      }
    } else {
      AllDecide(cfg, s, n, k - 1);
      assert Decides(k)[..|Decides(k)| - 1] == Decides(k - 1);
    }
  }

  /** `threshold` calls by client 0, one after another, all failing at time 0. */
  function Failing(n: nat): seq<Label> {
    if n == 0 then [] else Failing(n - 1) + [Enter(0, HeadOp), Decide(0), Return(0, Failed)]
  }

  lemma OneFailing(cfg: Config, s: State)
    requires Idle(s) && Admits(cfg, s.breaker, s.now)
    ensures Exec(cfg, s, [Enter(0, HeadOp), Decide(0), Return(0, Failed)]) ==
      Some(s.(breaker := Record(cfg, s.breaker, Failure(s.now)), history := s.history + [Failure(s.now)],
              admitted := s.admitted + multiset{0}))
  {
    var l0, l1, l2 := Enter(0, HeadOp), Decide(0), Return(0, Failed);
    var s1 := s.(deciding := map[0 := Reading(HeadOp, s.breaker, |s.history|)]);
    var s2 := s.(running := map[0 := HeadOp], admitted := s.admitted + multiset{0});
    assert s1.deciding - {0} == map[] && s2.running - {0} == map[];
    assert Next(cfg, s, l0) == Some(s1) && Next(cfg, s1, l1) == Some(s2);
    assert [l0][..0] == [] && [l0, l1][..1] == [l0] && [l0, l1, l2][..2] == [l0, l1];
    assert Exec(cfg, s, [l0]) == Some(s1);
    assert Exec(cfg, s, [l0, l1]) == Some(s2);
  }

  lemma {:induction false} FailingOpens(cfg: Config, n: nat)
    requires n <= cfg.threshold
    ensures
      var r := Exec(cfg, START, Failing(n));
      && r.Some? && Idle(r.value) && r.value.now == 0 && |r.value.history| == n
      && (forall i :: 0 <= i < n ==> r.value.history[i] == Failure(0))
      && r.value.breaker == Breaker(n, 0, n >= cfg.threshold && n > 0)
  {
    if n > 0 {
      FailingOpens(cfg, n - 1);
      OneFailing(cfg, Exec(cfg, START, Failing(n - 1)).value);
      ExecJoin(cfg, START, Failing(n - 1), [Enter(0, HeadOp), Decide(0), Return(0, Failed)]);
    }
  }

  /**
    After the cooldown the breaker does not let one probe through but every call that comes before the first
    probe has answered: for any n there is a run in which n calls reach S3 together while the breaker is open.
   */
  lemma ProbesAreUnbounded(cfg: Config, n: nat) returns (run: seq<Label>, s: State)
    requires cfg.threshold >= 1 && cfg.timeout >= 0
    ensures Reached(cfg, run, s)
    ensures s.breaker.open && LastFailed(s.history, cfg.threshold)
    ensures forall c: nat :: c < n ==> c in s.running
  {
    FailingOpens(cfg, cfg.threshold);
    var atOpening := Exec(cfg, START, Failing(cfg.threshold)).value;
    var cooled := atOpening.(now := cfg.timeout + 1);
    var wait := [Tick(cfg.timeout + 1)];
    ExecJoin(cfg, START, Failing(cfg.threshold), wait);
    assert wait[..0] == [] && Exec(cfg, atOpening, wait) == Some(cooled);
    run := Failing(cfg.threshold) + wait;
    AllEnter(cfg, cooled, n);
    var waiting := Exec(cfg, cooled, Enters(n)).value;
    ExecJoin(cfg, START, run, Enters(n));
    run := run + Enters(n);
    AllDecide(cfg, waiting, n, n);
    ExecJoin(cfg, START, run, Decides(n));
    run := run + Decides(n);
    s := Exec(cfg, waiting, Decides(n)).value;
  }

  /** A step that records no outcome: any but an error, a success, or the close of a stream. */
  predicate Unrecorded(l: Label) { !l.Close? && (l.Return? ==> l.answer.Missing? || l.answer.Found?) }

  /** S3 answering Gets, without an error, never closes an open breaker: only what is recorded does. */
  lemma {:induction false} MissesNeverClose(cfg: Config, s: State, run: seq<Label>)
    requires Exec(cfg, s, run).Some? && forall i :: 0 <= i < |run| ==> Unrecorded(run[i])
    ensures Exec(cfg, s, run).value.breaker == s.breaker && Exec(cfg, s, run).value.history == s.history
    decreases |run|
  {
    if run != [] { MissesNeverClose(cfg, s, run[..|run| - 1]); }
  }

  // ---- an outage with many clients ----

  ghost predicate OnlyFailures(s0: State, s: State) {
    && |s0.history| <= |s.history| && s0.misses == s.misses
    && forall i :: |s0.history| <= i < |s.history| ==> s.history[i].Failure?
  }

  /** Calls of client c let through since s0. */
  function Through(s0: State, s: State, c: nat): int { s.admitted[c] as int - s0.admitted[c] as int }

  /** Earliest moment at which client c can be where it is after k calls let through since s0. */
  ghost predicate Paced(cfg: Config, s0: State, s: State, c: nat) {
    && s.breaker.open && s0.breaker.lastFail <= s.breaker.lastFail <= s.now && s0.now <= s.now
    && Through(s0, s, c) >= 0
    && (Through(s0, s, c) >= 1 ==>
          var due := s0.now + (Through(s0, s, c) - 1) * cfg.timeout;
          && due <= s.now
          && (!s.Busy(c) ==> due <= s.breaker.lastFail)
          && (c in s.deciding ==>
                s.deciding[c].seen.open && due <= s.deciding[c].seen.lastFail <= s.breaker.lastFail))
  }

  lemma PacedStep(cfg: Config, s0: State, s: State, l: Label, c: nat)
    requires cfg.timeout >= 0 && Paced(cfg, s0, s, c) && OnlyFailures(s0, s)
    requires Next(cfg, s, l).Some? && OnlyFailures(s0, Next(cfg, s, l).value)
    ensures Paced(cfg, s0, Next(cfg, s, l).value, c)
  {
    var s' := Next(cfg, s, l).value;
    var k := Through(s0, s, c);
    if l.Decide? && l.c == c {
      if k >= 1 && Through(s0, s', c) == k + 1 {
        assert s0.now + k * cfg.timeout == s0.now + (k - 1) * cfg.timeout + cfg.timeout;
      }
    } else if l.Close? || (l.Return? && (l.answer.Done? || l.answer.Failed?)) {
      assert s'.history[|s.history|].Failure?;
    }
  }

  lemma OnlyFailuresBefore(cfg: Config, s0: State, s: State, l: Label)
    requires |s0.history| <= |s.history| && s0.misses <= s.misses
    requires Next(cfg, s, l).Some? && OnlyFailures(s0, Next(cfg, s, l).value)
    ensures OnlyFailures(s0, s)
  {
    var s' := Next(cfg, s, l).value;
    assert |s.history| <= |s'.history| && s'.history[..|s.history|] == s.history;
  }

  lemma {:induction false} HistoryGrows(cfg: Config, s0: State, run: seq<Label>)
    requires Exec(cfg, s0, run).Some?
    ensures |s0.history| <= |Exec(cfg, s0, run).value.history| && s0.misses <= Exec(cfg, s0, run).value.misses
    decreases |run|
  {
    if run != [] { HistoryGrows(cfg, s0, run[..|run| - 1]); }
  }

  lemma {:induction false} PacedRun(cfg: Config, s0: State, run: seq<Label>, c: nat)
    requires cfg.timeout >= 0 && s0.breaker.open && s0.breaker.lastFail <= s0.now
    requires Exec(cfg, s0, run).Some? && OnlyFailures(s0, Exec(cfg, s0, run).value)
    ensures Paced(cfg, s0, Exec(cfg, s0, run).value, c)
    decreases |run|
  {
    if run != [] {
      var before := run[..|run| - 1];
      var mid := Exec(cfg, s0, before).value;
      HistoryGrows(cfg, s0, before);
      OnlyFailuresBefore(cfg, s0, mid, run[|run| - 1]);
      PacedRun(cfg, s0, before, c);
      PacedStep(cfg, s0, mid, run[|run| - 1], c);
    }
  }

  /** The calls of one client that a cooldown lets through in a time t. */
  function PerClient(cfg: Config, t: nat): nat
    requires cfg.timeout >= 1
  {
    1 + t / cfg.timeout
  }

  /** Per client: while S3 fails every call let through, at most one of its calls a cooldown, plus one. */
  lemma ClientRate(cfg: Config, before: seq<Label>, s0: State, run: seq<Label>, s: State, c: nat)
    requires cfg.threshold >= 1 && cfg.timeout >= 1
    requires Reached(cfg, before, s0) && s0.breaker.open && Exec(cfg, s0, run) == Some(s) && OnlyFailures(s0, s)
    ensures s.now >= s0.now
    ensures Through(s0, s, c) <= PerClient(cfg, s.now - s0.now)
  {
    RunKeeps(cfg, START, before);
    PacedRun(cfg, s0, run, c);
    if Through(s0, s, c) >= 1 {
      QuotientAtLeast(s.now - s0.now, cfg.timeout, Through(s0, s, c) - 1);
    }
  }

  lemma {:induction false} Spread(m: multiset<nat>, clients: set<nat>, most: nat)
    requires forall c :: c in m ==> c in clients && m[c] <= most
    ensures |m| <= |clients| * most
    decreases |clients|
  {
    if clients == {} {
      assert m == multiset{};
    } else {
      var c :| c in clients;
      var others := m[c := 0];
      Spread(others, clients - {c}, most);
      assert |m| == |others| + m[c] by { assert m == others[c := m[c]]; }
      assert |clients| * most == |clients - {c}| * most + most by {
        assert |clients| == |clients - {c}| + 1;
      }
    }
  }

  /**
    In an outage with several clients, in any interleaving: once the breaker is open, and while every call let
    through fails, in a time T at most |clients| * (1 + floor(T / timeout)) calls are let through.
   */
  lemma OutageRateManyClients(
      cfg: Config, before: seq<Label>, s0: State, run: seq<Label>, s: State, clients: set<nat>)
    requires cfg.threshold >= 1 && cfg.timeout >= 1
    requires Reached(cfg, before, s0) && s0.breaker.open && Exec(cfg, s0, run) == Some(s) && OnlyFailures(s0, s)
    requires forall c :: c in s.admitted ==> c in clients
    ensures s.now >= s0.now
    ensures |s.admitted| - |s0.admitted| <= |clients| * PerClient(cfg, s.now - s0.now)
  {
    ClientRate(cfg, before, s0, run, s, 0);
    var most := PerClient(cfg, s.now - s0.now);
    forall c ensures Through(s0, s, c) <= most {
      ClientRate(cfg, before, s0, run, s, c);
    }
    SpreadSince(s0, s, clients, most);
  }

  lemma SpreadSince(s0: State, s: State, clients: set<nat>, most: nat)
    requires forall c :: c in s.admitted ==> c in clients
    requires forall c: nat :: Through(s0, s, c) <= most
    ensures |s.admitted| - |s0.admitted| <= |clients| * most
  {
    var since := s.admitted - s0.admitted;
    forall c | c in since ensures c in clients && since[c] <= most {
      assert Through(s0, s, c) <= most;
    }
    Spread(since, clients, most);
    assert |s.admitted| - |s0.admitted| <= |since|;
  }
}
