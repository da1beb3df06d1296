/**
  Many calls through one breaker at once. A call first reads the breaker, then compares clocks, then runs
  against S3, and only when the answer comes (or, for a found Get, when Hybrid closes the stream) is its
  outcome recorded. Every one of these moments can interleave with those of other calls. A client, named
  by a number, has at most one call under way.
 */
module BreakerCalls {
  import opened Base
  import opened CircuitBreaker

  datatype Op = HeadOp | GetOp | PutOp | DeleteOp

  /** What a call saw when it entered; `upTo` says how much of the history had been recorded by then. */
  datatype Reading = Reading(op: Op, seen: Breaker, upTo: nat)

  datatype Answer = Failed | Done | Missing | Found

  /** The clients whose call has read the breaker, runs against S3, or holds an open stream. */
  datatype State = State(
    breaker: Breaker, now: nat, history: seq<Outcome>,
    deciding: map<nat, Reading>, running: map<nat, Op>, streams: set<nat>,
    admitted: multiset<nat>, misses: nat)
  {
    predicate Busy(c: nat) { c in deciding || c in running || c in streams }
  }

  const START := State(FRESH, 0, [], map[], map[], {}, multiset{}, 0)

  datatype Label =
    | Enter(c: nat, op: Op)
    | Decide(c: nat)
    | Return(c: nat, answer: Answer)
    | Close(c: nat, ok: bool)
    | Tick(passed: nat)

  /** The outcome of a call is recorded. */
  function Settle(cfg: Config, s: State, ok: bool): State {
    var o := if ok then Success else Failure(s.now);
    s.(breaker := Record(cfg, s.breaker, o), history := s.history + [o])
  }

  /** What the backend can answer to which operation: only a Get finds or misses. */
  predicate Fits(op: Op, answer: Answer) {
    answer.Failed? || (if op.GetOp? then answer.Found? || answer.Missing? else answer.Done?)
  }

  function Next(cfg: Config, s: State, l: Label): Option<State> {
    match l
    case Enter(c, op) =>
      if s.Busy(c) then None
      else Some(s.(deciding := s.deciding[c := Reading(op, s.breaker, |s.history|)]))
    case Decide(c) =>
      if c !in s.deciding then None
      else
        var s' := s.(deciding := s.deciding - {c});
        if !Admits(cfg, s.deciding[c].seen, s.now) then Some(s')
        else Some(s'.(running := s.running[c := s.deciding[c].op], admitted := s.admitted + multiset{c}))
    case Return(c, answer) =>
      if c !in s.running || !Fits(s.running[c], answer) then None
      else
        var s' := s.(running := s.running - {c});
        if answer.Found? then Some(s'.(streams := s.streams + {c}))
        else if answer.Missing? then Some(s'.(misses := s.misses + 1))
        else Some(Settle(cfg, s', answer.Done?))
    case Close(c, ok) =>
      if c !in s.streams then None else Some(Settle(cfg, s.(streams := s.streams - {c}), ok))
    case Tick(d) => Some(s.(now := s.now + d))
  }

  function Exec(cfg: Config, s: State, run: seq<Label>): Option<State>
    decreases |run|
  {
    if run == [] then Some(s)
    else
      var mid := Exec(cfg, s, run[..|run| - 1]);
      if mid.None? then None else Next(cfg, mid.value, run[|run| - 1])
  }

  // ---- what every reachable state keeps ----

  function Successes(h: seq<Outcome>): nat {
    if h == [] then 0 else Successes(h[..|h| - 1]) + (if h[|h| - 1].Success? then 1 else 0)
  }

  function Failures(h: seq<Outcome>): nat {
    if h == [] then 0 else Failures(h[..|h| - 1]) + (if h[|h| - 1].Failure? then 1 else 0)
  }

  ghost predicate Readings(cfg: Config, s: State) {
    forall c :: c in s.deciding ==>
      s.deciding[c].upTo <= |s.history| && s.deciding[c].seen == After(cfg, s.history[..s.deciding[c].upTo])
  }

  /** A client is in one place at most. */
  ghost predicate OnePlace(s: State) {
    forall c ::
      && (c in s.deciding ==> c !in s.running && c !in s.streams)
      && (c in s.running ==> c !in s.streams)
  }

  ghost predicate Balanced(s: State) {
    |s.admitted| == Successes(s.history) + Failures(s.history) + s.misses + |s.running.Keys| + |s.streams|
  }

  ghost predicate Inv(cfg: Config, s: State) {
    && s.breaker == After(cfg, s.history)
    && s.breaker.lastFail <= s.now
    && Readings(cfg, s)
  }

  /** Readings are of a prefix of the history, so outcomes recorded later leave them alone. */
  lemma SettleKeeps(cfg: Config, s: State, ok: bool)
    requires Inv(cfg, s)
    ensures Inv(cfg, Settle(cfg, s, ok))
  {
    var h := Settle(cfg, s, ok).history;
    assert h[..|s.history|] == s.history;
    forall c | c in s.deciding ensures h[..s.deciding[c].upTo] == s.history[..s.deciding[c].upTo] {
    }
  }

  lemma StepKeeps(cfg: Config, s: State, l: Label)
    requires Inv(cfg, s) && Next(cfg, s, l).Some?
    ensures Inv(cfg, Next(cfg, s, l).value)
  {
    match l
    case Enter(c, op) => assert s.history[..|s.history|] == s.history;
    case Return(c, answer) =>
      if answer.Done? || answer.Failed? { SettleKeeps(cfg, s.(running := s.running - {c}), answer.Done?); }
    case Close(c, ok) => SettleKeeps(cfg, s.(streams := s.streams - {c}), ok);
    case _ =>
  }

  lemma SettleCounts(cfg: Config, s: State, ok: bool)
    ensures
      var h := Settle(cfg, s, ok).history;
      Successes(h) + Failures(h) == Successes(s.history) + Failures(s.history) + 1
  {
    assert Settle(cfg, s, ok).history[..|s.history|] == s.history;
  }

  lemma StepPlaces(cfg: Config, s: State, l: Label)
    requires OnePlace(s) && Next(cfg, s, l).Some?
    ensures OnePlace(Next(cfg, s, l).value)
  {
  }

  lemma StepBalances(cfg: Config, s: State, l: Label)
    requires Balanced(s) && OnePlace(s) && Next(cfg, s, l).Some?
    ensures Balanced(Next(cfg, s, l).value)
  {
    match l
    case Return(c, answer) => ReturnBalances(cfg, s, c, answer);
    case Close(c, ok) => SettleCounts(cfg, s.(streams := s.streams - {c}), ok);
    case Decide(c) => DecideBalances(cfg, s, c);
    case _ =>
  }

  lemma DecideBalances(cfg: Config, s: State, c: nat)
    requires Balanced(s) && OnePlace(s) && c in s.deciding
    ensures Balanced(Next(cfg, s, Decide(c)).value)
  {
    var op := s.deciding[c].op;
    assert s.running[c := op].Keys == s.running.Keys + {c} && |s.admitted + multiset{c}| == |s.admitted| + 1;
  }

  lemma ReturnBalances(cfg: Config, s: State, c: nat, answer: Answer)
    requires Balanced(s) && OnePlace(s) && Next(cfg, s, Return(c, answer)).Some?
    ensures Balanced(Next(cfg, s, Return(c, answer)).value)
  {
    assert (s.running - {c}).Keys == s.running.Keys - {c};
    SettleCounts(cfg, s.(running := s.running - {c}), answer.Done?);
  }

  lemma {:induction false} RunKeeps(cfg: Config, s: State, run: seq<Label>)
    requires Inv(cfg, s) && Exec(cfg, s, run).Some?
    ensures Inv(cfg, Exec(cfg, s, run).value)
    decreases |run|
  {
    if run != [] {
      RunKeeps(cfg, s, run[..|run| - 1]);
      StepKeeps(cfg, Exec(cfg, s, run[..|run| - 1]).value, run[|run| - 1]);
    }
  }

  lemma {:induction false} RunBalances(cfg: Config, s: State, run: seq<Label>)
    requires Balanced(s) && OnePlace(s) && Exec(cfg, s, run).Some?
    ensures Balanced(Exec(cfg, s, run).value) && OnePlace(Exec(cfg, s, run).value)
    decreases |run|
  {
    if run != [] {
      var mid := Exec(cfg, s, run[..|run| - 1]).value;
      RunBalances(cfg, s, run[..|run| - 1]);
      StepPlaces(cfg, mid, run[|run| - 1]);
      StepBalances(cfg, mid, run[|run| - 1]);
    }
  }

  /** The state a run of the whole system reaches. */
  ghost predicate Reached(cfg: Config, run: seq<Label>, s: State) { Exec(cfg, START, run) == Some(s) }

  // ---- what is recorded ----

  function Elapsed(run: seq<Label>): nat
    decreases |run|
  {
    if run == [] then 0
    else Elapsed(run[..|run| - 1]) + (if run[|run| - 1].Tick? then run[|run| - 1].passed else 0)
  }

  /**
    The outcome that a step makes: a success of each Head, Put or Delete that is answered and of each stream closed
    without error; a failure, at that moment, of each error and of each stream closed with one; and none of a Get
    that finds or misses.
   */
  function OutcomeOf(l: Label, now: nat): seq<Outcome> {
    match l
    case Return(_, Done) => [Success]
    case Return(_, Failed) => [Failure(now)]
    case Close(_, true) => [Success]
    case Close(_, false) => [Failure(now)]
    case _ => []
  }

  /** The outcomes of a run's steps, in their order. */
  function Outcomes(run: seq<Label>): seq<Outcome>
    decreases |run|
  {
    if run == [] then []
    else Outcomes(run[..|run| - 1]) + OutcomeOf(run[|run| - 1], Elapsed(run[..|run| - 1]))
  }

  lemma StepRecords(cfg: Config, s: State, l: Label, s': State)
    requires Next(cfg, s, l) == Some(s')
    ensures s'.history == s.history + OutcomeOf(l, s.now)
    ensures s'.now == s.now + (if l.Tick? then l.passed else 0)
  {
  }

  /** In every run the history is what the answers and closes have been, at the times of their moments. */
  lemma {:induction false} RecordedExactly(cfg: Config, run: seq<Label>, s: State)
    requires Reached(cfg, run, s)
    ensures s.history == Outcomes(run) && s.now == Elapsed(run)
    decreases |run|
  {
    if run != [] {
      var mid := Exec(cfg, START, run[..|run| - 1]).value;
      RecordedExactly(cfg, run[..|run| - 1], mid);
      StepRecords(cfg, mid, run[|run| - 1], s);
    }
  }

  // ---- calls that run alone ----

  lemma ExecOn(cfg: Config, s: State, run: seq<Label>, mid: State, l: Label, s': State)
    requires Exec(cfg, s, run) == Some(mid) && Next(cfg, mid, l) == Some(s')
    ensures Exec(cfg, s, run + [l]) == Some(s')
  {
    assert (run + [l])[..|run|] == run;
  }

  /** The call is refused, leaving no trace, exactly when the breaker is open and cooling down; else it runs. */
  lemma EntersAlone(cfg: Config, s: State, c: nat, op: Op)
    requires !s.Busy(c)
    ensures
      Exec(cfg, s, [Enter(c, op), Decide(c)]) == Some(
        if s.breaker.open && s.now <= s.breaker.lastFail + cfg.timeout then s
        else s.(running := s.running[c := op], admitted := s.admitted + multiset{c}))
  {
    var entered := s.(deciding := s.deciding[c := Reading(op, s.breaker, |s.history|)]);
    assert [Enter(c, op)][..0] == [] && [] + [Enter(c, op)] == [Enter(c, op)];
    assert entered.deciding - {c} == s.deciding;
    ExecOn(cfg, s, [], s, Enter(c, op), entered);
    ExecOn(cfg, s, [Enter(c, op)], entered, Decide(c), Next(cfg, entered, Decide(c)).value);
    assert [Enter(c, op)] + [Decide(c)] == [Enter(c, op), Decide(c)];
  }

  /** What an answer after time d leaves of a call that was let through. */
  function Ends(cfg: Config, s: State, c: nat, d: nat, answer: Answer): State {
    var b, now := s.breaker, s.now + d;
    var s' := s.(now := now, admitted := s.admitted + multiset{c});
    match answer
    case Done => s'.(breaker := Breaker(0, b.lastFail, false), history := s.history + [Success])
    case Failed =>
      s'.(breaker := Breaker(b.failures + 1, now, b.open || b.failures + 1 >= cfg.threshold),
          history := s.history + [Failure(now)])
    case Missing => s'.(misses := s.misses + 1)
    case Found => s'.(streams := s.streams + {c})
  }

  /** A call that runs alone is let through and answered as the breaker's methods say. */
  lemma CallIsWhole(cfg: Config, s: State, c: nat, op: Op, d: nat, answer: Answer)
    requires !s.Busy(c) && !(s.breaker.open && s.now <= s.breaker.lastFail + cfg.timeout)
    requires answer.Failed? || (op.GetOp? && (answer.Found? || answer.Missing?)) || (!op.GetOp? && answer.Done?)
    ensures Exec(cfg, s, [Enter(c, op), Decide(c), Tick(d), Return(c, answer)]) == Some(Ends(cfg, s, c, d, answer))
  {
    var runs := s.(running := s.running[c := op], admitted := s.admitted + multiset{c});
    var later := runs.(now := s.now + d);
    EntersAlone(cfg, s, c, op);
    ExecOn(cfg, s, [Enter(c, op), Decide(c)], runs, Tick(d), later);
    assert later.running - {c} == s.running;
    ExecOn(cfg, s, [Enter(c, op), Decide(c)] + [Tick(d)], later, Return(c, answer), Ends(cfg, s, c, d, answer));
    assert [Enter(c, op), Decide(c)] + [Tick(d)] + [Return(c, answer)]
        == [Enter(c, op), Decide(c), Tick(d), Return(c, answer)];
  }

  /**
    In every interleaving the breaker is a function of the recorded history alone: open exactly when the
    last `threshold` outcomes exist and all failed.
   */
  lemma OpenExactlyInEveryInterleaving(cfg: Config, run: seq<Label>, s: State)
    requires cfg.threshold >= 1 && Reached(cfg, run, s)
    ensures s.breaker.failures == Trailing(s.history)
    ensures s.breaker.open <==> LastFailed(s.history, cfg.threshold)
  {
    RunKeeps(cfg, START, run);
    HistoryDetermines(cfg, s.history);
  }

  /** Nothing is lost or counted twice, with any number of late completions and open streams. */
  lemma AdmittedBalance(cfg: Config, run: seq<Label>, s: State)
    requires Reached(cfg, run, s)
    ensures
      |s.admitted| == Successes(s.history) + Failures(s.history) + s.misses + |s.running.Keys| + |s.streams|
  {
    RunBalances(cfg, START, run);
  }

  /**
    The decision is made on the breaker as it was when the call entered: it is let through exactly when the
    last `threshold` outcomes of that moment had not all failed, or the latest of them is by now more than a
    cooldown ago. What was recorded since has no say.
   */
  lemma DecidedOnTheStateRead(cfg: Config, run: seq<Label>, s: State, c: nat)
    requires cfg.threshold >= 1 && Reached(cfg, run, s) && c in s.deciding
    ensures s.deciding[c].upTo <= |s.history|
    ensures
      var asRead := s.history[..s.deciding[c].upTo];
      var s' := Next(cfg, s, Decide(c)).value;
      c in s'.running <==>
        !LastFailed(asRead, cfg.threshold)
            || (asRead[|asRead| - 1].Failure? && s.now > asRead[|asRead| - 1].at + cfg.timeout)
  {
    RunKeeps(cfg, START, run);
    RunBalances(cfg, START, run);
    HistoryDetermines(cfg, s.history[..s.deciding[c].upTo]);
  }
}
