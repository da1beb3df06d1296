/** What the callers that join a flight are promised, exactly. */
module SingleFlightFollowers {
  import opened Base
  import opened FileSystem
  import opened History
  import opened SingleFlightLocal
  import opened SingleFlightLocalProofs
  import opened SingleFlightLocalTheorems
  import opened SingleFlightLocalWitnesses

  // ---- the shared outcome ----

  /** `later` occurs in the log with `earlier` somewhere before it. */
  predicate Follows(log: Log, later: Event, earlier: Event) {
    match log
    case Empty => false
    case Then(before, e) => Follows(before, later, earlier) || (e == later && Occurs(before, earlier))
  }

  /** A follower's flight is settled after the follower joined it. */
  lemma {:induction false} SettledAfterJoined(log: Log, t: nat, f: nat, call: Call, r: Outcome) returns (u: nat)
    requires Legal(log) && Last(log, t) == Some(Joined(t, f, call)) && SettledAs(log, f) == Some((call.key, r))
    ensures Follows(log, Settled(u, f, call.key, r), Joined(t, f, call))
  {
    match log
    case Then(before, e) =>
      if e.Settled? && e.flight == f {
        u := e.t;
        LastOccurs(before, t);
      } else {
        u := SettledAfterJoined(before, t, f, call, r);
      }
  }

  lemma {:induction false} SettledIsRecorded(log: Log, e: Event)
    requires Legal(log) && Occurs(log, e) && e.Settled?
    ensures SettledAs(log, e.flight) == Some((e.key, e.outcome))
  {
    match log
    case Then(before, last) =>
      if last != e { SettledIsRecorded(before, e); }
  }

  /** A flight is settled once. */
  lemma {:induction false} SettledOnce(log: Log, a: Event, b: Event)
    requires Legal(log) && Occurs(log, a) && Occurs(log, b) && a.Settled? && b.Settled? && a.flight == b.flight
    ensures a == b
  {
    match log
    case Then(before, last) =>
      if last == a && last != b { SettledIsRecorded(before, b); }
      else if last == b && last != a { SettledIsRecorded(before, a); }
      else if last != a { SettledOnce(before, a, b); }
  }

  lemma {:induction false} FollowsOccurs(log: Log, later: Event, earlier: Event)
    requires Follows(log, later, earlier)
    ensures Occurs(log, later) && Occurs(log, earlier)
  {
    match log
    case Then(before, _) => if Follows(before, later, earlier) { FollowsOccurs(before, later, earlier); }
  }

  /**
    A follower's result is that of exactly one backend call of its key and kind, which returned after the
    follower had joined: no other call settles its flight.
   */
  lemma SharedIsOneBackendCall(log: Log, t: nat, f: nat, r: Outcome) returns (u: nat, call: Call)
    requires Legal(Then(log, Shared(t, f, r)))
    ensures Follows(log, Settled(u, f, call.key, r), Joined(t, f, call))
    ensures call.PutCall? <==> r.PutResult?
    ensures forall e :: Occurs(log, e) && e.Settled? && e.flight == f ==> e == Settled(u, f, call.key, r)
  {
    LastOccurs(log, t);
    call := Last(log, t).value.call;
    u := SettledAfterJoined(log, t, f, call, r);
    FollowsOccurs(log, Settled(u, f, call.key, r), Joined(t, f, call));
    forall e | Occurs(log, e) && e.Settled? && e.flight == f ensures e == Settled(u, f, call.key, r) {
      SettledOnce(log, e, Settled(u, f, call.key, r));
    }
  }

  // ---- parts of a log ----

  predicate Extends(log: Log, base: Log) { log == base || (log.Then? && Extends(log.before, base)) }

  /** The event e occurs in the log after its beginning `base`. */
  predicate Since(log: Log, base: Log, e: Event) {
    log != base && log.Then? && (log.event == e || Since(log.before, base, e))
  }

  /** Thread u has logged nothing after `base`. */
  predicate SilentSince(log: Log, base: Log, u: nat) {
    log == base || (log.Then? && (log.event.Evicted? || log.event.t != u) && SilentSince(log.before, base, u))
  }

  lemma {:induction false} SilentMeansNone(log: Log, base: Log, u: nat, e: Event)
    requires SilentSince(log, base, u) && !e.Evicted? && e.t == u
    ensures !Since(log, base, e)
  {
    if log != base { SilentMeansNone(log.before, base, u, e); }
  }

  function Length(log: Log): nat { if log.Empty? then 0 else 1 + Length(log.before) }

  lemma {:induction false} ExtendsLength(log: Log, base: Log)
    requires Extends(log, base)
    ensures Length(log) >= Length(base) && (Length(log) == Length(base) ==> log == base)
  {
    if log != base { ExtendsLength(log.before, base); }
  }

  lemma {:induction false} ExtendsOn(log: Log, mid: Log, base: Log)
    requires Extends(log, mid) && Extends(mid, base)
    ensures Extends(log, base)
  {
    if log != mid { ExtendsOn(log.before, mid, base); }
  }

  lemma {:induction false} SinceOn(log: Log, mid: Log, base: Log, e: Event)
    requires Extends(log, mid) && Extends(mid, base)
    ensures Since(mid, base, e) || Since(log, mid, e) ==> Since(log, base, e)
  {
    ExtendsOn(log, mid, base);
    ExtendsLength(log, mid);
    ExtendsLength(mid, base);
    if log != mid { SinceOn(log.before, mid, base, e); }
  }

  lemma {:induction false} SilentOn(log: Log, mid: Log, base: Log, u: nat)
    requires SilentSince(log, mid, u) && SilentSince(mid, base, u)
    ensures SilentSince(log, base, u)
  {
    if log != mid && log != base { SilentOn(log.before, mid, base, u); }
  }

  // ---- one leader from a follower's join to the settlement ----

  /** A leader whose backend call has succeeded. */
  predicate Succeeded(th: Thread) {
    || (th.Put? && th.put == PutDone(true))
    || (th.Head? && th.head.HeadDone? && th.head.outcome.HeadResult?)
  }

  /** The act by which it did. */
  function ActOf(u: nat, th: Thread): Event
    requires Succeeded(th)
  {
    if th.Put? then Stored(u, th.key, th.body) else Statted(u, th.key, th.head.outcome.found)
  }

  predicate Leads(s: State, u: nat, f: nat) { LeaderFlight(s.At(u)) == Some(f) }

  /** A leader's own file act: none once it has an outcome, and the act itself when it gets a successful one. */
  lemma ActInFlight(path: Key -> Path, fs: Fs, u: nat, th: Thread, act: Act, m: Move)
    requires LeaderFlight(th).Some? && FileStep(path, fs, u, th, act) == Some(m)
    ensures LeaderOutcome(th).None? && LeaderFlight(m.th) == LeaderFlight(th) && LeaderCall(m.th) == LeaderCall(th)
    ensures Succeeded(m.th) ==> m.event == Some(ActOf(u, m.th))
  {
  }

  /** Nobody else's step touches a leader, and no step starts a flight with an old number. */
  lemma StepInFlight(cfg: Config, s: State, l: Label, s': State, u: nat, f: nat)
    requires Next(cfg, s, l) == Some(s') && Leads(s', u, f) && f < s.table.next
    ensures Leads(s, u, f) && s.table.next <= s'.table.next
    ensures Extends(s'.log, s.log)
    ensures LeaderOutcome(s.At(u)).Some? ==> s'.At(u) == s.At(u) && SilentSince(s'.log, s.log, u)
    ensures LeaderOutcome(s.At(u)).None? && Succeeded(s'.At(u)) ==> s'.log == Then(s.log, ActOf(u, s'.At(u)))
    ensures LeaderCall(s'.At(u)) == LeaderCall(s.At(u))
  {
    if l.Do? && l.t == u {
      var m := FileStep(cfg.path, s.fs, u, s.At(u), l.act).value;
      if LeaderFlight(s.At(u)).Some? { ActInFlight(cfg.path, s.fs, u, s.At(u), l.act, m); }
    }
  }

  lemma {:induction false} NextGrows(cfg: Config, s: State, run: seq<Label>, s': State)
    requires Exec(cfg, s, run) == Some(s')
    ensures s.table.next <= s'.table.next && Extends(s'.log, s.log)
    decreases |run|
  {
    if run != [] {
      var mid := Exec(cfg, s, run[..|run| - 1]).value;
      NextGrows(cfg, s, run[..|run| - 1], mid);
      LogGrows(cfg, mid, run[|run| - 1], s');
      ExtendsOn(s'.log, mid.log, s.log);
    }
  }

  lemma LogGrows(cfg: Config, s: State, l: Label, s': State)
    requires Next(cfg, s, l) == Some(s')
    ensures s.table.next <= s'.table.next && Extends(s'.log, s.log)
  {
  }

  /** Over any stretch of a leader's flight: silence after its outcome, its act after none. */
  lemma {:induction false} FlightSpan(cfg: Config, s: State, run: seq<Label>, s': State, u: nat, f: nat)
    requires Exec(cfg, s, run) == Some(s') && Leads(s', u, f) && f < s.table.next
    ensures Leads(s, u, f) && LeaderCall(s'.At(u)) == LeaderCall(s.At(u))
    ensures LeaderOutcome(s.At(u)).Some? ==> s'.At(u) == s.At(u) && SilentSince(s'.log, s.log, u)
    ensures LeaderOutcome(s.At(u)).None? && Succeeded(s'.At(u)) ==> Since(s'.log, s.log, ActOf(u, s'.At(u)))
    decreases |run|
  {
    if run != [] {
      var mid := Exec(cfg, s, run[..|run| - 1]).value;
      NextGrows(cfg, s, run[..|run| - 1], mid);
      StepInFlight(cfg, mid, run[|run| - 1], s', u, f);
      FlightSpan(cfg, s, run[..|run| - 1], mid, u, f);
      if LeaderOutcome(s.At(u)).Some? {
        SilentOn(s'.log, mid.log, s.log, u);
      } else if Succeeded(s'.At(u)) {
        SpanAct(mid, s', s.log, u);
      }
    }
  }

  lemma SpanAct(mid: State, s': State, base: Log, u: nat)
    requires Succeeded(s'.At(u)) && Extends(mid.log, base) && Extends(s'.log, mid.log)
    requires if LeaderOutcome(mid.At(u)).Some? then s'.At(u) == mid.At(u) && Since(mid.log, base, ActOf(u, s'.At(u)))
             else s'.log == Then(mid.log, ActOf(u, s'.At(u)))
    ensures Since(s'.log, base, ActOf(u, s'.At(u)))
  {
    SinceOn(s'.log, mid.log, base, ActOf(u, s'.At(u)));
    ExtendsLength(mid.log, base);
  }

  // ---- every follower's return, taken apart ----

  /**
    Thread t joins flight f in s0; in s2 its leader u is about to settle it; in s thread t, still waiting, has
    its result.
   */
  ghost predicate Told(
      cfg: Config, s0: State, t: nat, call: Call, f: nat, s1: State, mid: seq<Label>, u: nat, s2: State,
      rest: seq<Label>, s: State)
  {
    && Next(cfg, s0, Request(t, call)) == Some(s1) && s1.At(t) == Waiting(call, f)
    && Exec(cfg, s1, mid) == Some(s2) && Leads(s2, u, f) && LeaderOutcome(s2.At(u)).Some?
    && Exec(cfg, SettleFlight(s2, u), rest) == Some(s) && s.At(t) == Waiting(call, f)
  }

  lemma WaitingStep(cfg: Config, s: State, l: Label, s': State, t: nat)
    requires Next(cfg, s, l) == Some(s') && s'.At(t).Waiting? && s.At(t) != s'.At(t)
    ensures l == Request(t, s'.At(t).call) && s'.At(t).flight in s.table.flights.Values && s'.table == s.table
  {
    if l.Do? && l.t == t {
      var m := FileStep(cfg.path, s.fs, t, s.At(t), l.act).value;
      NeverWaits(cfg.path, s.fs, t, s.At(t), l.act, m);
    }
  }

  lemma NeverWaits(path: Key -> Path, fs: Fs, t: nat, th: Thread, act: Act, m: Move)
    requires FileStep(path, fs, t, th, act) == Some(m)
    ensures !m.th.Waiting?
  {
  }

  lemma {:induction false} JoinOf(cfg: Config, run: seq<Label>, s: State, t: nat)
    returns (before: seq<Label>, s0: State, s1: State, mid: seq<Label>)
    requires Exec(cfg, Init(), run) == Some(s) && s.At(t).Waiting?
    ensures Exec(cfg, Init(), before) == Some(s0) && Next(cfg, s0, Request(t, s.At(t).call)) == Some(s1)
    ensures s1.At(t) == s.At(t) && s1.At(t).flight in s1.table.flights.Values && Exec(cfg, s1, mid) == Some(s)
    decreases |run|
  {
    var l, last := run[|run| - 1], Exec(cfg, Init(), run[..|run| - 1]).value;
    if last.At(t) == s.At(t) {
      before, s0, s1, mid := JoinOf(cfg, run[..|run| - 1], last, t);
      assert (mid + [l])[..|mid|] == mid;
      mid := mid + [l];
    } else {
      WaitingStep(cfg, last, l, s, t);
      before, s0, s1, mid := run[..|run| - 1], last, s, [];
    }
  }

  lemma SettlingStep(cfg: Config, s: State, l: Label, s': State, f: nat)
    requires Next(cfg, s, l) == Some(s') && f !in s.table.results && f in s'.table.results
    ensures l.Settle? && Leads(s, l.t, f) && LeaderOutcome(s.At(l.t)).Some? && s' == SettleFlight(s, l.t)
  {
  }

  lemma {:induction false} SettlementOf(cfg: Config, s1: State, run: seq<Label>, s: State, f: nat)
    returns (mid: seq<Label>, u: nat, s2: State, rest: seq<Label>)
    requires Exec(cfg, s1, run) == Some(s) && f !in s1.table.results && f in s.table.results
    ensures Exec(cfg, s1, mid) == Some(s2) && Leads(s2, u, f) && LeaderOutcome(s2.At(u)).Some?
    ensures Exec(cfg, SettleFlight(s2, u), rest) == Some(s)
    decreases |run|
  {
    var l, last := run[|run| - 1], Exec(cfg, s1, run[..|run| - 1]).value;
    if f in last.table.results {
      mid, u, s2, rest := SettlementOf(cfg, s1, run[..|run| - 1], last, f);
      assert (rest + [l])[..|rest|] == rest;
      rest := rest + [l];
    } else {
      SettlingStep(cfg, last, l, s, f);
      mid, u, s2, rest := run[..|run| - 1], l.t, last, [];
    }
  }

  /** Every follower that has its result got it in this way. */
  lemma EveryFollowerIsTold(cfg: Config, run: seq<Label>, s: State, t: nat)
    returns (before: seq<Label>, s0: State, s1: State, mid: seq<Label>, u: nat, s2: State, rest: seq<Label>)
    requires Exec(cfg, Init(), run) == Some(s) && s.At(t).Waiting? && s.At(t).flight in s.table.results
    ensures Exec(cfg, Init(), before) == Some(s0)
    ensures Told(cfg, s0, t, s.At(t).call, s.At(t).flight, s1, mid, u, s2, rest, s)
  {
    var all: seq<Label>;
    before, s0, s1, all := JoinOf(cfg, run, s, t);
    FlightRun(cfg, before, s0);
    FlightStep(cfg, s0, Request(t, s.At(t).call), s1);
    mid, u, s2, rest := SettlementOf(cfg, s1, all, s, s.At(t).flight);
  }

  lemma {:induction false} ResultStays(cfg: Config, s: State, run: seq<Label>, s': State, f: nat)
    requires FlightInv(cfg, s.table, s.threads) && Exec(cfg, s, run) == Some(s') && f in s.table.results
    ensures FlightInv(cfg, s'.table, s'.threads)
    ensures f in s'.table.results && s'.table.results[f] == s.table.results[f]
    decreases |run|
  {
    if run != [] {
      var mid := Exec(cfg, s, run[..|run| - 1]).value;
      ResultStays(cfg, s, run[..|run| - 1], mid, f);
      FlightStep(cfg, mid, run[|run| - 1], s');
      ResultKept(cfg, mid, run[|run| - 1], s', f);
    }
  }

  lemma ResultKept(cfg: Config, s: State, l: Label, s': State, f: nat)
    requires FlightInv(cfg, s.table, s.threads) && Next(cfg, s, l) == Some(s') && f in s.table.results
    ensures f in s'.table.results && s'.table.results[f] == s.table.results[f]
  {
    if l.Settle? { assert LeaderOk(cfg, s.table, s.threads[l.t]); }
  }

  lemma {:induction false} FlightRunOn(cfg: Config, s: State, run: seq<Label>, s': State)
    requires FlightInv(cfg, s.table, s.threads) && Exec(cfg, s, run) == Some(s')
    ensures FlightInv(cfg, s'.table, s'.threads)
    decreases |run|
  {
    if run != [] {
      var mid := Exec(cfg, s, run[..|run| - 1]).value;
      FlightRunOn(cfg, s, run[..|run| - 1], mid);
      FlightStep(cfg, mid, run[|run| - 1], s');
    }
  }

  /** The leader of a follower's flight makes a call of the follower's key and kind. */
  lemma SameCall(cfg: Config, s: State, t: nat, u: nat)
    requires FlightInv(cfg, s.table, s.threads) && t in s.threads && s.threads[t].Waiting?
    requires Leads(s, u, s.threads[t].flight)
    ensures LeaderCall(s.At(u)).key == s.threads[t].call.key
    ensures LeaderCall(s.At(u)).PutCall? <==> s.threads[t].call.PutCall?
  {
    assert LeaderOk(cfg, s.table, s.threads[u]) && FollowerOk(s.table, s.threads[t]);
    FlightNamesApart(LeaderCall(s.At(u)), s.threads[t].call);
  }

  /**
    A follower returns its leader's outcome, of a call of its own key and kind. When that is a success, the
    leader's act lies within the follower's call, after the join and before the settlement that it returns,
    exactly when the leader had no outcome yet at the moment of the join; otherwise the leader does nothing
    in between.
   */
  lemma ActsInFollowersCallExactly(
      cfg: Config, before: seq<Label>, s0: State, t: nat, call: Call, f: nat, s1: State, mid: seq<Label>, u: nat,
      s2: State, rest: seq<Label>, s: State)
    requires Exec(cfg, Init(), before) == Some(s0) && Told(cfg, s0, t, call, f, s1, mid, u, s2, rest, s)
    ensures f in s.table.results && s.table.results[f] == (call.key, LeaderOutcome(s2.At(u)).value)
    ensures LeaderCall(s2.At(u)).key == call.key && (LeaderCall(s2.At(u)).PutCall? <==> call.PutCall?)
    ensures Extends(s.log, s2.log) && Extends(s2.log, s1.log)
    ensures Succeeded(s2.At(u)) ==>
      (Since(s2.log, s1.log, ActOf(u, s2.At(u))) <==> LeaderOutcome(s0.At(u)).None?)
    ensures LeaderOutcome(s0.At(u)).Some? ==> SilentSince(s2.log, s1.log, u)
  {
    FlightRun(cfg, before, s0);
    FlightStep(cfg, s0, Request(t, call), s1);
    assert FollowerOk(s1.table, s1.threads[t]);
    FlightSpan(cfg, s1, mid, s2, u, f);
    SameCall(cfg, s1, t, u);
    NextGrows(cfg, s1, mid, s2);
    FlightRunOn(cfg, s1, mid, s2);
    Returned(cfg, s2, u, rest, s);
    assert s1.At(u) == s0.At(u);
    if Succeeded(s2.At(u)) && LeaderOutcome(s0.At(u)).Some? {
      SilentMeansNone(s2.log, s1.log, u, ActOf(u, s2.At(u)));
    }
  }

  lemma Returned(cfg: Config, s: State, u: nat, rest: seq<Label>, s': State)
    requires FlightInv(cfg, s.table, s.threads) && LeaderFlight(s.At(u)).Some? && LeaderOutcome(s.At(u)).Some?
    requires Exec(cfg, SettleFlight(s, u), rest) == Some(s')
    ensures
      var f := LeaderFlight(s.At(u)).value;
      f in s'.table.results && s'.table.results[f] == (s.At(u).key, LeaderOutcome(s.At(u)).value)
    ensures Extends(s'.log, s.log)
  {
    FlightSettle(cfg, s, u);
    ResultStays(cfg, SettleFlight(s, u), rest, s', LeaderFlight(s.At(u)).value);
    NextGrows(cfg, SettleFlight(s, u), rest, s');
    ExtendsOn(s'.log, SettleFlight(s, u).log, s.log);
  }

  // ---- what an early follower may rely on ----

  /** A Put that joins before its leader's rename, and is told of success, has its key stored during its own call. */
  lemma EarlyFollowerPutIsStored(
      cfg: Config, before: seq<Label>, s0: State, t: nat, call: Call, f: nat, s1: State, mid: seq<Label>, u: nat,
      s2: State, rest: seq<Label>, s: State)
    requires Exec(cfg, Init(), before) == Some(s0) && Told(cfg, s0, t, call, f, s1, mid, u, s2, rest, s)
    requires call.PutCall? && f in s.table.results && s.table.results[f].1 == PutResult(true)
    requires LeaderOutcome(s0.At(u)).None?
    ensures exists b :: Since(s2.log, s1.log, Stored(u, call.key, b))
  {
    ActsInFollowersCallExactly(cfg, before, s0, t, call, f, s1, mid, u, s2, rest, s);
    assert ActOf(u, s2.At(u)) == Stored(u, call.key, s2.At(u).body);
  }

  /** A Head that joins before its leader's stat is told what the map held at some moment of its own call. */
  lemma EarlyFollowerHeadIsCurrent(
      cfg: Config, before: seq<Label>, s0: State, t: nat, call: Call, f: nat, s1: State, mid: seq<Label>, u: nat,
      s2: State, rest: seq<Label>, s: State) returns (moment: Log)
    requires Separate(cfg) && Exec(cfg, Init(), before) == Some(s0) && LoneRun(cfg, Init(), before)
    requires LoneRun(cfg, s1, mid)
    requires Told(cfg, s0, t, call, f, s1, mid, u, s2, rest, s)
    requires call.HeadCall? && f in s.table.results && s.table.results[f].1.HeadResult?
    requires LeaderOutcome(s0.At(u)).None?
    ensures Extends(s2.log, moment) && Extends(moment, s1.log)
    ensures s.table.results[f].1.found == SizeOf(Lookup(MapOf(moment), call.key))
  {
    ActsInFollowersCallExactly(cfg, before, s0, t, call, f, s1, mid, u, s2, rest, s);
    RunKeeps(cfg, before, s0);
    StepKeeps(cfg, s0, Request(t, call), s1);
    RunKeepsOn(cfg, s1, mid, s2);
    moment := StattedAt(s2.log, s1.log, ActOf(u, s2.At(u)));
  }

  lemma {:induction false} RunKeepsOn(cfg: Config, s: State, run: seq<Label>, s': State)
    requires Separate(cfg) && Inv(cfg, s) && Exec(cfg, s, run) == Some(s') && LoneRun(cfg, s, run)
    ensures Inv(cfg, s')
    decreases |run|
  {
    if run != [] {
      var mid := Exec(cfg, s, run[..|run| - 1]).value;
      RunKeepsOn(cfg, s, run[..|run| - 1], mid);
      StepKeeps(cfg, mid, run[|run| - 1], s');
    }
  }

  lemma {:induction false} StattedAt(log: Log, base: Log, e: Event) returns (moment: Log)
    requires Legal(log) && Extends(log, base) && Since(log, base, e) && e.Statted?
    ensures Extends(log, moment) && Extends(moment, base) && e.found == SizeOf(Lookup(MapOf(moment), e.key))
  {
    if log.event == e { moment := log.before; } else { moment := StattedAt(log.before, base, e); }
  }

  // ---- the runs of late followers ----

  /** Thread u joins the finished but unsettled flight of thread t, which settles; then u returns. */
  lemma JoinLate(cfg: Config, s: State, t: nat, u: nat, call: Call) returns (s': State)
    requires Reached(cfg, s) && t in s.threads && s.At(u).Idle?
    requires call.key in cfg.keys && (call.PutCall? || call.HeadCall?)
    requires
      var th := s.threads[t];
      && LeaderFlight(th).Some? && LeaderOutcome(th).Some? && FlightName(LeaderCall(th)) == FlightName(call)
      && FlightName(call) in s.table.flights && s.table.flights[FlightName(call)] == LeaderFlight(th).value
    ensures Reached(cfg, s') && s'.fs == s.fs
    ensures
      var th := s.threads[t];
      var f, r := LeaderFlight(th).value, LeaderOutcome(th).value;
      s'.log == Then(Then(Then(s.log, Joined(u, f, call)), Settled(t, f, th.key, r)), Shared(u, f, r))
  {
    s' := Step(cfg, s, Request(u, call));
    s' := Step(cfg, s', Settle(t));
    s' := Step(cfg, s', Share(u));
  }

  /**
    A Put that joins after its leader's rename is told it succeeded although nothing is stored after it
    begins: here the entry is deleted before it joins, and stays absent.
   */
  lemma FollowerPutMayStoreNothing(cfg: Config, k: Key, b: Bytes)
    requires k in cfg.keys && cfg.path(k) != []
    ensures exists s, log ::
      && Reached(cfg, s)
      && s.log == Then(Then(Then(log, Joined(2, 0, PutCall(k, b))), Settled(0, 0, k, PutResult(true))),
          Shared(2, 0, PutResult(true)))
      && k !in MapOf(log) && s.fs.Content(cfg.path(k)).None?
  {
    var s := Start(cfg);
    s := PutRenames(cfg, s, 0, k);
    s := Deletes(cfg, s, 1, k);
    var log := s.log;
    s := JoinLate(cfg, s, 0, 2, PutCall(k, b));
  }

  /** A whole Delete of a key whose file is there. */
  lemma Deletes(cfg: Config, s: State, t: nat, k: Key) returns (s': State)
    requires Reached(cfg, s) && s.At(t).Idle? && k in cfg.keys && cfg.path(k) in s.fs.dir
    requires WriteFree(cfg, s.threads, cfg.shard(k)) && ReadFree(cfg, s.threads, cfg.shard(k))
    ensures Reached(cfg, s') && s'.table == s.table && s'.threads == s.threads[t := Idle]
    ensures s'.fs.Content(cfg.path(k)).None? && k !in MapOf(s'.log)
  {
    s' := DeleteLocks(cfg, s, t, k);
    s' := Acts(cfg, s', t, Unlink(true), Move(Idle, s.fs.Remove(cfg.path(k)), Some(Removed(t, k))));
  }

  lemma DeleteLocks(cfg: Config, s: State, t: nat, k: Key) returns (s': State)
    requires Reached(cfg, s) && s.At(t).Idle? && k in cfg.keys
    requires WriteFree(cfg, s.threads, cfg.shard(k)) && ReadFree(cfg, s.threads, cfg.shard(k))
    ensures Reached(cfg, s') && s'.table == s.table && s'.fs == s.fs && s'.threads == s.threads[t := Delete(k, true)]
  {
    s' := Begin(cfg, s, t, DeleteCall(k));
    s' := Acts(cfg, s', t, WriteLock, Move(Delete(k, true), s.fs, None));
  }

  /** A leader's stat has found nothing, and its flight is still open. */
  lemma HeadMisses(cfg: Config, k: Key) returns (s: State)
    requires k in cfg.keys && cfg.path(k) != []
    ensures Reached(cfg, s) && s.fs == Init().fs
    ensures s.threads == map[0 := Head(k, 0, HeadDone(HeadResult(None)))]
    ensures s.table == Table(map[FlightName(HeadCall(k)) := 0], map[], 1)
  {
    s := Start(cfg);
    s := Begin(cfg, s, 0, HeadCall(k));
    s := Acts(cfg, s, 0, ReadLock, Move(Head(k, 0, HeadLocked), s.fs, None));
    s := Acts(cfg, s, 0, Stat(true, 0), Move(Head(k, 0, HeadDone(HeadResult(None))), s.fs, Some(Statted(0, k, None))));
  }

  /** ... and then an entry is stored. */
  lemma HeadMissesThenRename(cfg: Config, k: Key) returns (s: State)
    requires k in cfg.keys && cfg.path(k) != []
    ensures Reached(cfg, s) && s.fs == OneFile(cfg.path(k), cfg.path(k), ONE)
    ensures s.threads ==
      map[0 := Head(k, 0, HeadDone(HeadResult(None))), 1 := Put(k, ONE, Some(1), PutDone(true))]
    ensures FlightName(HeadCall(k)) in s.table.flights && s.table.flights[FlightName(HeadCall(k))] == 0
    ensures FlightName(PutCall(k, ONE)) != FlightName(HeadCall(k))
    ensures k in MapOf(s.log)
  {
    s := HeadMisses(cfg, k);
    PutIsNoHead(PutCall(k, ONE), k);
    s := PutRenames(cfg, s, 1, k);
  }

  /** ... and its Put returns. */
  lemma HeadMissesThenPut(cfg: Config, k: Key) returns (s: State)
    requires k in cfg.keys && cfg.path(k) != []
    ensures Reached(cfg, s) && s.At(2).Idle? && 0 in s.threads && s.threads[0] == Head(k, 0, HeadDone(HeadResult(None)))
    ensures FlightName(HeadCall(k)) in s.table.flights && s.table.flights[FlightName(HeadCall(k))] == 0
    ensures Acknowledged(s.log, k) && k in MapOf(s.log) && s.fs.Content(cfg.path(k)).Some?
  {
    s := HeadMissesThenRename(cfg, k);
    s := Settles(cfg, s, 1);
  }

  /** A leader settles its flight. */
  lemma Settles(cfg: Config, s: State, t: nat) returns (s': State)
    requires Reached(cfg, s) && LeaderFlight(s.At(t)).Some? && LeaderOutcome(s.At(t)).Some?
    ensures Reached(cfg, s') && s' == SettleFlight(s, t)
  {
    s' := Step(cfg, s, Settle(t));
  }

  /** A Head that joins after its leader's stat reports a miss of an entry stored before it began. */
  lemma FollowerHeadMayBeStale(cfg: Config, k: Key)
    requires k in cfg.keys && cfg.path(k) != []
    ensures exists s, log ::
      && Reached(cfg, s)
      && s.log == Then(Then(Then(log, Joined(2, 0, HeadCall(k))), Settled(0, 0, k, HeadResult(None))),
          Shared(2, 0, HeadResult(None)))
      && Acknowledged(log, k) && k in MapOf(log) && s.fs.Content(cfg.path(k)).Some?
  {
    var s := HeadMissesThenPut(cfg, k);
    var log := s.log;
    s := JoinLate(cfg, s, 0, 2, HeadCall(k));
  }
}
