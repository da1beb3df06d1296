/**
  Calls and uploads that run alone: a Put that falls back, a backfill, a Delete, and an item through all its retries.
  The steps of the interleaving machine then add up to the whole calls of the sequential model.
 */
module AsyncWhole {
  import opened Answers
  import opened Base
  import opened AsyncUpload
  import opened AsyncUploaderObject
  import AA = AsyncAccounting
  import AT = AsyncTermination
  import H = Hybrid

  function Tiers(s: State): H.Tiers { H.Tiers(s.local, s.s3) }

  // ---- a Put whose Enqueue is refused ----

  /** The steps from the local write to the refusal. */
  function Refused(s: State, c: nat, k: Key, b: Bytes): seq<Label> {
    [PutLocal(c, k, b), CheckRunning(c)] + (if s.phase.Running? then [Send(c)] else [])
  }

  lemma RefusedRuns(cfg: Config, s: State, c: nat, k: Key, b: Bytes)
    requires !s.phase.Crashed? && s.At(c).Away? && (s.phase.Running? ==> |s.queue| >= cfg.capacity)
    ensures Exec(cfg, s, Refused(s, c, k, b)) == Some(s.(local := s.local[k := b]).Goto(c, FallingBack(k)))
  {
    var put := s.(local := s.local[k := b]);
    var next := if s.phase.Running? then Admitted(k) else FallingBack(k);
    ExecOne(cfg, s, PutLocal(c, k, b));
    assert s.clients[c := Stored(k)][c := next] == s.clients[c := next];
    ExecOn(cfg, s, [PutLocal(c, k, b)], put.Goto(c, Stored(k)), CheckRunning(c), put.Goto(c, next));
    assert [PutLocal(c, k, b)] + [CheckRunning(c)] == [PutLocal(c, k, b), CheckRunning(c)];
    if s.phase.Running? {
      assert s.clients[c := Admitted(k)][c := FallingBack(k)] == s.clients[c := FallingBack(k)];
      ExecOn(cfg, s, [PutLocal(c, k, b), CheckRunning(c)], put.Goto(c, next), Send(c), put.Goto(c, FallingBack(k)));
    } else {
      assert [PutLocal(c, k, b), CheckRunning(c)] + [] == [PutLocal(c, k, b), CheckRunning(c)];
    }
  }

  /** The synchronous upload: an eviction just before the read, the read, and S3's answer to what was read. */
  function SyncRun(c: nat, k: Key, f: H.PutFaults): seq<Label> {
    (if f.evicted then [Evict(k)] else []) + [SyncRead(c, f.read)]
    + (if f.evicted || !f.read then []
       else (if f.s3 == Rejected(false) then [] else [SyncApply(c)]) + [SyncDone(c, f.s3.Accepted?)])
  }

  /** How a Put that got as far as its fallback ends. */
  function Ended(s: State, c: nat, k: Key, t: H.Tiers, ok: bool): State {
    s.(local := t.local, s3 := t.s3, clients := s.clients[c := Away],
       acked := if ok then s.acked + {k} else s.acked, failed := if ok then s.failed else s.failed + {k})
  }

  lemma SyncRuns(cfg: Config, s: State, c: nat, k: Key, f: H.PutFaults)
    requires !s.phase.Crashed? && s.At(c) == FallingBack(k) && k in s.local
    ensures
      var local := if f.evicted then s.local - {k} else s.local;
      var whole := f.read && !f.evicted;
      var s3 := if whole && f.s3 != Rejected(false) then s.s3[k := s.local[k]] else s.s3;
      Exec(cfg, s, SyncRun(c, k, f)) == Some(Ended(s, c, k, H.Tiers(local, s3), whole && f.s3.Accepted?))
  {
    if f.evicted || !f.read {
      UnreadRuns(cfg, s, c, k, f);
    } else {
      var read := s.Goto(c, Syncing(k, s.local[k], false));
      ExecOne(cfg, s, SyncRead(c, true));
      AnsweredRuns(cfg, s, c, k, read, f);
      var run := [SyncRead(c, true)];
      var tail := (if f.s3 == Rejected(false) then [] else [SyncApply(c)]) + [SyncDone(c, f.s3.Accepted?)];
      assert [] + run == run;
      assert SyncRun(c, k, f) == run + tail;
      ExecJoin(cfg, s, run, read, tail);
    }
  }

  lemma UnreadRuns(cfg: Config, s: State, c: nat, k: Key, f: H.PutFaults)
    requires !s.phase.Crashed? && s.At(c) == FallingBack(k) && k in s.local && (f.evicted || !f.read)
    ensures
      var local := if f.evicted then s.local - {k} else s.local;
      Exec(cfg, s, SyncRun(c, k, f)) == Some(Ended(s, c, k, H.Tiers(local, s.s3), false))
  {
    var mid := if f.evicted then s.(local := s.local - {k}) else s;
    var end := Ended(s, c, k, H.Tiers(mid.local, s.s3), false);
    assert Next(cfg, mid, SyncRead(c, f.read)) == Some(end);
    if f.evicted {
      ExecOne(cfg, s, Evict(k));
      ExecOn(cfg, s, [Evict(k)], mid, SyncRead(c, f.read), end);
      assert SyncRun(c, k, f) == [Evict(k)] + [SyncRead(c, f.read)];
    } else {
      ExecOne(cfg, s, SyncRead(c, f.read));
      assert SyncRun(c, k, f) == [SyncRead(c, f.read)];
    }
  }

  lemma AnsweredRuns(cfg: Config, s: State, c: nat, k: Key, read: State, f: H.PutFaults)
    requires !s.phase.Crashed? && k in s.local && read == s.Goto(c, Syncing(k, s.local[k], false))
    ensures
      var s3 := if f.s3 == Rejected(false) then s.s3 else s.s3[k := s.local[k]];
      var run := (if f.s3 == Rejected(false) then [] else [SyncApply(c)]) + [SyncDone(c, f.s3.Accepted?)];
      Exec(cfg, read, run) == Some(Ended(s, c, k, H.Tiers(s.local, s3), f.s3.Accepted?))
  {
    if f.s3 == Rejected(false) {
      DoneStep(cfg, s, c, k, s.local[k], false, false);
      ExecOne(cfg, read, SyncDone(c, false));
      assert [] + [SyncDone(c, false)] == [SyncDone(c, false)];
    } else {
      var stored := s.(s3 := s.s3[k := s.local[k]]);
      ApplyStep(cfg, s, c, k, s.local[k]);
      DoneStep(cfg, stored, c, k, s.local[k], true, f.s3.Accepted?);
      ExecOne(cfg, read, SyncApply(c));
      ExecOn(cfg, read, [SyncApply(c)], stored.Goto(c, Syncing(k, s.local[k], true)), SyncDone(c, f.s3.Accepted?),
             Ended(stored, c, k, Tiers(stored), f.s3.Accepted?));
    }
  }

  lemma ApplyStep(cfg: Config, s: State, c: nat, k: Key, b: Bytes)
    requires !s.phase.Crashed?
    ensures Next(cfg, s.Goto(c, Syncing(k, b, false)), SyncApply(c))
         == Some(s.(s3 := s.s3[k := b]).Goto(c, Syncing(k, b, true)))
  {
    assert s.clients[c := Syncing(k, b, false)][c := Syncing(k, b, true)] == s.clients[c := Syncing(k, b, true)];
  }

  lemma DoneStep(cfg: Config, s: State, c: nat, k: Key, b: Bytes, applied: bool, ok: bool)
    requires !s.phase.Crashed? && (ok ==> applied)
    ensures Next(cfg, s.Goto(c, Syncing(k, b, applied)), SyncDone(c, ok)) == Some(Ended(s, c, k, Tiers(s), ok))
  {
    assert s.clients[c := Syncing(k, b, applied)][c := Away] == s.clients[c := Away];
  }

  /**
    A Put that runs alone while the uploader does not run, or its queue is full, leaves the tiers as the sequential
    Put does, and is acknowledged exactly when that says so.
   */
  lemma FallbackIsWhole(cfg: Config, s: State, c: nat, k: Key, b: Bytes, f: H.PutFaults)
    requires !s.phase.Crashed? && s.At(c).Away? && (s.phase.Running? ==> |s.queue| >= cfg.capacity) && f.store
    ensures
      var (t, r) := H.Put(Tiers(s), k, b, f);
      Exec(cfg, s, Refused(s, c, k, b) + SyncRun(c, k, f)) == Some(Ended(s, c, k, t, r.PutDone?))
  {
    var put := s.(local := s.local[k := b]).Goto(c, FallingBack(k));
    RefusedRuns(cfg, s, c, k, b);
    SyncRuns(cfg, put, c, k, f);
    ExecJoin(cfg, s, Refused(s, c, k, b), put, SyncRun(c, k, f));
    assert s.clients[c := FallingBack(k)][c := Away] == s.clients[c := Away];
  }

  // ---- reads and deletes ----

  /** A Get that runs alone over a key that S3 alone has is a fetch and a fill; */
  lemma BackfillIsWhole(cfg: Config, s: State, c: nat, k: Key, ok: bool)
    requires !s.phase.Crashed? && s.At(c).Away? && k !in s.local && k in s.s3
    ensures
      var (t, r) := H.Get(Tiers(s), k, H.GetFaults(true, true, ok, false, true));
      && Exec(cfg, s, [Fetch(c, k), Fill(c, ok)]) == Some(s.(local := t.local).Goto(c, Away))
      && t.s3 == s.s3 && r == (if ok then H.Hit(s.s3[k]) else H.BackfillFailed)
      && (ok ==> t.local == s.local[k := s.s3[k]]) && (!ok ==> t.local == s.local)
  {
    var fetched := s.Goto(c, Fetched(k, s.s3[k]));
    ExecOne(cfg, s, Fetch(c, k));
    assert s.clients[c := Fetched(k, s.s3[k])][c := Away] == s.clients[c := Away];
    ExecOn(cfg, s, [Fetch(c, k)], fetched, Fill(c, ok),
           (if ok then s.(local := s.local[k := s.s3[k]]) else s).Goto(c, Away));
    assert [Fetch(c, k)] + [Fill(c, ok)] == [Fetch(c, k), Fill(c, ok)];
  }

  /** ... over any other it changes nothing, and no fetch begins; */
  lemma NoBackfill(cfg: Config, s: State, c: nat, k: Key, f: H.GetFaults)
    requires k in s.local || k !in s.s3
    ensures Next(cfg, s, Fetch(c, k)).None? && H.Get(Tiers(s), k, f).0 == Tiers(s)
  {
  }

  /** ... and a Delete is the removal from both tiers. */
  lemma DeleteIsWhole(cfg: Config, s: State, k: Key)
    requires !s.phase.Crashed?
    ensures
      var (t, r) := H.Delete(Tiers(s), k, H.DeleteFaults(true, Accepted));
      r.Deleted? && Exec(cfg, s, [DeleteLocal(k), DeleteS3(k)]) == Some(s.(local := t.local, s3 := t.s3))
  {
    ExecOne(cfg, s, DeleteLocal(k));
    ExecOn(cfg, s, [DeleteLocal(k)], s.(local := s.local - {k}), DeleteS3(k),
           s.(local := s.local - {k}, s3 := s.s3 - {k}));
    assert [DeleteLocal(k)] + [DeleteS3(k)] == [DeleteLocal(k), DeleteS3(k)];
  }

  // ---- an item through its retries ----

  function More(it: Item, n: nat): Item { it.(attempts := it.attempts + n) }

  const FAILS := Trip(true, false, false)
  const WORKS := Trip(true, true, true)

  /** A failed try, followed by the waking of the retry, which is the last of those asleep. */
  function Failing(s: State, it: Item): seq<Label> { TripRun(s, it, FAILS) + [Wake(|s.sleepers|)] }

  /** n of these. */
  function Retries(s: State, it: Item, n: nat): seq<Label> {
    if n == 0 then [] else Retries(s, it, n - 1) + Failing(s, More(it, n - 1))
  }

  /** An item alone in the queue, with its entry there and n tries before its last. */
  predicate Lone(cfg: Config, s: State, it: Item, n: nat) {
    && OneIdle(s) && QueueOpen(s) && s.queue == [it] && cfg.capacity >= 1
    && it.key in s.local && it.attempts + n < cfg.maxRetry
  }

  lemma {:induction false} RetriesRun(cfg: Config, s: State, it: Item, n: nat)
    requires Lone(cfg, s, it, n)
    ensures Exec(cfg, s, Retries(s, it, n)) == Some(s.(queue := [More(it, n)]))
  {
    if n == 0 {
      assert More(it, 0) == it;
    } else {
      RetriesRun(cfg, s, it, n - 1);
      RetriedMore(cfg, s, it, n, Retries(s, it, n - 1));
    }
  }

  lemma RetriedMore(cfg: Config, s: State, it: Item, n: nat, before: seq<Label>)
    requires Lone(cfg, s, it, n) && n >= 1 && Exec(cfg, s, before) == Some(s.(queue := [More(it, n - 1)]))
    ensures Exec(cfg, s, before + Failing(s, More(it, n - 1))) == Some(s.(queue := [More(it, n)]))
  {
    FailedAgain(cfg, s, it, n);
    ExecJoin(cfg, s, before, s.(queue := [More(it, n - 1)]), Failing(s, More(it, n - 1)));
  }

  /** The retry of an item that is asleep goes back to the empty queue. */
  lemma WokenUp(cfg: Config, s: State, it: Item)
    requires OneIdle(s) && QueueOpen(s) && cfg.capacity >= 1
    ensures Next(cfg, s.(queue := [], sleepers := s.sleepers + [it]), Wake(|s.sleepers|)) == Some(s.(queue := [it]))
  {
    var asleep := s.(queue := [], sleepers := s.sleepers + [it]);
    RetryRuns(cfg, asleep, |s.sleepers|);
    assert asleep.sleepers[..|s.sleepers|] + asleep.sleepers[|s.sleepers| + 1..] == s.sleepers;
    assert [] + [it] == [it];
  }

  /** One failed try sends the item to sleep, */
  lemma FailedOnce(cfg: Config, s: State, it: Item)
    requires Lone(cfg, s, it, 1)
    ensures Exec(cfg, s, TripRun(s, it, FAILS)) == Some(s.(queue := [], sleepers := s.sleepers + [More(it, 1)]))
  {
    TriedRuns(cfg, s, FAILS);
    assert s.queue[1..] == [];
  }

  /** ... from where it goes back to the queue with one more attempt; */
  lemma FailedAgain(cfg: Config, s: State, it: Item, n: nat)
    requires Lone(cfg, s, it, n) && n >= 1
    ensures Exec(cfg, s.(queue := [More(it, n - 1)]), Failing(s, More(it, n - 1))) == Some(s.(queue := [More(it, n)]))
  {
    var was := s.(queue := [More(it, n - 1)]);
    FailedOnce(cfg, was, More(it, n - 1));
    assert More(More(it, n - 1), 1) == More(it, n);
    WokenUp(cfg, s, More(it, n));
    ExecOn(cfg, was, TripRun(s, More(it, n - 1), FAILS), s.(queue := [], sleepers := s.sleepers + [More(it, n)]),
           Wake(|s.sleepers|), s.(queue := [More(it, n)]));
  }

  /** ... and a last one that fails ends it. */
  lemma FailedLast(cfg: Config, s: State, it: Item)
    requires Lone(cfg, s, it, 0) && it.attempts + 1 == cfg.maxRetry
    ensures Exec(cfg, s, TripRun(s, it, FAILS))
         == Some(s.(queue := [], exhausted := s.exhausted + [it.(attempts := cfg.maxRetry)]))
  {
    TriedRuns(cfg, s, FAILS);
    assert s.queue[1..] == [];
  }

  lemma Works(cfg: Config, s: State, it: Item)
    requires Lone(cfg, s, it, 0)
    ensures Exec(cfg, s, TripRun(s, it, WORKS))
         == Some(s.(queue := [], s3 := s.s3[it.key := s.local[it.key]], uploaded := s.uploaded + [it]))
  {
    TriedRuns(cfg, s, WORKS);
    assert s.queue[1..] == [];
  }

  /** An item that S3 refuses fewer than maxRetry times and then takes is uploaded, with the local content; */
  lemma RetriedIsUploaded(cfg: Config, s: State, it: Item, n: nat)
    requires Lone(cfg, s, it, n)
    ensures Exec(cfg, s, Retries(s, it, n) + TripRun(s, More(it, n), WORKS))
         == Some(s.(queue := [], s3 := s.s3[it.key := s.local[it.key]], uploaded := s.uploaded + [More(it, n)]))
  {
    RetriesRun(cfg, s, it, n);
    Works(cfg, s.(queue := [More(it, n)]), More(it, n));
    ExecJoin(cfg, s, Retries(s, it, n), s.(queue := [More(it, n)]), TripRun(s, More(it, n), WORKS));
  }

  /** ... and one that it refuses maxRetry times is given up. */
  lemma RefusedIsGivenUp(cfg: Config, s: State, it: Item, n: nat)
    requires Lone(cfg, s, it, n) && it.attempts + n + 1 == cfg.maxRetry
    ensures Exec(cfg, s, Retries(s, it, n) + TripRun(s, More(it, n), FAILS))
         == Some(s.(queue := [], exhausted := s.exhausted + [it.(attempts := cfg.maxRetry)]))
  {
    RetriesRun(cfg, s, it, n);
    FailedLast(cfg, s.(queue := [More(it, n)]), More(it, n));
    ExecJoin(cfg, s, Retries(s, it, n), s.(queue := [More(it, n)]), TripRun(s, More(it, n), FAILS));
  }

  // ---- the bounds on retries are reached ----

  /** The state after a first Put of b at k has been acknowledged. */
  function Accepted1(s: State, k: Key, b: Bytes): State {
    s.(local := s.local[k := b], queue := [Item(0, k, 0)], accepted := 1, acked := {k}).Goto(0, Away)
  }

  lemma FirstPut(cfg: Config, local: map<Key, Bytes>, s3: map<Key, Bytes>, k: Key, b: Bytes)
    requires cfg.Valid()
    ensures
      var s := Init(cfg, local, s3);
      Exec(cfg, s, [PutLocal(0, k, b), CheckRunning(0), Send(0)]) == Some(Accepted1(s, k, b))
  {
    var s := Init(cfg, local, s3);
    var put := s.(local := local[k := b]);
    ExecOne(cfg, s, PutLocal(0, k, b));
    assert put.clients[0 := Stored(k)][0 := Admitted(k)] == put.clients[0 := Admitted(k)];
    ExecOn(cfg, s, [PutLocal(0, k, b)], put.Goto(0, Stored(k)), CheckRunning(0), put.Goto(0, Admitted(k)));
    assert [PutLocal(0, k, b)] + [CheckRunning(0)] == [PutLocal(0, k, b), CheckRunning(0)];
    assert put.clients[0 := Admitted(k)][0 := Away] == put.clients[0 := Away] && {} + {k} == {k};
    assert [] + [Item(0, k, 0)] == [Item(0, k, 0)];
    ExecOn(cfg, s, [PutLocal(0, k, b), CheckRunning(0)], put.Goto(0, Admitted(k)), Send(0), Accepted1(s, k, b));
    assert [PutLocal(0, k, b), CheckRunning(0)] + [Send(0)] == [PutLocal(0, k, b), CheckRunning(0), Send(0)];
  }

  /** Nothing is left but one item that has been given up. */
  predicate OnlyGivenUp(cfg: Config, s: State) {
    && |s.exhausted| == 1 && s.exhausted[0].id == 0 && s.exhausted[0].attempts == cfg.maxRetry
    && s.queue == [] && s.workers == [Idle] && s.sleepers == [] && s.uploaded == [] && s.missing == []
    && s.dropped == []
  }

  lemma GivenUpRuns(cfg: Config, local: map<Key, Bytes>, s3: map<Key, Bytes>, k: Key, b: Bytes)
      returns (run: seq<Label>, end: State)
    requires cfg.Valid() && cfg.workers == 1
    ensures Exec(cfg, Init(cfg, local, s3), run) == Some(end) && OnlyGivenUp(cfg, end)
  {
    var queued, it, n := Accepted1(Init(cfg, local, s3), k, b), Item(0, k, 0), cfg.maxRetry - 1;
    FirstPut(cfg, local, s3, k, b);
    assert seq(1, _ => Idle) == [Idle];
    RefusedIsGivenUp(cfg, queued, it, n);
    end := queued.(queue := [], exhausted := [] + [it.(attempts := cfg.maxRetry)]);
    var tries := Retries(queued, it, n) + TripRun(queued, More(it, n), FAILS);
    run := [PutLocal(0, k, b), CheckRunning(0), Send(0)] + tries;
    ExecJoin(cfg, Init(cfg, local, s3), [PutLocal(0, k, b), CheckRunning(0), Send(0)], queued, tries);
  }

  /** A run in which one upload costs maxRetry S3 Puts and maxRetry * (maxRetry - 1) seconds of backoff. */
  lemma BoundsReached(cfg: Config, local: map<Key, Bytes>, s3: map<Key, Bytes>, k: Key, b: Bytes)
      returns (run: seq<Label>)
    requires cfg.Valid() && cfg.workers == 1
    ensures Exec(cfg, Init(cfg, local, s3), run).Some?
    ensures AT.PutsFor(cfg, Init(cfg, local, s3), run, 0) == cfg.maxRetry
    ensures AT.BackoffFor(cfg, Init(cfg, local, s3), run, 0) == cfg.maxRetry * (cfg.maxRetry - 1)
  {
    var end;
    run, end := GivenUpRuns(cfg, local, s3, k, b);
    PutsAtEnd(cfg, local, s3, run, end);
    SleepAtEnd(cfg, local, s3, run, end);
  }

  /** What a run from the start to such a state has cost in Puts, */
  lemma PutsAtEnd(cfg: Config, local: map<Key, Bytes>, s3: map<Key, Bytes>, run: seq<Label>, end: State)
    requires Exec(cfg, Init(cfg, local, s3), run) == Some(end) && OnlyGivenUp(cfg, end)
    ensures AT.PutsFor(cfg, Init(cfg, local, s3), run, 0) == cfg.maxRetry
  {
    AA.InitEmpty(cfg, local, s3, AT.PutsSpent(0));
    AT.PutsAreTotal(cfg, Init(cfg, local, s3), run, end, 0);
    GivenUpSpent(cfg, end);
  }

  /** ... and in backoff. */
  lemma SleepAtEnd(cfg: Config, local: map<Key, Bytes>, s3: map<Key, Bytes>, run: seq<Label>, end: State)
    requires cfg.Valid() && Exec(cfg, Init(cfg, local, s3), run) == Some(end) && OnlyGivenUp(cfg, end)
    ensures AT.BackoffFor(cfg, Init(cfg, local, s3), run, 0) == AT.Budget(cfg)
  {
    AA.InitEmpty(cfg, local, s3, AT.SleepSpent(0));
    AT.SleepIsTotal(cfg, Init(cfg, local, s3), run, end, 0);
    GivenUpSpent(cfg, end);
  }

  lemma GivenUpSpent(cfg: Config, s: State)
    requires OnlyGivenUp(cfg, s)
    ensures AA.Total(s, AT.PutsSpent(0)) == cfg.maxRetry
    ensures cfg.Valid() ==> AA.Total(s, AT.SleepSpent(0)) == AT.Budget(cfg)
  {
    OnlyExhausted(cfg, s, AT.PutsSpent(0));
    OnlyExhausted(cfg, s, AT.SleepSpent(0));
  }

  lemma OnlyExhausted(cfg: Config, s: State, f: AA.Weight)
    requires OnlyGivenUp(cfg, s)
    ensures AA.Total(s, f) == f(AA.Exhausted, s.exhausted[0])
  {
    var it := s.exhausted[0];
    AA.SumAppend(AA.Exhausted, [], it, f);
    assert [] + [it] == s.exhausted;
    AA.SumWorkersIdle(1, f);
    assert seq(1, _ => Idle) == [Idle];
  }
}
