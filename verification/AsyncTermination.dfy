/** The uploader's retries are bounded, it runs down, and Stop drains it. */
module AsyncTermination {
  import opened Arithmetic
  import opened Base
  import opened AsyncUpload
  import opened AsyncAccounting

  // ---- retries ----

  /** By how much an item has been tried too often for the place it is in. */
  function Overtried(cfg: Config): Weight {
    (p: Place, it: Item) =>
      var allowed := if p.Exhausted? then cfg.maxRetry else cfg.maxRetry - 1;
      if it.attempts > allowed then it.attempts - allowed else 0
  }

  lemma OvertriedDelta(cfg: Config, s: State, l: Label)
    requires UploaderStep(cfg, s, l).Some?
    ensures UploaderDelta(cfg, s, l, Overtried(cfg)) <= 0
  {
  }

  lemma NeverOvertriedStep(cfg: Config, s: State, l: Label, s': State)
    requires cfg.Valid() && Next(cfg, s, l) == Some(s') && Total(s, Overtried(cfg)) == 0
    ensures Total(s', Overtried(cfg)) == 0
  {
    if ClientStep(cfg, s, l).Some? {
      ClientTotals(cfg, s, l, s', Overtried(cfg));
    } else {
      UploaderTotals(cfg, s, l, s', Overtried(cfg));
      OvertriedDelta(cfg, s, l);
    }
    TotalNonNegative(s', Overtried(cfg));
  }

  lemma {:induction false} NeverOvertried(cfg: Config, local: map<Key, Bytes>, s3: map<Key, Bytes>, run: seq<Label>,
      s: State)
    requires cfg.Valid() && Exec(cfg, Init(cfg, local, s3), run) == Some(s)
    ensures Total(s, Overtried(cfg)) == 0
    decreases |run|
  {
    if run == [] {
      InitEmpty(cfg, local, s3, Overtried(cfg));
    } else {
      var mid := Exec(cfg, Init(cfg, local, s3), run[..|run| - 1]).value;
      NeverOvertried(cfg, local, s3, run[..|run| - 1], mid);
      NeverOvertriedStep(cfg, mid, run[|run| - 1], s);
    }
  }

  /** Whether a step starts an S3 Put of item id, and how long it sends item id to sleep. */
  function PutStarted(cfg: Config, s: State, l: Label, id: nat): nat {
    match l
    case Read(w, ok) =>
      if w >= |s.workers| || !s.workers[w].Holding? || !ok then 0
      else if s.workers[w].item.key in s.local && s.workers[w].item.id == id then 1 else 0
    case _ => 0
  }

  function SecondsSlept(cfg: Config, s: State, l: Label, id: nat): nat {
    match l
    case Finish(w, ok) =>
      if w >= |s.workers| || !s.workers[w].Uploading? || ok || s.workers[w].item.id != id then 0
      else if s.workers[w].item.attempts + 1 < cfg.maxRetry then (s.workers[w].item.attempts + 1) * 2 else 0
    case _ => 0
  }

  /** The S3 Puts that a run makes for item id, and the seconds it backs off for it. */
  ghost function PutsFor(cfg: Config, s: State, run: seq<Label>, id: nat): nat
    decreases |run|
  {
    if run == [] then 0
    else
      var mid := Exec(cfg, s, run[..|run| - 1]);
      if mid.None? then 0
      else PutsFor(cfg, s, run[..|run| - 1], id) + PutStarted(cfg, mid.value, run[|run| - 1], id)
  }

  ghost function BackoffFor(cfg: Config, s: State, run: seq<Label>, id: nat): nat
    decreases |run|
  {
    if run == [] then 0
    else
      var mid := Exec(cfg, s, run[..|run| - 1]);
      if mid.None? then 0
      else BackoffFor(cfg, s, run[..|run| - 1], id) + SecondsSlept(cfg, mid.value, run[|run| - 1], id)
  }

  function PutsSpent(id: nat): Weight {
    (p: Place, it: Item) => if it.id == id then it.attempts + (if p.InUpload? || p.Uploaded? then 1 else 0) else 0
  }

  function SleepSpent(id: nat): Weight {
    (p: Place, it: Item) =>
      if it.id != id then 0 else if p.Exhausted? then it.attempts * (it.attempts - 1)
          else it.attempts * (it.attempts + 1)
  }

  lemma SpentDelta(cfg: Config, s: State, l: Label, id: nat)
    requires UploaderStep(cfg, s, l).Some?
    ensures UploaderDelta(cfg, s, l, PutsSpent(id)) == PutStarted(cfg, s, l, id)
  {
  }

  lemma SleptDelta(cfg: Config, s: State, l: Label, id: nat)
    requires UploaderStep(cfg, s, l).Some?
    ensures UploaderDelta(cfg, s, l, SleepSpent(id)) == SecondsSlept(cfg, s, l, id)
  {
    if l.Finish? {
      var a: int := s.workers[l.w].item.attempts;
      assert (a + 1) * (a + 2) - a * (a + 1) == (a + 1) * 2;
      assert (a + 1) * ((a + 1) - 1) == a * (a + 1);
    }
  }

  lemma ClientSpendsNothing(cfg: Config, s: State, l: Label, id: nat)
    requires ClientStep(cfg, s, l).Some?
    ensures PutStarted(cfg, s, l, id) == 0 && SecondsSlept(cfg, s, l, id) == 0
  {
  }

  lemma SpentStep(cfg: Config, s: State, l: Label, s': State, id: nat)
    requires Next(cfg, s, l) == Some(s')
    ensures Total(s', PutsSpent(id)) == Total(s, PutsSpent(id)) + PutStarted(cfg, s, l, id)
    ensures Total(s', SleepSpent(id)) == Total(s, SleepSpent(id)) + SecondsSlept(cfg, s, l, id)
  {
    if ClientStep(cfg, s, l).Some? {
      ClientTotals(cfg, s, l, s', PutsSpent(id));
      ClientTotals(cfg, s, l, s', SleepSpent(id));
      ClientSpendsNothing(cfg, s, l, id);
    } else {
      UploaderTotals(cfg, s, l, s', PutsSpent(id));
      UploaderTotals(cfg, s, l, s', SleepSpent(id));
      SpentDelta(cfg, s, l, id);
      SleptDelta(cfg, s, l, id);
    }
  }

  lemma {:induction false} PutsAreTotal(cfg: Config, init: State, run: seq<Label>, s: State, id: nat)
    requires Total(init, PutsSpent(id)) == 0 && Exec(cfg, init, run) == Some(s)
    ensures Total(s, PutsSpent(id)) == PutsFor(cfg, init, run, id)
    decreases |run|
  {
    if run != [] {
      var mid := Exec(cfg, init, run[..|run| - 1]).value;
      PutsAreTotal(cfg, init, run[..|run| - 1], mid, id);
      SpentStep(cfg, mid, run[|run| - 1], s, id);
    }
  }

  lemma {:induction false} SleepIsTotal(cfg: Config, init: State, run: seq<Label>, s: State, id: nat)
    requires Total(init, SleepSpent(id)) == 0 && Exec(cfg, init, run) == Some(s)
    ensures Total(s, SleepSpent(id)) == BackoffFor(cfg, init, run, id)
    decreases |run|
  {
    if run != [] {
      var mid := Exec(cfg, init, run[..|run| - 1]).value;
      SleepIsTotal(cfg, init, run[..|run| - 1], mid, id);
      SpentStep(cfg, mid, run[|run| - 1], s, id);
    }
  }

  function Budget(cfg: Config): (n: nat)
    requires cfg.Valid()
  {
    ProductMono(0, 0, cfg.maxRetry, cfg.maxRetry - 1);
    cfg.maxRetry * (cfg.maxRetry - 1)
  }

  lemma SleepWithinBudget(cfg: Config, id: nat)
    requires cfg.Valid()
    ensures BoundedWhereZero(SleepSpent(id), Allowance(Budget(cfg), id), Overtried(cfg))
  {
    forall p: Place, it: Item | Overtried(cfg)(p, it) == 0
      ensures SleepSpent(id)(p, it) <= Allowance(Budget(cfg), id)(p, it)
    {
      var a: int, m: int := it.attempts, cfg.maxRetry;
      if p.Exhausted? { if a > 0 { ProductMono(a, a - 1, m, m - 1); } } else { ProductMono(a, a + 1, m - 1, m); }
    }
  }

  lemma WithinAllowances(cfg: Config, s: State, id: nat)
    requires cfg.Valid() && Total(s, Overtried(cfg)) == 0 && 0 <= Total(s, WithId(id)) <= 1
    ensures Total(s, PutsSpent(id)) <= cfg.maxRetry
    ensures Total(s, SleepSpent(id)) <= Budget(cfg)
  {
    AllowanceOnce(s, cfg.maxRetry, id);
    TotalBound(s, PutsSpent(id), Allowance(cfg.maxRetry, id), Overtried(cfg));
    AllowanceOnce(s, Budget(cfg), id);
    SleepWithinBudget(cfg, id);
    TotalBound(s, SleepSpent(id), Allowance(Budget(cfg), id), Overtried(cfg));
  }

  lemma OneOfEach(cfg: Config, local: map<Key, Bytes>, s3: map<Key, Bytes>, run: seq<Label>, s: State, id: nat)
    requires cfg.Valid() && Exec(cfg, Init(cfg, local, s3), run) == Some(s)
    ensures Total(s, Overtried(cfg)) == 0 && 0 <= Total(s, WithId(id)) <= 1
  {
    NeverOvertried(cfg, local, s3, run, s);
    AccountedRun(cfg, local, s3, run, s);
    assert Total(s, WithId(id)) == if id < s.accepted then 1 else 0;
  }

  /** An accepted upload costs at most maxRetry S3 Puts. */
  lemma PutsBounded(cfg: Config, local: map<Key, Bytes>, s3: map<Key, Bytes>, run: seq<Label>, s: State, id: nat)
    requires cfg.Valid() && Exec(cfg, Init(cfg, local, s3), run) == Some(s)
    ensures PutsFor(cfg, Init(cfg, local, s3), run, id) <= cfg.maxRetry
  {
    InitEmpty(cfg, local, s3, PutsSpent(id));
    PutsAreTotal(cfg, Init(cfg, local, s3), run, s, id);
    OneOfEach(cfg, local, s3, run, s, id);
    WithinAllowances(cfg, s, id);
  }

  /** ... and at most maxRetry * (maxRetry - 1) seconds of backoff. */
  lemma BackoffBounded(cfg: Config, local: map<Key, Bytes>, s3: map<Key, Bytes>, run: seq<Label>, s: State, id: nat)
    requires cfg.Valid() && Exec(cfg, Init(cfg, local, s3), run) == Some(s)
    ensures BackoffFor(cfg, Init(cfg, local, s3), run, id) <= Budget(cfg)
  {
    InitEmpty(cfg, local, s3, SleepSpent(id));
    SleepIsTotal(cfg, Init(cfg, local, s3), run, s, id);
    OneOfEach(cfg, local, s3, run, s, id);
    WithinAllowances(cfg, s, id);
  }

  // ---- running down ----

  predicate IsUploaderLabel(l: Label) {
    l.Take? || l.Read? || l.Apply? || l.Finish? || l.Wake? || l.Exit?
  }

  /** How many more steps an item can take: by the tries left, then by the way to its next upload. */
  function Rank(cfg: Config): Weight {
    (p: Place, it: Item) =>
      if it.attempts >= cfg.maxRetry then 0
      else
        var tries: int := cfg.maxRetry - it.attempts;
        match p
        case Asleep => 5 * tries + 4
        case Queued => 5 * tries + 3
        case Held => 5 * tries + 2
        case InUpload(applied) => 5 * tries + (if applied then 0 else 1)
        case _ => 0
  }

  function Alive(workers: seq<Worker>): nat {
    if workers == [] then 0 else Alive(workers[..|workers| - 1]) + if workers[|workers| - 1].Exited? then 0 else 1
  }

  function Measure(cfg: Config, s: State): int { Total(s, Rank(cfg)) + Alive(s.workers) }

  lemma {:induction false} AliveUpdate(workers: seq<Worker>, w: nat, worker: Worker)
    requires w < |workers|
    ensures Alive(workers[w := worker])
        == Alive(workers) - (if workers[w].Exited? then 0 else 1) + (if worker.Exited? then 0 else 1)
    decreases |workers|
  {
    var n := |workers| - 1;
    if w == n {
      assert workers[w := worker][..n] == workers[..n];
    } else {
      AliveUpdate(workers[..n], w, worker);
      assert workers[w := worker][..n] == workers[..n][w := worker];
    }
  }

  /** The item a step of the uploader moves has tries left. */
  lemma MovedHasTriesLeft(cfg: Config, s: State, l: Label)
    requires cfg.Valid() && Total(s, Overtried(cfg)) == 0 && UploaderStep(cfg, s, l).Some?
    ensures l.Take? ==> s.queue[0].attempts < cfg.maxRetry
    ensures l.Read? || l.Apply? || l.Finish? ==> s.workers[l.w].item.attempts < cfg.maxRetry
    ensures l.Wake? ==> s.sleepers[l.i].attempts < cfg.maxRetry
  {
    var h := Overtried(cfg);
    TotalNonNegative(s, h);
    SumNonNegative(Queued, s.queue, h);
    SumNonNegative(Asleep, s.sleepers, h);
    SumWorkersNonNegative(s.workers, h);
    if l.Take? { assert h(Queued, s.queue[0]) == 0; }
    if l.Wake? { assert h(Asleep, s.sleepers[l.i]) == 0; }
    if l.Read? || l.Apply? || l.Finish? { assert WorkerWeight(s.workers[l.w], h) == 0; }
  }

  lemma RankFalls(cfg: Config, s: State, l: Label)
    requires cfg.Valid() && Total(s, Overtried(cfg)) == 0 && UploaderStep(cfg, s, l).Some?
    requires IsUploaderLabel(l) && QueueOpenOrNoWake(s, l)
    ensures UploaderDelta(cfg, s, l, Rank(cfg)) <= if l.Exit? then 0 else -1
  {
    MovedHasTriesLeft(cfg, s, l);
  }

  predicate QueueOpenOrNoWake(s: State, l: Label) { l.Wake? ==> QueueOpen(s) }

  lemma WorkersAlive(cfg: Config, s: State, l: Label, s': State)
    requires UploaderStep(cfg, s, l) == Some(s')
    ensures Alive(s'.workers) == Alive(s.workers) - if l.Exit? then 1 else 0
  {
    if l.Take? || l.Read? || l.Apply? || l.Finish? || l.Exit? { AliveUpdate(s.workers, l.w, s'.workers[l.w]); }
  }

  /** Every step of a worker and every wake-up, unless it crashes, strictly lowers the measure. */
  lemma MeasureFalls(cfg: Config, s: State, l: Label, s': State)
    requires cfg.Valid() && Total(s, Overtried(cfg)) == 0
    requires Next(cfg, s, l) == Some(s') && IsUploaderLabel(l) && !s'.phase.Crashed?
    ensures 0 <= Measure(cfg, s') < Measure(cfg, s)
  {
    UploaderTotals(cfg, s, l, s', Rank(cfg));
    RankFalls(cfg, s, l);
    WorkersAlive(cfg, s, l, s');
    MeasureNotNegative(cfg, s');
  }

  lemma MeasureNotNegative(cfg: Config, s: State)
    ensures Measure(cfg, s) >= 0
  {
    TotalNonNegative(s, Rank(cfg));
  }

  /** How many steps of a run are the workers' and the retries' own. */
  function UploaderSteps(run: seq<Label>): nat {
    if run == [] then 0 else UploaderSteps(run[..|run| - 1]) + if IsUploaderLabel(run[|run| - 1]) then 1 else 0
  }

  lemma OthersKeepMeasure(cfg: Config, s: State, l: Label, s': State)
    requires Next(cfg, s, l) == Some(s') && !IsUploaderLabel(l)
    requires ClientStep(cfg, s, l).Some? ==> Accepted(cfg, s, l).None?
    ensures Measure(cfg, s') == Measure(cfg, s)
  {
    if ClientStep(cfg, s, l).Some? {
      ClientTotals(cfg, s, l, s', Rank(cfg));
      ClientItems(cfg, s, l, s');
    } else {
      StopKeepsItems(cfg, s, l, s');
    }
  }

  lemma StopKeepsItems(cfg: Config, s: State, l: Label, s': State)
    requires UploaderStep(cfg, s, l) == Some(s') && !IsUploaderLabel(l)
    ensures s' == s.(phase := s'.phase)
  {
  }

  /**
    After the last accepted Enqueue, whatever else clients, cleanup and Stop do, the workers and the
    retries take at most as many steps as the measure.
   */
  lemma {:induction false} Quiesces(cfg: Config, s: State, run: seq<Label>, s': State)
    requires cfg.Valid() && Total(s, Overtried(cfg)) == 0 && Exec(cfg, s, run) == Some(s') && !s'.phase.Crashed?
    requires TrueEnqueues(cfg, s, run) == 0
    ensures Total(s', Overtried(cfg)) == 0
    ensures UploaderSteps(run) + Measure(cfg, s') <= Measure(cfg, s) && 0 <= Measure(cfg, s')
    decreases |run|
  {
    if run == [] {
      MeasureNotNegative(cfg, s);
    } else {
      var mid := Exec(cfg, s, run[..|run| - 1]).value;
      Quiesces(cfg, s, run[..|run| - 1], mid);
      NeverOvertriedStep(cfg, mid, run[|run| - 1], s');
      if IsUploaderLabel(run[|run| - 1]) { MeasureFalls(cfg, mid, run[|run| - 1], s'); }
      else { OthersKeepMeasure(cfg, mid, run[|run| - 1], s'); }
    }
  }

  // ---- Stop ----

  /** A worker exits only from a closed, empty queue; Stop returns only when all have. */
  ghost predicate StopInv(s: State) {
    && (forall w :: 0 <= w < |s.workers| && s.workers[w].Exited? ==> !QueueOpen(s) && s.queue == [])
    && (s.phase.Stopped? ==> forall w :: 0 <= w < |s.workers| ==> s.workers[w].Exited?)
  }

  lemma StopInvStep(cfg: Config, s: State, l: Label, s': State)
    requires StopInv(s) && Next(cfg, s, l) == Some(s')
    ensures StopInv(s')
  {
    if ClientStep(cfg, s, l).Some? { ClientItems(cfg, s, l, s'); } else { StopInvUploader(cfg, s, l, s'); }
  }

  lemma StopInvUploader(cfg: Config, s: State, l: Label, s': State)
    requires StopInv(s) && UploaderStep(cfg, s, l) == Some(s')
    ensures StopInv(s')
  {
    UploaderWorkers(cfg, s, l, s');
    UploaderPhase(cfg, s, l, s');
  }

  /** Only the worker of the step changes; it exits only by its own step. */
  lemma UploaderWorkers(cfg: Config, s: State, l: Label, s': State)
    requires UploaderStep(cfg, s, l) == Some(s')
    ensures
      if IsUploaderLabel(l) && !l.Wake? then
        && l.w < |s.workers| && |s'.workers| == |s.workers| && s'.workers == s.workers[l.w := s'.workers[l.w]]
        && !s.workers[l.w].Exited? && (s'.workers[l.w].Exited? <==> l.Exit?)
      else s'.workers == s.workers
    ensures l.Exit? ==> s.phase.Closed? && s.queue == []
  {
  }

  /** The phase only goes on, and a queue that is not open only shrinks. */
  lemma UploaderPhase(cfg: Config, s: State, l: Label, s': State)
    requires UploaderStep(cfg, s, l) == Some(s')
    ensures !QueueOpen(s) ==> !QueueOpen(s') && |s'.queue| <= |s.queue|
    ensures l.Exit? ==> s'.phase == s.phase && s'.queue == s.queue
    ensures s'.phase.Stopped? && !s.phase.Stopped? ==>
      s'.workers == s.workers && forall w :: 0 <= w < |s.workers| ==> s.workers[w].Exited?
  {
  }

  lemma {:induction false} StopInvRun(cfg: Config, local: map<Key, Bytes>, s3: map<Key, Bytes>, run: seq<Label>,
      s: State)
    requires Exec(cfg, Init(cfg, local, s3), run) == Some(s)
    ensures StopInv(s)
    decreases |run|
  {
    if run != [] {
      var mid := Exec(cfg, Init(cfg, local, s3), run[..|run| - 1]).value;
      StopInvRun(cfg, local, s3, run[..|run| - 1], mid);
      StopInvStep(cfg, mid, run[|run| - 1], s);
    }
  }

  lemma {:induction false} NoneBusy(workers: seq<Worker>)
    requires forall w :: 0 <= w < |workers| ==> !workers[w].Holding? && !workers[w].Uploading?
    ensures Busy(workers) == 0
    decreases |workers|
  {
    if workers != [] { NoneBusy(workers[..|workers| - 1]); }
  }

  /**
    When Stop returns the queue is empty and no worker holds an item, so every accepted upload has ended
    except the sleeping retries.
   */
  lemma StopDrains(cfg: Config, local: map<Key, Bytes>, s3: map<Key, Bytes>, run: seq<Label>, s: State)
    requires cfg.Valid() && Exec(cfg, Init(cfg, local, s3), run) == Some(s) && s.phase.Stopped?
    ensures s.queue == [] && forall w :: 0 <= w < |s.workers| ==> s.workers[w].Exited?
    ensures |s.sleepers| + |s.uploaded| + |s.missing| + |s.exhausted| + |s.dropped|
         == TrueEnqueues(cfg, Init(cfg, local, s3), run)
  {
    StopInvRun(cfg, local, s3, run, s);
    Conservation(cfg, local, s3, run, s);
    assert s.workers[0].Exited?;
    NoneBusy(s.workers);
  }

  /** A step by which some Hybrid.Put returns nil. */
  predicate Acknowledges(cfg: Config, s: State, l: Label) {
    (l.Send? && Accepted(cfg, s, l).Some?) || (l.SyncDone? && l.ok && s.At(l.c).Syncing? && s.At(l.c).applied)
  }

  /** Once the queue is closed, a Put returns nil only after S3 has taken its upload. */
  lemma AckAfterCloseIsInS3(cfg: Config, s: State, l: Label, s': State)
    requires Next(cfg, s, l) == Some(s') && !QueueOpen(s)
    ensures s'.acked != s.acked ==> Acknowledges(cfg, s, l)
    ensures Acknowledges(cfg, s, l) ==> l.SyncDone? && s.At(l.c).applied && s'.acked == s.acked + {s.At(l.c).key}
  {
    if ClientStep(cfg, s, l).None? { UploaderKeepsAcked(cfg, s, l, s'); }
  }

  lemma UploaderKeepsAcked(cfg: Config, s: State, l: Label, s': State)
    requires UploaderStep(cfg, s, l) == Some(s')
    ensures s'.acked == s.acked
  {
  }

  /** While anything is queued, held or asleep and the program runs, the uploader can take a step. */
  lemma UploaderCanGoOn(cfg: Config, s: State) returns (l: Label)
    requires cfg.Valid() && StopInv(s) && |s.workers| == cfg.workers && !s.phase.Crashed?
    requires
      || s.queue != [] || s.sleepers != []
      || exists w :: 0 <= w < |s.workers| && (s.workers[w].Holding? || s.workers[w].Uploading?)
    ensures IsUploaderLabel(l) && Next(cfg, s, l).Some?
  {
    if s.sleepers != [] { return Wake(0); }
    if w :| 0 <= w < |s.workers| && (s.workers[w].Holding? || s.workers[w].Uploading?) {
      return if s.workers[w].Holding? then Read(w, false) else Finish(w, false);
    }
    assert !s.workers[0].Exited?;
    l := Take(0);
  }
}
