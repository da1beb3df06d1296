/** Every kind of step that the convergence guard is about can break it: runs that show how. */
module AsyncDivergence {
  import opened Base
  import opened AsyncUpload
  import opened AsyncAccounting
  import opened AsyncConvergence

  // ---- building runs ----

  /** A guarded run, and a calm one if `calm`, leads from an empty local tier to s. */
  ghost predicate Reached(cfg: Config, s3: map<Key, Bytes>, calm: bool, s: State) {
    exists run :: Led(cfg, s3, calm, run, s)
  }

  ghost predicate Led(cfg: Config, s3: map<Key, Bytes>, calm: bool, run: seq<Label>, s: State) {
    var init := Init(cfg, map[], s3);
    Exec(cfg, init, run) == Some(s) && GuardedRun(cfg, init, run) && (calm ==> CalmRun(cfg, init, run))
  }

  lemma Start(cfg: Config, s3: map<Key, Bytes>, calm: bool) returns (s: State)
    ensures s == Init(cfg, map[], s3) && Reached(cfg, s3, calm, s)
  {
    s := Init(cfg, map[], s3);
    assert Led(cfg, s3, calm, [], s);
  }

  lemma Step(cfg: Config, s3: map<Key, Bytes>, calm: bool, s: State, l: Label, s': State)
    requires Reached(cfg, s3, calm, s) && Next(cfg, s, l) == Some(s')
    requires Guard(s, l) && (calm ==> NoFallback(cfg, s, l))
    ensures Reached(cfg, s3, calm, s')
  {
    var run :| Led(cfg, s3, calm, run, s);
    assert (run + [l])[..|run|] == run;
    assert Led(cfg, s3, calm, run + [l], s');
  }

  /** Client 0 puts b at k and is about to enqueue its upload. */
  lemma PutChecked(cfg: Config, s3: map<Key, Bytes>, calm: bool, s: State, k: Key, b: Bytes) returns (s': State)
    requires Reached(cfg, s3, calm, s) && s.phase.Running? && s.At(0).Away?
    ensures Reached(cfg, s3, calm, s') && s' == s.(local := s.local[k := b], clients := s.clients[0 := Admitted(k)])
  {
    var stored := s.(local := s.local[k := b], clients := s.clients[0 := Client.Stored(k)]);
    s' := s.(local := s.local[k := b], clients := s.clients[0 := Admitted(k)]);
    PutLands(cfg, s, k, b);
    CheckAfterPut(cfg, s, k, b);
    Step(cfg, s3, calm, s, PutLocal(0, k, b), stored);
    Step(cfg, s3, calm, stored, CheckRunning(0), s');
  }

  lemma CheckAfterPut(cfg: Config, s: State, k: Key, b: Bytes)
    requires s.phase.Running?
    ensures
      var stored := s.(local := s.local[k := b], clients := s.clients[0 := Client.Stored(k)]);
      Next(cfg, stored, CheckRunning(0))
        == Some(s.(local := s.local[k := b], clients := s.clients[0 := Admitted(k)]))
  {
    var stored := s.(local := s.local[k := b], clients := s.clients[0 := Client.Stored(k)]);
    CheckLands(cfg, stored, 0);
    assert stored.clients[0 := Admitted(k)] == s.clients[0 := Admitted(k)];
  }

  lemma PutLands(cfg: Config, s: State, k: Key, b: Bytes)
    requires s.At(0).Away? && !s.phase.Crashed?
    ensures Next(cfg, s, PutLocal(0, k, b)) == Some(s.(local := s.local[k := b], clients := s.clients[0 := Stored(k)]))
  {
  }

  lemma CheckLands(cfg: Config, s: State, c: nat)
    requires s.At(c).Stored? && s.phase.Running?
    ensures Next(cfg, s, CheckRunning(c)) == Some(s.(clients := s.clients[c := Admitted(s.At(c).key)]))
  {
  }

  /** Client 0 has put b at k and its upload is the one queued. */
  function AfterPut(s: State, k: Key, b: Bytes): State {
    s.(local := s.local[k := b], clients := s.clients[0 := Away],
       queue := [Item(s.accepted, k, 0)], accepted := s.accepted + 1, acked := s.acked + {k})
  }

  lemma PutQueued(cfg: Config, s3: map<Key, Bytes>, calm: bool, s: State, k: Key, b: Bytes)
    requires Reached(cfg, s3, calm, s) && s.phase.Running? && s.queue == [] && cfg.capacity >= 1 && s.At(0).Away?
    ensures Reached(cfg, s3, calm, AfterPut(s, k, b))
  {
    var checked := PutChecked(cfg, s3, calm, s, k, b);
    SendAfterPut(cfg, s, k, b);
    Step(cfg, s3, calm, checked, Send(0), AfterPut(s, k, b));
  }

  lemma SendAfterPut(cfg: Config, s: State, k: Key, b: Bytes)
    requires s.phase.Running? && s.queue == [] && cfg.capacity >= 1
    ensures Next(cfg, s.(local := s.local[k := b], clients := s.clients[0 := Admitted(k)]), Send(0))
         == Some(AfterPut(s, k, b))
  {
    var checked := s.(local := s.local[k := b], clients := s.clients[0 := Admitted(k)]);
    SendLands(cfg, checked, 0);
    assert checked.clients[0 := Away] == s.clients[0 := Away];
    assert s.queue + [Item(s.accepted, k, 0)] == [Item(s.accepted, k, 0)];
  }

  lemma SendLands(cfg: Config, s: State, c: nat)
    requires s.At(c).Admitted? && s.phase.Running? && |s.queue| < cfg.capacity
    ensures Next(cfg, s, Send(c)) == Some(s.(queue := s.queue + [Item(s.accepted, s.At(c).key, 0)],
      accepted := s.accepted + 1, acked := s.acked + {s.At(c).key}, clients := s.clients[c := Away]))
  {
  }

  /** Worker w takes the one queued item. */
  lemma Taken(cfg: Config, s3: map<Key, Bytes>, calm: bool, s: State, w: nat, it: Item) returns (s': State)
    requires Reached(cfg, s3, calm, s) && s.phase.Running? && s.queue == [it] && w < |s.workers| && s.workers[w].Idle?
    ensures Reached(cfg, s3, calm, s') && s' == s.(queue := [], workers := s.workers[w := Holding(it)])
    ensures Next(cfg, s, Take(w)) == Some(s') && forall c: nat :: s'.At(c) == s.At(c)
  {
    s' := s.(queue := [], workers := s.workers[w := Holding(it)]);
    assert [it][1..] == [];
    Step(cfg, s3, calm, s, Take(w), s');
  }

  /** ... and opens its local content, while no other worker and no client carries anything. */
  lemma TakenAndRead(cfg: Config, s3: map<Key, Bytes>, calm: bool, s: State, w: nat, it: Item) returns (s': State)
    requires Reached(cfg, s3, calm, s) && s.phase.Running? && s.queue == [it] && it.key in s.local
    requires w < |s.workers| && (forall v :: 0 <= v < |s.workers| ==> s.workers[v].Idle?)
    requires forall c: nat :: !s.At(c).Syncing?
    ensures Reached(cfg, s3, calm, s')
    ensures s' == s.(queue := [], workers := s.workers[w := Uploading(it, s.local[it.key], false)])
  {
    var taken := Taken(cfg, s3, calm, s, w, it);
    s' := s.(queue := [], workers := s.workers[w := Uploading(it, s.local[it.key], false)]);
    ReadLands(cfg, s, w, it);
    NothingCarried(taken, w, it);
    Step(cfg, s3, calm, taken, Read(w, true), s');
  }

  lemma ReadLands(cfg: Config, s: State, w: nat, it: Item)
    requires s.phase.Running? && w < |s.workers| && it.key in s.local
    ensures Next(cfg, s.(queue := [], workers := s.workers[w := Holding(it)]), Read(w, true))
         == Some(s.(queue := [], workers := s.workers[w := Uploading(it, s.local[it.key], false)]))
  {
    var worker := Uploading(it, s.local[it.key], false);
    assert s.workers[w := Holding(it)][w := worker] == s.workers[w := worker];
  }

  lemma NothingCarried(s: State, w: nat, it: Item)
    requires w < |s.workers| && s.workers[w] == Holding(it)
    requires forall v :: 0 <= v < |s.workers| ==> !s.workers[v].Uploading?
    requires forall c: nat :: !s.At(c).Syncing?
    ensures Guard(s, Read(w, true))
  {
  }

  /** Worker w's upload succeeds. */
  lemma UploadSucceeds(cfg: Config, s3: map<Key, Bytes>, calm: bool, s: State, w: nat, it: Item, b: Bytes)
    returns (s': State)
    requires Reached(cfg, s3, calm, s) && s.phase.Running? && w < |s.workers| && s.workers[w] == Uploading(it, b, false)
    ensures Reached(cfg, s3, calm, s')
    ensures s' == s.(s3 := s.s3[it.key := b], workers := s.workers[w := Idle], uploaded := s.uploaded + [it])
  {
    var taken := s.(s3 := s.s3[it.key := b], workers := s.workers[w := Uploading(it, b, true)]);
    s' := s.(s3 := s.s3[it.key := b], workers := s.workers[w := Idle], uploaded := s.uploaded + [it]);
    UploadLands(cfg, s, w, it, b);
    Step(cfg, s3, calm, s, Apply(w), taken);
    Step(cfg, s3, calm, taken, Finish(w, true), s');
  }

  lemma UploadLands(cfg: Config, s: State, w: nat, it: Item, b: Bytes)
    requires s.phase.Running? && w < |s.workers| && s.workers[w] == Uploading(it, b, false)
    ensures
      var taken := s.(s3 := s.s3[it.key := b], workers := s.workers[w := Uploading(it, b, true)]);
      var done := s.(s3 := s.s3[it.key := b], workers := s.workers[w := Idle], uploaded := s.uploaded + [it]);
      Next(cfg, s, Apply(w)) == Some(taken) && Next(cfg, taken, Finish(w, true)) == Some(done)
  {
    assert s.workers[w := Uploading(it, b, true)][w := Idle] == s.workers[w := Idle];
  }

  lemma {:induction false} NoWorkerPending(workers: seq<Worker>, k: Key)
    requires forall w :: 0 <= w < |workers| ==> !workers[w].Holding?
    ensures SumWorkers(workers, Pending(k)) == 0
    decreases |workers|
  {
    if workers != [] { NoWorkerPending(workers[..|workers| - 1], k); }
  }

  /** Only what is queued is pending. */
  lemma OnlyQueued(s: State, k: Key)
    requires s.sleepers == [] && s.missing == [] && s.exhausted == [] && s.dropped == []
    requires forall w :: 0 <= w < |s.workers| ==> !s.workers[w].Holding?
    ensures Total(s, Pending(k)) == Sum(Queued, s.queue, Pending(k))
  {
    NoWorkerPending(s.workers, k);
    NothingForUploaded(s.uploaded, k);
  }

  // ---- the runs ----

  /** The state with one upload of b under way at worker 0. */
  function InHand(cfg: Config, k: Key, b: Bytes, local: Bytes): State
    requires cfg.workers >= 1
  {
    Init(cfg, map[k := local], map[]).(
      workers := seq(cfg.workers, _ => Idle)[0 := Uploading(Item(0, k, 0), b, false)],
      clients := map[0 := Away], accepted := 1, acked := {k})
  }

  lemma FirstValueInHand(cfg: Config, calm: bool, k: Key)
    requires cfg.Valid()
    ensures Reached(cfg, map[], calm, InHand(cfg, k, [1], [1]))
  {
    var s := Start(cfg, map[], calm);
    PutQueued(cfg, map[], calm, s, k, [1]);
    s := TakenAndRead(cfg, map[], calm, AfterPut(s, k, [1]), 0, Item(0, k, 0));
    assert s == InHand(cfg, k, [1], [1]);
  }

  /** Worker 0 has the content [1] of k open when client 0 replaces it by [2] and queues the new upload. */
  lemma OldValueInHand(cfg: Config, k: Key) returns (s: State)
    requires cfg.Valid()
    ensures Reached(cfg, map[], true, s)
    ensures s == InHand(cfg, k, [1], [2]).(queue := [Item(1, k, 0)], accepted := 2)
  {
    FirstValueInHand(cfg, true, k);
    PutQueued(cfg, map[], true, InHand(cfg, k, [1], [1]), k, [2]);
    s := AfterPut(InHand(cfg, k, [1], [1]), k, [2]);
    assert s == InHand(cfg, k, [1], [2]).(queue := [Item(1, k, 0)], accepted := 2);
  }

  /** A second worker opens the newer content while the first still carries the older. */
  lemma ReadCanBreak(cfg: Config, k: Key) returns (s: State)
    requires cfg.Valid() && cfg.workers >= 2
    ensures Reached(cfg, map[], true, s) && Next(cfg, s, Read(1, true)).Some? && !Guard(s, Read(1, true))
  {
    var queued := OldValueInHand(cfg, k);
    s := Taken(cfg, map[], true, queued, 1, Item(1, k, 0));
    OnlyQueued(queued, k);
    UploaderTotals(cfg, queued, Take(1), s, Pending(k));
    PendingDelta(cfg, queued, Take(1), k);
    ReadBreaks(s, Item(1, k, 0));
  }

  lemma ReadBreaks(s: State, it: Item)
    requires |s.workers| >= 2 && s.workers[1] == Holding(it) && it.key in s.local
    requires WorkerCarries(s.workers[0], it.key) && s.workers[0].body != s.local[it.key]
    requires Total(s, Pending(it.key)) < 2 && s.failed == {} && s.clients == map[0 := Away]
    ensures !Guard(s, Read(1, true))
  {
  }

  /** Client 0 has put [2] at k and, the uploader being stopped, falls back. */
  function Behind(cfg: Config, k: Key): State
    requires cfg.workers >= 1
  {
    InHand(cfg, k, [1], [2]).(clients := map[0 := FallingBack(k)], phase := Stopping)
  }

  lemma BehindIsReached(cfg: Config, k: Key)
    requires cfg.Valid()
    ensures Reached(cfg, map[], false, Behind(cfg, k))
  {
    var before := InHand(cfg, k, [1], [1]);
    var put := InHand(cfg, k, [1], [2]).(clients := map[0 := Client.Stored(k)]);
    FirstValueInHand(cfg, false, k);
    PutLands(cfg, before, k, [2]);
    assert before.(local := before.local[k := [2]], clients := before.clients[0 := Client.Stored(k)]) == put;
    Step(cfg, map[], false, before, PutLocal(0, k, [2]), put);
    StopAndFallBack(cfg, put, k, Behind(cfg, k));
  }

  lemma StopAndFallBack(cfg: Config, put: State, k: Key, s: State)
    requires Reached(cfg, map[], false, put) && put.phase.Running? && put.clients == map[0 := Client.Stored(k)]
    requires s == put.(clients := map[0 := FallingBack(k)], phase := Stopping)
    ensures Reached(cfg, map[], false, s)
  {
    var stopping := put.(phase := Stopping);
    Step(cfg, map[], false, put, ClearRunning, stopping);
    assert stopping.clients[0 := FallingBack(k)] == s.clients;
    Step(cfg, map[], false, stopping, CheckRunning(0), s);
  }

  /** A fallback opens the newer content while the only worker still carries the older. */
  lemma FallbackCanBreak(cfg: Config, k: Key) returns (s: State)
    requires cfg.Valid()
    ensures Reached(cfg, map[], false, s) && Next(cfg, s, SyncRead(0, true)).Some? && !Guard(s, SyncRead(0, true))
  {
    s := Behind(cfg, k);
    BehindIsReached(cfg, k);
    OnlyQueued(s, k);
    assert WorkerCarries(s.workers[0], k) && s.workers[0].body != s.local[k];
  }

  /** The one upload so far has succeeded, and client 1 is at `other`. */
  function Uploaded(cfg: Config, k: Key, other: Client): State
    requires cfg.workers >= 1
  {
    Init(cfg, map[k := [1]], map[k := [1]]).(
      clients := map[0 := Away, 1 := other], accepted := 1, acked := {k}, uploaded := [Item(0, k, 0)])
  }

  /** ... and before it was taken. */
  function Waiting(cfg: Config, s3: map<Key, Bytes>, k: Key, other: Client): State {
    Init(cfg, map[k := [1]], s3).(
      clients := map[0 := Away, 1 := other], accepted := 1, acked := {k}, queue := [Item(0, k, 0)])
  }

  lemma UploadedIsReached(cfg: Config, s3: map<Key, Bytes>, k: Key, s: State, other: Client)
    requires cfg.Valid() && Reached(cfg, s3, true, s) && s3.Keys <= {k} && !other.Syncing?
    requires s == Init(cfg, map[], s3).(clients := map[1 := other])
    ensures Reached(cfg, s3, true, Uploaded(cfg, k, other))
  {
    PutQueued(cfg, s3, true, s, k, [1]);
    assert AfterPut(s, k, [1]) == Waiting(cfg, s3, k, other) by { PutWaits(cfg, s3, k, other); }
    WaitingIsReached(cfg, s3, k, other);
  }

  lemma PutWaits(cfg: Config, s3: map<Key, Bytes>, k: Key, other: Client)
    ensures AfterPut(Init(cfg, map[], s3).(clients := map[1 := other]), k, [1]) == Waiting(cfg, s3, k, other)
  {
    assert map[1 := other][0 := Away] == map[0 := Away, 1 := other];
    assert map[][k := [1]] == map[k := [1]];
  }

  lemma WaitingIsReached(cfg: Config, s3: map<Key, Bytes>, k: Key, other: Client)
    requires cfg.Valid() && Reached(cfg, s3, true, Waiting(cfg, s3, k, other)) && s3.Keys <= {k} && !other.Syncing?
    ensures Reached(cfg, s3, true, Uploaded(cfg, k, other))
  {
    var queued := Waiting(cfg, s3, k, other);
    UploadRuns(cfg, s3, queued, k, [1]);
    assert s3[k := [1]] == map[k := [1]] && [] + [Item(0, k, 0)] == [Item(0, k, 0)];
    assert queued.(queue := [], s3 := s3[k := [1]], uploaded := [Item(0, k, 0)]) == Uploaded(cfg, k, other);
  }

  /** The one queued upload is taken and succeeds. */
  lemma UploadRuns(cfg: Config, s3: map<Key, Bytes>, s: State, k: Key, b: Bytes)
    requires Reached(cfg, s3, true, s) && s.phase.Running? && s.queue == [Item(0, k, 0)]
    requires k in s.local && s.local[k] == b && s.workers != [] && forall c: nat :: !s.At(c).Syncing?
    requires forall v :: 0 <= v < |s.workers| ==> s.workers[v].Idle?
    ensures Reached(cfg, s3, true, s.(queue := [], s3 := s.s3[k := b], uploaded := s.uploaded + [Item(0, k, 0)]))
  {
    var read := TakenAndRead(cfg, s3, true, s, 0, Item(0, k, 0));
    var done := UploadSucceeds(cfg, s3, true, read, 0, Item(0, k, 0), b);
    assert done.workers == s.workers;
  }

  /** A Get fetched the older content from S3; it backfills after the newer one has been put and uploaded. */
  lemma BackfillCanBreak(cfg: Config, k: Key) returns (s: State)
    requires cfg.Valid()
    ensures Reached(cfg, map[k := [0]], true, s) && Next(cfg, s, Fill(1, true)).Some? && !Guard(s, Fill(1, true))
    ensures s == Uploaded(cfg, k, Fetched(k, [0]))
  {
    var s3: map<Key, Bytes> := map[k := [0]];
    var s0 := Start(cfg, s3, true);
    var s1 := s0.(clients := map[1 := Fetched(k, [0])]);
    Step(cfg, s3, true, s0, Fetch(1, k), s1);
    UploadedIsReached(cfg, s3, k, s1, Fetched(k, [0]));
    s := Uploaded(cfg, k, Fetched(k, [0]));
    NothingAhead(cfg, k, Fetched(k, [0]));
  }

  /** A backfill that lands on a newer entry leaves local and S3 apart, even with one worker and no failure. */
  lemma RacingBackfillDiverges(cfg: Config, k: Key)
    requires cfg.Valid()
    ensures exists s, s' ::
      && Reached(cfg, map[k := [0]], true, s) && Next(cfg, s, Fill(1, true)) == Some(s')
      && Settled(s', k) && !Lost(s', k) && k in s'.local && k in s'.s3 && s'.local[k] == [0] && s'.s3[k] == [1]
  {
    var s := BackfillCanBreak(cfg, k);
    var s' := s.(local := map[k := [0]], clients := map[0 := Away, 1 := Away]);
    FillLands(cfg, k);
    assert Settled(s', k) && !Lost(s', k);
  }

  lemma FillLands(cfg: Config, k: Key)
    requires cfg.workers >= 1
    ensures
      var s := Uploaded(cfg, k, Fetched(k, [0]));
      Next(cfg, s, Fill(1, true)) == Some(s.(local := map[k := [0]], clients := map[0 := Away, 1 := Away]))
  {
    var s := Uploaded(cfg, k, Fetched(k, [0]));
    assert s.local[k := [0]] == map[k := [0]] && s.clients[1 := Away] == map[0 := Away, 1 := Away];
  }

  lemma NothingAhead(cfg: Config, k: Key, other: Client)
    requires cfg.workers >= 1 && (other.Away? || other.Fetched?)
    ensures !Owed(Uploaded(cfg, k, other), k) && !Carried(Uploaded(cfg, k, other), k)
  {
    OnlyQueued(Uploaded(cfg, k, other), k);
  }

  /** A Delete removes its object from S3 after the key has been put anew and uploaded. */
  lemma DeleteCanBreak(cfg: Config, k: Key) returns (s: State)
    requires cfg.Valid()
    ensures Reached(cfg, map[], true, s) && Next(cfg, s, DeleteS3(k)).Some? && !Guard(s, DeleteS3(k))
  {
    FirstValueInHand(cfg, true, k);
    s := UploadSucceeds(cfg, map[], true, InHand(cfg, k, [1], [1]), 0, Item(0, k, 0), [1]);
    DeleteBreaks(s, k);
  }

  lemma DeleteBreaks(s: State, k: Key)
    requires k in s.local && s.queue == [] && s.clients == map[0 := Away] && s.failed == {}
    requires s.sleepers == [] && s.missing == [] && s.exhausted == [] && s.dropped == []
    requires forall w :: 0 <= w < |s.workers| ==> s.workers[w].Idle?
    ensures !Guard(s, DeleteS3(k))
  {
    OnlyQueued(s, k);
  }

  // ---- exactly one worker ----

  /** A calm run goes on calmly while the uploads under way succeed. */
  lemma {:induction false} FinishIsCalm(
      cfg: Config, init: State, a: seq<Label>, mid: State, b: seq<Label>, end: State) returns (run: seq<Label>)
    requires Exec(cfg, init, a) == Some(mid) && CalmRun(cfg, init, a) && Finishes(cfg, mid, b, end)
    ensures Exec(cfg, init, run) == Some(end) && CalmRun(cfg, init, run)
    decreases |b|
  {
    if b == [] {
      run := a;
    } else {
      var before := LastFinish(cfg, mid, b, end);
      var rest := FinishIsCalm(cfg, init, a, mid, b[..|b| - 1], before);
      CalmOn(cfg, init, rest, before, b[|b| - 1], end);
      run := rest + [b[|b| - 1]];
    }
  }

  lemma LastFinish(cfg: Config, s: State, run: seq<Label>, s': State) returns (before: State)
    requires run != [] && Finishes(cfg, s, run, s')
    ensures Finishes(cfg, s, run[..|run| - 1], before) && Next(cfg, before, run[|run| - 1]) == Some(s')
    ensures Calm(cfg, before, run[|run| - 1])
  {
    before := Exec(cfg, s, run[..|run| - 1]).value;
    SuccessIsCalm(cfg, before, run[|run| - 1]);
  }

  lemma SuccessIsCalm(cfg: Config, s: State, l: Label)
    requires Succeeds(l)
    ensures Calm(cfg, s, l)
  {
  }

  lemma CalmOn(cfg: Config, init: State, run: seq<Label>, s: State, l: Label, s': State)
    requires Exec(cfg, init, run) == Some(s) && CalmRun(cfg, init, run)
    requires Calm(cfg, s, l) && Next(cfg, s, l) == Some(s')
    ensures Exec(cfg, init, run + [l]) == Some(s') && CalmRun(cfg, init, run + [l])
  {
    assert (run + [l])[..|run|] == run;
  }

  lemma TwoWorkersDiverge(cfg: Config)
    requires cfg.Valid() && cfg.workers >= 2
    ensures !Converges(cfg)
  {
    var s := ReadCanBreak(cfg, "");
    var init := Init(cfg, map[], map[]);
    var s' := Next(cfg, s, Read(1, true)).value;
    var before :| Led(cfg, map[], true, before, s);
    CalmOn(cfg, init, before, s, Read(1, true), s');
    var run, end := BrokenGuardDiverges(cfg, s, Read(1, true), s');
    var _ := FinishIsCalm(cfg, init, before + [Read(1, true)], s', run, end);
    assert Coherent(map[], map[]);
  }

  /** Asynchronous upload converges in every calm run exactly when there is one worker. */
  lemma ConvergesExactly(cfg: Config)
    requires cfg.Valid()
    ensures Converges(cfg) <==> cfg.workers == 1
  {
    if cfg.workers == 1 {
      forall local, s3, run, s, k |
        && Coherent(local, s3) && Exec(cfg, Init(cfg, local, s3), run) == Some(s)
        && CalmRun(cfg, Init(cfg, local, s3), run) && Settled(s, k) && !Lost(s, k)
        ensures Agree(s, k)
      {
        OneWorkerConverges(cfg, local, s3, run, s, k);
      }
    } else {
      TwoWorkersDiverge(cfg);
    }
  }
}
